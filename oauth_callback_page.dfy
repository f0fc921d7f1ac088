/** The OAuth redirect target, src/pages/oauth/callback.tsx: the bounded wait
    for the Solana instance's OAuth extension, the `state`/`code` check of the
    authorization response (section 4.1.2 of RFC 6749), the ladder over the
    shape of `getRedirectResult()`, the error messages, and the two buttons of
    the error screen. */
module OAuthCallbackPage {
  import opened Js
  import opened OAuthFlags
  import MagicProvider

  const MaxRetries: nat := 10

  const SdkFailedMessage := "Magic SDK failed to load after multiple attempts"
  const MissingParamsMessage := "Invalid OAuth callback. " + "Missing required parameters from OAuth provider."
  const NoResultMessage := "No OAuth authentication detected. " + "Please try logging in again."
  const BadShapeMessage := "Invalid authentication result structure"
  const NoTokenMessage := "No authentication token received from provider"
  const StillNoResultMessage := "Still no result from authentication provider"
  const RpcPrefix := "Magic authentication error: "
  const ErrorPrefix := "Authentication error: "
  const RetryPrefix := "Retry failed: "

  /** `result.magic` of a redirect result. */
  datatype Credential = Credential(idToken: Option<string>)

  /** A non-null redirect result, with or without its `magic` part. */
  datatype RedirectResult = RedirectResult(magic: Option<Credential>)

  /** What `getRedirectResult()` did: returned (null or a result), or threw an
      `RPCError`, another `Error`, or a value that is not an `Error`. */
  datatype Fetch =
    | Returned(result: Option<RedirectResult>)
    | RpcThrew(message: string)
    | ErrorThrew(message: string)
    | ValueThrew

  /** The outcome of one pass through the try block. */
  datatype Outcome = SignedIn(token: string) | Failed(message: string)

  /** The redirect result carries a truthy ID token. */
  predicate HasToken(f: Fetch) {
    f.Returned? && f.result.Some? && f.result.value.magic.Some? && Truthy(f.result.value.magic.value.idToken)
  }

  /** The message the catch block sets. */
  function CatchMessage(f: Fetch): (m: string)
    requires !f.Returned?
    ensures f.RpcThrew? ==> StartsWith(m, RpcPrefix)
    ensures !f.RpcThrew? ==> StartsWith(m, ErrorPrefix)
  {
    match f
    case RpcThrew(message) =>
      assert (RpcPrefix + message)[..|RpcPrefix|] == RpcPrefix;
      RpcPrefix + message
    case ErrorThrew(message) =>
      assert (ErrorPrefix + message)[..|ErrorPrefix|] == ErrorPrefix;
      ErrorPrefix + message
    case ValueThrew =>
      assert (ErrorPrefix + "Unknown error")[..|ErrorPrefix|] == ErrorPrefix;
      ErrorPrefix + "Unknown error"
  }

  /** The ladder of the try block: the query parameters, then the result's
      shape, then the token. */
  function Ladder(state: Option<string>, code: Option<string>, f: Fetch): (o: Outcome)
    ensures !Truthy(state) || !Truthy(code) ==> o == Failed(MissingParamsMessage)
    ensures o.SignedIn? <==> Truthy(state) && Truthy(code) && HasToken(f)
    ensures o.SignedIn? ==> o.token == f.result.value.magic.value.idToken.value && o.token != ""
  {
    if !Truthy(state) || !Truthy(code) then Failed(MissingParamsMessage)
    else match f
      case Returned(None) => Failed(NoResultMessage)
      case Returned(Some(RedirectResult(None))) => Failed(BadShapeMessage)
      case Returned(Some(RedirectResult(Some(Credential(idToken))))) =>
        if Truthy(idToken) then SignedIn(idToken.value) else Failed(NoTokenMessage)
      case _ => Failed(CatchMessage(f))
  }

  /** Why a pass failed, as the user should learn it. */
  datatype Cause = MissingParams | NoResult | BadShape | NoToken | RpcFailure | OtherFailure

  function CauseOf(state: Option<string>, code: Option<string>, f: Fetch): Cause {
    if !Truthy(state) || !Truthy(code) then MissingParams
    else match f
      case Returned(None) => NoResult
      case Returned(Some(RedirectResult(None))) => BadShape
      case Returned(_) => NoToken
      case RpcThrew(_) => RpcFailure
      case _ => OtherFailure
  }

  /** Reads the cause back from a message's first characters. */
  function CauseFromMessage(m: string): Cause
    requires |m| > 8
  {
    if m[0] == 'I' then (if m[8] == 'O' then MissingParams else BadShape)
    else if m[0] == 'N' then (if m[3] == 'O' then NoResult else NoToken)
    else if m[0] == 'M' then RpcFailure
    else OtherFailure
  }

  /** Each failed pass's message spells out its cause. */
  lemma MessageDetermines(s: Option<string>, c: Option<string>, f: Fetch)
    requires Ladder(s, c, f).Failed?
    ensures |Ladder(s, c, f).message| > 8
    ensures CauseFromMessage(Ladder(s, c, f).message) == CauseOf(s, c, f)
  {
    MessageHeads();
    if Truthy(s) && Truthy(c) && !f.Returned? {
      var m := CatchMessage(f);
      if f.RpcThrew? {
        assert m[0] == m[..|RpcPrefix|][0];
      } else {
        assert m[0] == m[..|ErrorPrefix|][0];
      }
    }
  }

  /** The characters that tell the ladder's messages apart. */
  lemma MessageHeads()
    ensures MissingParamsMessage[0] == 'I' && MissingParamsMessage[8] == 'O'
    ensures BadShapeMessage[0] == 'I' && BadShapeMessage[8] == 'a'
    ensures NoResultMessage[0] == 'N' && NoResultMessage[3] == 'O'
    ensures NoTokenMessage[0] == 'N' && NoTokenMessage[3] == 'a'
    ensures RpcPrefix[0] == 'M' && ErrorPrefix[0] == 'A'
  {
  }

  /** The message shown identifies the rung of the ladder that failed: two
      failed passes with the same message failed for the same reason. */
  lemma MessageIdentifiesCause(s1: Option<string>, c1: Option<string>, f1: Fetch,
                               s2: Option<string>, c2: Option<string>, f2: Fetch)
    requires Ladder(s1, c1, f1).Failed? && Ladder(s2, c2, f2).Failed?
    requires Ladder(s1, c1, f1).message == Ladder(s2, c2, f2).message
    ensures CauseOf(s1, c1, f1) == CauseOf(s2, c2, f2)
  {
    MessageDetermines(s1, c1, f1);
    MessageDetermines(s2, c2, f2);
  }

  /** The message of a failed retry. */
  function RetryMessage(f: Fetch): (m: string)
    ensures !HasToken(f) && f.Returned? ==> m == StillNoResultMessage
    ensures !f.Returned? ==> StartsWith(m, RetryPrefix)
  {
    match f
    case Returned(_) => StillNoResultMessage
    case RpcThrew(message) =>
      assert (RetryPrefix + message)[..|RetryPrefix|] == RetryPrefix;
      RetryPrefix + message
    case ErrorThrew(message) =>
      assert (RetryPrefix + message)[..|RetryPrefix|] == RetryPrefix;
      RetryPrefix + message
    case ValueThrew =>
      assert (RetryPrefix + "Unknown error")[..|RetryPrefix|] == RetryPrefix;
      RetryPrefix + "Unknown error"
  }

  /** The page's state. `redirectCalls` counts the calls of `getRedirectResult`;
      `navigated` records a `router.push('/')`, scheduled or immediate. */
  class CallbackPage {
    var isProcessing: bool
    var error: Option<string>
    var redirectCalls: nat
    var navigated: bool

    constructor ()
      ensures isProcessing && error.None? && redirectCalls == 0 && !navigated
    {
      isProcessing, error, redirectCalls, navigated := true, None, 0, false;
    }

    /** The heading over the card. */
    function Heading(): (h: string)
      reads this
      ensures isProcessing ==> h == "Processing Login..."
      ensures !isProcessing ==> (h == "Login Error" <==> Truthy(error))
      ensures !isProcessing && !Truthy(error) ==> h == "Login Successful"
    {
      if isProcessing then "Processing Login..." else if Truthy(error) then "Login Error" else "Login Successful"
    }

    /** The try block of one attempt, with the Solana instance's OAuth extension
        present. The `magic:state` entry is only read for a warning, so the
        outcome does not depend on it. */
    method ProcessRedirect(state: Option<string>, code: Option<string>, f: Fetch, local: Storage)
      modifies this, local
      ensures !isProcessing
      ensures redirectCalls == old(redirectCalls) + (if Truthy(state) && Truthy(code) then 1 else 0)
      ensures Ladder(state, code, f).SignedIn? ==>
        && local.items == old(local.items)[TokenKey := Ladder(state, code, f).token][LoginTypeKey := Social]
        && error == old(error) && navigated
      ensures Ladder(state, code, f).Failed? ==>
        local.items == old(local.items) && error == Some(Ladder(state, code, f).message) && navigated == old(navigated)
    {
      if !Truthy(state) || !Truthy(code) {
        error := Some(MissingParamsMessage);
        isProcessing := false;
        return;
      }
      redirectCalls := redirectCalls + 1;
      match f {
        case Returned(None) =>
          error := Some(NoResultMessage);
        case Returned(Some(r)) =>
          if r.magic.None? {
            error := Some(BadShapeMessage);
          } else if Truthy(r.magic.value.idToken) {
            local.SetItem(TokenKey, r.magic.value.idToken.value);
            local.SetItem(LoginTypeKey, Social);
            navigated := true;
          } else {
            error := Some(NoTokenMessage);
          }
        case _ =>
          error := Some(CatchMessage(f));
      }
      isProcessing := false;
    }

    /** The effect: attempts run until the Solana instance has its OAuth
        extension (one pass through the try block) or ten attempts have found
        none. The instance is the one the effect was run with. */
    method RunEffect(solanaMagic: Option<MagicProvider.Instance>, state: Option<string>, code: Option<string>,
                     f: Fetch, local: Storage)
      returns (attempts: nat)
      modifies this, local
      ensures 1 <= attempts <= MaxRetries
      ensures !MagicProvider.HasOAuth(solanaMagic) ==>
        && attempts == MaxRetries && error == Some(SdkFailedMessage) && !isProcessing
        && redirectCalls == old(redirectCalls) && local.items == old(local.items) && navigated == old(navigated)
      ensures MagicProvider.HasOAuth(solanaMagic) ==>
        && attempts == 1 && !isProcessing
        && redirectCalls == old(redirectCalls) + (if Truthy(state) && Truthy(code) then 1 else 0)
        && (Ladder(state, code, f).SignedIn? ==>
              local.items == old(local.items)[TokenKey := Ladder(state, code, f).token][LoginTypeKey := Social]
              && error == old(error) && navigated)
        && (Ladder(state, code, f).Failed? ==>
              local.items == old(local.items) && error == Some(Ladder(state, code, f).message)
              && navigated == old(navigated))
    {
      var retryCount := 0;
      attempts := 0;
      var done := false;
      while !done
        invariant retryCount <= MaxRetries
        invariant MagicProvider.HasOAuth(solanaMagic) ==> retryCount == 0
        invariant !done ==> retryCount < MaxRetries && attempts == retryCount
        invariant !done ==> error == old(error) && isProcessing == old(isProcessing) && navigated == old(navigated)
        invariant !done ==> redirectCalls == old(redirectCalls) && local.items == old(local.items)
        invariant done && !MagicProvider.HasOAuth(solanaMagic) ==>
          attempts == MaxRetries && error == Some(SdkFailedMessage) && !isProcessing
          && redirectCalls == old(redirectCalls) && local.items == old(local.items) && navigated == old(navigated)
        invariant done && MagicProvider.HasOAuth(solanaMagic) ==>
          && attempts == 1 && !isProcessing
          && redirectCalls == old(redirectCalls) + (if Truthy(state) && Truthy(code) then 1 else 0)
          && (Ladder(state, code, f).SignedIn? ==>
                local.items == old(local.items)[TokenKey := Ladder(state, code, f).token][LoginTypeKey := Social]
                && error == old(error) && navigated)
          && (Ladder(state, code, f).Failed? ==>
                local.items == old(local.items) && error == Some(Ladder(state, code, f).message)
                && navigated == old(navigated))
        decreases MaxRetries - retryCount, if done then 0 else 1
      {
        attempts := attempts + 1;
        if !MagicProvider.HasOAuth(solanaMagic) {
          retryCount := retryCount + 1;
          if retryCount >= MaxRetries {
            error := Some(SdkFailedMessage);
            isProcessing := false;
            done := true;
          }
        } else {
          ProcessRedirect(state, code, f, local);
          done := true;
        }
      }
    }

    /** 'Return to Login': both flags are removed before navigating. */
    method ReturnToLogin(session: Storage)
      modifies this, session
      ensures session.items == old(session.items) - {AttemptKey, ProviderKey} && NoAttempt(session.items)
      ensures navigated
      ensures isProcessing == old(isProcessing) && error == old(error) && redirectCalls == old(redirectCalls)
    {
      ClearAttempt(session);
      navigated := true;
    }

    /** 'Retry': a fresh `getRedirectResult` through `solanaMagic?.oauth2`. A
        token signs in and navigates; anything else ends in an error. When the
        instance has no OAuth extension, reading `oauth2.getRedirectResult`
        throws, so `f` is a throw there. */
    method Retry(solanaMagic: Option<MagicProvider.Instance>, f: Fetch, local: Storage)
      requires solanaMagic.Some? && !solanaMagic.value.hasOAuth ==> !f.Returned?
      modifies this, local
      ensures redirectCalls == old(redirectCalls) + (if MagicProvider.HasOAuth(solanaMagic) then 1 else 0)
      ensures solanaMagic.Some? && HasToken(f) ==>
        && local.items == old(local.items)[TokenKey := f.result.value.magic.value.idToken.value][LoginTypeKey := Social]
        && error.None? && isProcessing && navigated
      ensures solanaMagic.None? ==>
        local.items == old(local.items) && error == Some(StillNoResultMessage) && !isProcessing && navigated == old(navigated)
      ensures solanaMagic.Some? && !HasToken(f) ==>
        local.items == old(local.items) && error == Some(RetryMessage(f)) && !isProcessing && navigated == old(navigated)
    {
      isProcessing := true;
      error := None;
      if solanaMagic.None? {
        error := Some(StillNoResultMessage);
        isProcessing := false;
        return;
      }
      if solanaMagic.value.hasOAuth {
        redirectCalls := redirectCalls + 1;
      }
      if HasToken(f) {
        local.SetItem(TokenKey, f.result.value.magic.value.idToken.value);
        local.SetItem(LoginTypeKey, Social);
        navigated := true;
      } else {
        error := Some(RetryMessage(f));
        isProcessing := false;
      }
    }
  }

  /** As published, the provider's value has no `solanaMagic`, so even with an
      API key and a complete authorization response the page waits out all ten
      attempts, never asks the SDK for the result, and shows the load failure. */
  method PublishedContextNeverSignsIn(apiKey: string, state: string, code: string, token: string, local: Storage)
    returns (page: CallbackPage, attempts: nat)
    requires apiKey != "" && state != "" && code != "" && token != ""
    modifies local
    ensures attempts == MaxRetries && page.redirectCalls == 0
    ensures page.error == Some(SdkFailedMessage) && local.items == old(local.items)
  {
    var held, published, corrected := MagicProvider.SolanaInstanceNotPublished(apiKey);
    page := new CallbackPage();
    attempts := page.RunEffect(published, Some(state), Some(code),
                               Returned(Some(RedirectResult(Some(Credential(Some(token)))))), local);
  }

  /** With the Solana instance published, the same redirect signs in on the
      first attempt: the token is stored as a social login and no error is set. */
  method CorrectedContextSignsIn(apiKey: string, state: string, code: string, token: string, local: Storage)
    returns (page: CallbackPage, attempts: nat)
    requires apiKey != "" && state != "" && code != "" && token != ""
    modifies local
    ensures attempts == 1 && page.redirectCalls == 1 && page.error.None? && page.navigated
    ensures local.items == old(local.items)[TokenKey := token][LoginTypeKey := Social]
  {
    var held, published, corrected := MagicProvider.SolanaInstanceNotPublished(apiKey);
    page := new CallbackPage();
    attempts := page.RunEffect(corrected, Some(state), Some(code),
                               Returned(Some(RedirectResult(Some(Credential(Some(token)))))), local);
  }
}
