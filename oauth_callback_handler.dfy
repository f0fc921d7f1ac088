/** The background handler of src/components/magic/OAuthCallbackHandler.tsx:
    once the Solana instance's OAuth extension is there, it asks the SDK for a
    pending redirect result, saves a social-login token, shows an error only
    when the page looks like an OAuth callback, and clears the attempt flag. */
module OAuthCallbackHandler {
  import opened Js
  import opened OAuthFlags
  import MagicProvider
  import opened OAuthCallbackPage

  const CallbackMarkers: seq<string> := ["state=", "code=", "magic_credential"]

  /** `isLikelyCallback`: the URL carries a callback marker, or the attempt
      flag (read before its removal) is exactly 'true'. */
  predicate IsLikelyCallback(href: string, attempt: Option<string>) {
    Contains(href, "state=") || Contains(href, "code=") || Contains(href, "magic_credential")
    || attempt == Some("true")
  }

  /** The same test stated through occurrences: some marker occurs somewhere in
      the URL, or the flag reads 'true'. */
  lemma LikelyCallbackIff(href: string, attempt: Option<string>)
    ensures IsLikelyCallback(href, attempt) <==>
      (exists k, i :: 0 <= k < |CallbackMarkers| && OccursAt(href, CallbackMarkers[k], i))
      || attempt == Some("true")
  {
    ContainsIff(href, "state=");
    ContainsIff(href, "code=");
    ContainsIff(href, "magic_credential");
    if exists k, i :: 0 <= k < |CallbackMarkers| && OccursAt(href, CallbackMarkers[k], i) {
      var k, i :| 0 <= k < |CallbackMarkers| && OccursAt(href, CallbackMarkers[k], i);
      assert OccursAt(href, CallbackMarkers[k], i);
    }
    if Contains(href, "state=") {
      var i :| OccursAt(href, "state=", i);
      assert OccursAt(href, CallbackMarkers[0], i);
    } else if Contains(href, "code=") {
      var i :| OccursAt(href, "code=", i);
      assert OccursAt(href, CallbackMarkers[1], i);
    } else if Contains(href, "magic_credential") {
      var i :| OccursAt(href, "magic_credential", i);
      assert OccursAt(href, CallbackMarkers[2], i);
    }
  }

  /** Reading `result.magic.idToken` throws when the result has no `magic`
      part; the fetch itself may throw too. */
  predicate Throws(f: Fetch) {
    !f.Returned? || (f.result.Some? && f.result.value.magic.None?)
  }

  /** A toast shown by the handler. */
  datatype Toast = Success | Failure(message: string)

  /** The error toast's text. `typeError` is the engine's message for reading
      `idToken` of undefined. */
  function FailureMessage(f: Fetch, typeError: string): (m: string)
    requires Throws(f)
    ensures StartsWith(m, ErrorPrefix)
    ensures f.ErrorThrew? || f.RpcThrew? ==> m == ErrorPrefix + f.message
    ensures f.ValueThrew? ==> m == ErrorPrefix + "Unknown error"
  {
    var m := match f
      case Returned(_) => ErrorPrefix + typeError
      case RpcThrew(message) => ErrorPrefix + message
      case ErrorThrew(message) => ErrorPrefix + message
      case ValueThrew => ErrorPrefix + "Unknown error";
    assert m[..|ErrorPrefix|] == ErrorPrefix;
    m
  }

  class CallbackHandler {
    var isProcessing: bool
    /** The calls of `saveToken`. */
    var saved: seq<SavedToken>
    var toasts: seq<Toast>

    constructor ()
      ensures !isProcessing && saved == [] && toasts == []
    {
      isProcessing, saved, toasts := false, [], [];
    }

    /** The catch block: a toast only for a likely callback. */
    method ReportError(f: Fetch, typeError: string, href: string, attempt: Option<string>)
      requires Throws(f)
      modifies this
      ensures toasts == old(toasts) + (if IsLikelyCallback(href, attempt) then [Failure(FailureMessage(f, typeError))] else [])
      ensures saved == old(saved) && isProcessing == old(isProcessing)
    {
      if IsLikelyCallback(href, attempt) {
        toasts := toasts + [Failure(FailureMessage(f, typeError))];
      }
    }

    /** `checkForOAuthResult`. The removal of the attempt flag, scheduled in
        the finally block, is taken as done. */
    method CheckForOAuthResult(solanaMagic: Option<MagicProvider.Instance>, href: string, f: Fetch,
                               typeError: string, session: Storage)
      modifies this, session
      ensures !MagicProvider.HasOAuth(solanaMagic) ==>
        session.items == old(session.items) && saved == old(saved) && toasts == old(toasts)
        && isProcessing == old(isProcessing)
      ensures MagicProvider.HasOAuth(solanaMagic) ==>
        && !isProcessing
        && session.items == old(session.items) - {AttemptKey}
        && saved == old(saved) + (if HasToken(f) then [SavedToken(f.result.value.magic.value.idToken.value, Social)] else [])
        && toasts == old(toasts) + (if HasToken(f) then [Success]
                                    else if Throws(f) && IsLikelyCallback(href, old(session.GetItem(AttemptKey)))
                                    then [Failure(FailureMessage(f, typeError))]
                                    else [])
    {
      if !MagicProvider.HasOAuth(solanaMagic) {
        return;
      }
      isProcessing := true;
      if Throws(f) {
        ReportError(f, typeError, href, session.GetItem(AttemptKey));
      } else if HasToken(f) {
        saved := saved + [SavedToken(f.result.value.magic.value.idToken.value, Social)];
        toasts := toasts + [Success];
      }
      isProcessing := false;
      session.RemoveItem(AttemptKey);
    }
  }

  /** The handler leaves the provider flag in place, so after it has run the
      attempt reads as absent while the provider it named is still stored. */
  method ProviderFlagOutlivesAttempt(solanaMagic: Option<MagicProvider.Instance>, p: SocialProvider,
                                     href: string, f: Fetch, typeError: string, session: Storage)
    returns (h: CallbackHandler)
    requires MagicProvider.HasOAuth(solanaMagic)
    modifies session
    ensures session.GetItem(AttemptKey).None? && session.GetItem(ProviderKey) == Some(Name(p))
  {
    RecordAttempt(session, p);
    h := new CallbackHandler();
    h.CheckForOAuthResult(solanaMagic, href, f, typeError, session);
  }

  /** A recorded attempt makes any failure a likely callback, whatever the
      URL; once the handler has removed the flag, a later failure on a URL
      without markers is silent. */
  method FlagDecidesLaterToasts(solanaMagic: Option<MagicProvider.Instance>, p: SocialProvider,
                                href: string, f: Fetch, typeError: string, session: Storage)
    returns (h: CallbackHandler)
    requires MagicProvider.HasOAuth(solanaMagic) && Throws(f)
    requires !Contains(href, "state=") && !Contains(href, "code=") && !Contains(href, "magic_credential")
    modifies session
    ensures h.toasts == [Failure(FailureMessage(f, typeError))]
  {
    RecordAttempt(session, p);
    h := new CallbackHandler();
    h.CheckForOAuthResult(solanaMagic, href, f, typeError, session);
    h.CheckForOAuthResult(solanaMagic, href, f, typeError, session);
  }

  /** With the context as published (no `solanaMagic`), the handler never gets
      past its guard: nothing is saved and the attempt flag stays. */
  method PublishedHandlerIdle(apiKey: string, p: SocialProvider, href: string, f: Fetch,
                              typeError: string, session: Storage)
    returns (h: CallbackHandler)
    requires apiKey != ""
    modifies session
    ensures h.saved == [] && h.toasts == [] && AttemptRecorded(session.items, p)
  {
    RecordAttempt(session, p);
    var held, published, corrected := MagicProvider.SolanaInstanceNotPublished(apiKey);
    h := new CallbackHandler();
    h.CheckForOAuthResult(published, href, f, typeError, session);
  }
}
