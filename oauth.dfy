/** The OAuth-attempt protocol shared by the login components and the two
    callback handlers: the session-storage flags written before a social login
    and cleared on error or return, the redirect target, and the record of what
    was handed to the SDK or saved as a login token. */
module OAuthFlags {
  import opened Js

  const AttemptKey := "magicOAuthAttempt"
  const ProviderKey := "magicOAuthProvider"
  /** The Magic SDK's own OAuth state entry in localStorage. */
  const MagicStateKey := "magic:state"
  const TokenKey := "token"
  const LoginTypeKey := "loginType"
  const CallbackPath := "/oauth/callback"
  const Social := "SOCIAL"

  /** The login providers offered by the login screens. */
  datatype SocialProvider = Google | Twitter | Telegram | Github

  /** The provider's string value, already in lower case. */
  function Name(p: SocialProvider): (r: string)
    ensures ToLower(r) == r && r != ""
  {
    match p
    case Google => "google"
    case Twitter => "twitter"
    case Telegram => "telegram"
    case Github => "github"
  }

  /** Distinct providers have distinct names, so the provider flag identifies
      the provider. */
  lemma NameInjective(p: SocialProvider, q: SocialProvider)
    ensures Name(p) == Name(q) ==> p == q
  {
    if p != q {
      assert Name(p)[0] != Name(q)[0] || Name(p)[1] != Name(q)[1];
    }
  }

  /** `${window.location.origin}/oauth/callback` */
  function RedirectUri(origin: string): (r: string)
    ensures StartsWith(r, origin) && EndsWith(r, CallbackPath)
    ensures |r| == |origin| + |CallbackPath|
  {
    var r := origin + CallbackPath;
    assert r[..|origin|] == origin && r[|origin|..] == CallbackPath;
    r
  }

  /** The options object of `loginWithRedirect`. */
  datatype RedirectConfig = RedirectConfig(provider: string, redirectUri: string, scope: Option<seq<string>>)

  /** A login call handed to the Magic SDK. */
  datatype LoginCall = EmailOtp(email: string) | Popup(provider: string) | Redirect(config: RedirectConfig)

  /** A call of `saveToken` (utils/common), which is not part of this model. */
  datatype SavedToken = SavedToken(token: string, loginType: string)

  /** What a social login leaves in sessionStorage before it hands over to the SDK. */
  predicate AttemptRecorded(items: map<string, string>, p: SocialProvider) {
    AttemptKey in items && items[AttemptKey] == "true" && ProviderKey in items && items[ProviderKey] == Name(p)
  }

  /** Both flags are absent. */
  predicate NoAttempt(items: map<string, string>) {
    AttemptKey !in items && ProviderKey !in items
  }

  /** Writing both flags records the attempt whatever was stored before;
      removing both clears it, and nothing else is touched either way. */
  lemma FlagsRoundTrip(items: map<string, string>, p: SocialProvider)
    ensures AttemptRecorded(items[AttemptKey := "true"][ProviderKey := Name(p)], p)
    ensures NoAttempt(items[AttemptKey := "true"][ProviderKey := Name(p)] - {AttemptKey, ProviderKey})
    ensures items[AttemptKey := "true"][ProviderKey := Name(p)] - {AttemptKey, ProviderKey} == items - {AttemptKey, ProviderKey}
  {
    assert AttemptKey != ProviderKey by {
      assert AttemptKey[10] != ProviderKey[10];
    }
  }

  /** `setItem` of both flags, attempt first. */
  method RecordAttempt(session: Storage, p: SocialProvider)
    modifies session
    ensures session.items == old(session.items)[AttemptKey := "true"][ProviderKey := Name(p)]
    ensures AttemptRecorded(session.items, p)
  {
    session.SetItem(AttemptKey, "true");
    session.SetItem(ProviderKey, Name(p));
    FlagsRoundTrip(old(session.items), p);
  }

  /** `removeItem` of both flags. */
  method ClearAttempt(session: Storage)
    modifies session
    ensures session.items == old(session.items) - {AttemptKey, ProviderKey}
    ensures NoAttempt(session.items)
  {
    session.RemoveItem(AttemptKey);
    session.RemoveItem(ProviderKey);
  }
}
