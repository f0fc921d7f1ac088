/** The combined login screen of src/components/magic/auth/MergedLogin.tsx: the
    e-mail validator and e-mail login, and the social login with its
    session-storage protocol, its popup (Telegram) and redirect routing, the
    scope rule and the supported-provider check. */
module MergedLogin {
  import opened Js
  import opened Regex
  import opened OAuthFlags
  import MagicProvider
  import NetworkRegistry

  // ---- The e-mail validator ----

  /** [a-zA-Z0-9-]+ */
  function LabelPattern(): Re {
    Plus(Class(LabelChar))
  }

  /** (?:\.[a-zA-Z0-9-]+) */
  function DotLabelPattern(): Re {
    Cat(Literal("."), LabelPattern())
  }

  /** [a-zA-Z0-9-]+(?:\.[a-zA-Z0-9-]+)* */
  function DomainPattern(): Re {
    Cat(LabelPattern(), Star(DotLabelPattern()))
  }

  /** /^[a-zA-Z0-9.!#$%&'*+/=?^_`{|}~-]+@[a-zA-Z0-9-]+(?:\.[a-zA-Z0-9-]+)*$/ */
  function EmailPattern(): Re {
    Cat(Plus(Class(EmailLocalChar)), Cat(Literal("@"), DomainPattern()))
  }

  /** `email.match(...)` is truthy. */
  predicate IsValidEmail(s: string) {
    Matches(EmailPattern(), s)
  }

  predicate DomainChar(c: char) {
    InClass(LabelChar, c) || c == '.'
  }

  /** One or more labels of letters, digits and '-' joined by single dots:
      no leading, trailing or doubled dot. */
  predicate DottedLabels(d: string) {
    && |d| > 0 && d[0] != '.' && d[|d| - 1] != '.'
    && (forall i :: 0 <= i < |d| ==> DomainChar(d[i]))
    && (forall i :: 0 <= i < |d| - 1 && d[i] == '.' ==> d[i + 1] != '.')
  }

  /** What may follow the first label of a domain: nothing, or a dot and more labels. */
  predicate DotTail(t: string) {
    t == [] || (t[0] == '.' && DottedLabels(t[1..]))
  }

  /** A non-empty local part, one '@', and a dotted domain. */
  predicate EmailShape(s: string) {
    exists i :: 0 < i < |s| && s[i] == '@' && AllIn(EmailLocalChar, s[..i]) && DottedLabels(s[i + 1..])
  }

  /** The index of the first dot of `d`, or `|d|` when there is none. */
  function FirstDot(d: string): (k: nat)
    ensures k <= |d|
    ensures forall j :: 0 <= j < k ==> d[j] != '.'
    ensures k < |d| ==> d[k] == '.'
  {
    if d == [] || d[0] == '.' then 0 else 1 + FirstDot(d[1..])
  }

  /** A label followed by a dot tail is a dotted domain. */
  lemma JoinLabel(u: string, t: string)
    requires u != [] && AllIn(LabelChar, u) && DotTail(t)
    ensures DottedLabels(u + t)
  {
    var d := u + t;
    forall i | 0 <= i < |d|
      ensures DomainChar(d[i])
    {
      if i < |u| {
        assert d[i] == u[i];
      } else if i > |u| {
        assert d[i] == t[1..][i - |u| - 1];
      }
    }
    forall i | 0 <= i < |d| - 1
      ensures d[i] == '.' ==> d[i + 1] != '.'
    {
      if i < |u| {
        assert d[i] == u[i];
      } else if i == |u| {
        assert d[i + 1] == t[1..][0];
      } else {
        assert d[i] == t[1..][i - |u| - 1] && d[i + 1] == t[1..][i - |u|];
      }
    }
    assert d[0] == u[0];
    if t == [] {
      assert d[|d| - 1] == u[|u| - 1];
    } else {
      assert d[|d| - 1] == t[1..][|t[1..]| - 1];
    }
  }

  /** A dotted domain is its first label followed by a dot tail. */
  lemma SplitLabel(d: string)
    requires DottedLabels(d)
    ensures 0 < FirstDot(d) && AllIn(LabelChar, d[..FirstDot(d)]) && DotTail(d[FirstDot(d)..])
  {
    var k := FirstDot(d);
    assert forall j :: 0 <= j < k ==> d[..k][j] == d[j] && DomainChar(d[j]);
    if k < |d| {
      var t := d[k..];
      assert k + 1 < |d|;
      var r := t[1..];
      assert r == d[k + 1..];
      assert forall j :: 0 <= j < |r| ==> r[j] == d[k + 1 + j];
      assert r[0] != '.' by {
        assert d[k] == '.';
      }
      forall j | 0 <= j < |r| - 1
        ensures r[j] == '.' ==> r[j + 1] != '.'
      {
        assert r[j] == d[k + 1 + j];
      }
    }
  }

  /** `\.[a-zA-Z0-9-]+` denotes a dot followed by a non-empty label. */
  lemma DotLabelLang(w: string)
    ensures InLang(DotLabelPattern(), w) <==> |w| >= 2 && w[0] == '.' && AllIn(LabelChar, w[1..])
  {
    if InLang(DotLabelPattern(), w) {
      var i := CatSplit(Literal("."), LabelPattern(), w);
      LiteralLang(".", w[..i]);
      PlusLang(LabelChar, w[i..]);
      assert |w[..i]| == 1;
    }
    if |w| >= 2 && w[0] == '.' && AllIn(LabelChar, w[1..]) {
      LiteralLang(".", w[..1]);
      PlusLang(LabelChar, w[1..]);
      CatIntro(Literal("."), LabelPattern(), w[..1], w[1..]);
      assert w[..1] + w[1..] == w;
    }
  }

  lemma {:induction false} DotTailSound(t: string)
    requires InLang(Star(DotLabelPattern()), t)
    ensures DotTail(t)
    decreases |t|
  {
    if t != [] {
      var i := StarSplit(DotLabelPattern(), t);
      DotLabelLang(t[..i]);
      DotTailSound(t[i..]);
      assert t[..i][1..] == t[1..i];
      JoinLabel(t[1..i], t[i..]);
      assert t[1..i] + t[i..] == t[1..];
    }
  }

  lemma {:induction false} DotTailComplete(t: string)
    requires DotTail(t)
    ensures InLang(Star(DotLabelPattern()), t)
    decreases |t|
  {
    if t != [] {
      var d := t[1..];
      SplitLabel(d);
      var k := FirstDot(d);
      var w, rest := t[..k + 1], t[k + 1..];
      assert forall j :: 0 <= j < k ==> w[1..][j] == d[..k][j];
      assert w[1..] == d[..k];
      DotLabelLang(w);
      assert rest == d[k..];
      DotTailComplete(rest);
      StarIntro(DotLabelPattern(), w, rest);
      assert w + rest == t;
    }
  }

  /** `(?:\.[a-zA-Z0-9-]+)*` denotes exactly the dot tails. */
  lemma DotTailLang(t: string)
    ensures InLang(Star(DotLabelPattern()), t) <==> DotTail(t)
  {
    if InLang(Star(DotLabelPattern()), t) {
      DotTailSound(t);
    }
    if DotTail(t) {
      DotTailComplete(t);
    }
  }

  lemma DomainSound(d: string)
    requires InLang(DomainPattern(), d)
    ensures DottedLabels(d)
  {
    var i := CatSplit(LabelPattern(), Star(DotLabelPattern()), d);
    PlusLang(LabelChar, d[..i]);
    DotTailLang(d[i..]);
    JoinLabel(d[..i], d[i..]);
    assert d[..i] + d[i..] == d;
  }

  lemma DomainComplete(d: string)
    requires DottedLabels(d)
    ensures InLang(DomainPattern(), d)
  {
    SplitLabel(d);
    var k := FirstDot(d);
    PlusLang(LabelChar, d[..k]);
    DotTailLang(d[k..]);
    CatIntro(LabelPattern(), Star(DotLabelPattern()), d[..k], d[k..]);
    assert d[..k] + d[k..] == d;
  }

  /** The domain pattern denotes exactly the dotted domains. */
  lemma DomainLang(d: string)
    ensures InLang(DomainPattern(), d) <==> DottedLabels(d)
  {
    if InLang(DomainPattern(), d) {
      DomainSound(d);
    }
    if DottedLabels(d) {
      DomainComplete(d);
    }
  }

  /** `@` followed by a domain. */
  lemma AtDomainLang(t: string)
    ensures InLang(Cat(Literal("@"), DomainPattern()), t) <==> |t| > 0 && t[0] == '@' && DottedLabels(t[1..])
  {
    if InLang(Cat(Literal("@"), DomainPattern()), t) {
      var j := CatSplit(Literal("@"), DomainPattern(), t);
      LiteralLang("@", t[..j]);
      assert |t[..j]| == 1 && t[0] == t[..j][0];
      DomainLang(t[j..]);
    }
    if |t| > 0 && t[0] == '@' && DottedLabels(t[1..]) {
      LiteralLang("@", t[..1]);
      DomainLang(t[1..]);
      CatIntro(Literal("@"), DomainPattern(), t[..1], t[1..]);
      assert t[..1] + t[1..] == t;
    }
  }

  lemma EmailSound(s: string)
    requires InLang(EmailPattern(), s)
    ensures EmailShape(s)
  {
    var i := CatSplit(Plus(Class(EmailLocalChar)), Cat(Literal("@"), DomainPattern()), s);
    PlusLang(EmailLocalChar, s[..i]);
    AtDomainLang(s[i..]);
    assert s[i..][1..] == s[i + 1..] && s[i] == s[i..][0];
  }

  lemma EmailComplete(s: string, i: int)
    requires 0 < i < |s| && s[i] == '@' && AllIn(EmailLocalChar, s[..i]) && DottedLabels(s[i + 1..])
    ensures InLang(EmailPattern(), s)
  {
    PlusLang(EmailLocalChar, s[..i]);
    assert s[i..][1..] == s[i + 1..];
    AtDomainLang(s[i..]);
    CatIntro(Plus(Class(EmailLocalChar)), Cat(Literal("@"), DomainPattern()), s[..i], s[i..]);
    assert s[..i] + s[i..] == s;
  }

  /** The validator accepts exactly a non-empty run of local-part characters,
      one '@', and one or more labels joined by single dots. */
  lemma EmailValidatorShape(s: string)
    ensures IsValidEmail(s) <==> EmailShape(s)
  {
    MatchesCorrect(EmailPattern(), s);
    if InLang(EmailPattern(), s) {
      EmailSound(s);
    }
    if EmailShape(s) {
      var i :| 0 < i < |s| && s[i] == '@' && AllIn(EmailLocalChar, s[..i]) && DottedLabels(s[i + 1..]);
      EmailComplete(s, i);
    }
  }

  /** An accepted address holds exactly one '@': neither part may contain one. */
  lemma ValidEmailHasOneAt(s: string, i: int, j: int)
    requires IsValidEmail(s)
    requires 0 <= i < j < |s| && s[i] == '@'
    ensures s[j] != '@'
  {
    EmailValidatorShape(s);
    var k :| 0 < k < |s| && s[k] == '@' && AllIn(EmailLocalChar, s[..k]) && DottedLabels(s[k + 1..]);
    forall m | 0 <= m < |s| && m != k
      ensures s[m] != '@'
    {
      if m < k {
        assert s[..k][m] == s[m];
      } else {
        assert s[k + 1..][m - k - 1] == s[m];
      }
    }
  }

  /** Looser than the HTML standard's valid e-mail address: a label may start
      or end with '-', and a domain label may be longer than 63 characters. */
  lemma AcceptsHyphenOnlyDomain()
    ensures IsValidEmail("a@-")
  {
    var s := "a@-";
    assert s[..1] == "a" && s[2..] == "-";
    assert AllIn(EmailLocalChar, s[..1]);
    assert DottedLabels(s[2..]);
    EmailValidatorShape(s);
  }

  // ---- Social-login routing ----

  const GoogleScope := ["email", "profile"]

  /** The providers `loginWithRedirect` is declared to support. */
  const SupportedRedirectProviders := ["google", "facebook", "apple", "github", "bitbucket", "gitlab",
                                       "linkedin", "twitter", "discord", "twitch", "microsoft"]

  /** Every provider that reaches the support check is in the list, so the
      unsupported-provider warning never fires. */
  lemma RedirectProvidersSupported(p: SocialProvider)
    requires p != Telegram
    ensures ToLower(Name(p)) in SupportedRedirectProviders
  {
    assert ToLower(Name(p)) == Name(p);
    match p
    case Google => assert Name(p) == SupportedRedirectProviders[0];
    case Twitter => assert Name(p) == SupportedRedirectProviders[7];
    case Github => assert Name(p) == SupportedRedirectProviders[3];
  }

  /** `solanaMagic || magic`. */
  function ActiveInstance(ctx: MagicProvider.ContextValue): (m: Option<MagicProvider.Instance>)
    ensures ctx.solanaMagic.Some? ==> m == ctx.solanaMagic
    ensures ctx.solanaMagic.None? ==> m == ctx.magic
  {
    if ctx.solanaMagic.Some? then ctx.solanaMagic else ctx.magic
  }

  /** The SDK call a social login makes: a popup for Telegram, otherwise a
      redirect back to the callback page, with a scope for Google only. */
  function LoginCallFor(p: SocialProvider, origin: string): (c: LoginCall)
    ensures c.Popup? <==> p == Telegram
    ensures c.Popup? ==> c.provider == Name(Telegram)
    ensures c.Redirect? ==>
      && c.config.provider == Name(p)
      && c.config.redirectUri == RedirectUri(origin)
      && StartsWith(c.config.redirectUri, origin) && EndsWith(c.config.redirectUri, CallbackPath)
      && |c.config.redirectUri| == |origin| + |CallbackPath|
      && (c.config.scope.Some? <==> p == Google)
      && (c.config.scope.Some? ==> c.config.scope.value == GoogleScope)
  {
    if p == Telegram then Popup("telegram")
    else Redirect(RedirectConfig(ToLower(Name(p)), RedirectUri(origin), if p == Google then Some(GoogleScope) else None))
  }

  /** What the SDK answered a login call: a token (the e-mail OTP login's, or
      the Telegram popup's `getIdToken`; '' is falsy), no result, or a throw.
      For a redirect any answer but a throw means the call returned. */
  datatype LoginOutcome = Token(token: string) | NoResult | Threw

  /** The login screen's state and what it handed to the SDK or saved. */
  class LoginScreen {
    var email: string
    var emailError: bool
    var emailLoginInProgress: bool
    var socialLoading: bool
    var currentProvider: Option<SocialProvider>
    var calls: seq<LoginCall>
    var saved: seq<SavedToken>

    constructor ()
      ensures email == "" && !emailError && !emailLoginInProgress
      ensures !socialLoading && currentProvider.None? && calls == [] && saved == []
    {
      email, emailError, emailLoginInProgress := "", false, false;
      socialLoading, currentProvider := false, None;
      calls, saved := [], [];
    }

    /** The e-mail button's `disabled` attribute, for the current token. */
    predicate EmailButtonDisabled(token: string)
      reads this
    {
      emailLoginInProgress || (if |token| > 0 then false else |email| == 0)
    }

    /** A social button shows its spinner and is disabled. */
    predicate ButtonLoading(p: SocialProvider)
      reads this
    {
      socialLoading && currentProvider == Some(p)
    }

    /** Typing into the e-mail field clears the error. */
    method EditEmail(v: string)
      modifies this
      ensures email == v && !emailError
      ensures emailLoginInProgress == old(emailLoginInProgress) && socialLoading == old(socialLoading)
      ensures currentProvider == old(currentProvider) && calls == old(calls) && saved == old(saved)
    {
      if emailError {
        emailError := false;
      }
      email := v;
    }

    /** `handleEmailLogin`: a rejected address only raises the error; an accepted
        one asks the active instance (if any) for an OTP login and saves a
        truthy token as an 'EMAIL' login. */
    method HandleEmailLogin(hasMagic: bool, outcome: LoginOutcome)
      modifies this
      ensures !IsValidEmail(old(email)) ==>
        emailError && email == old(email) && emailLoginInProgress == old(emailLoginInProgress)
        && calls == old(calls) && saved == old(saved)
      ensures IsValidEmail(old(email)) ==>
        && !emailError && !emailLoginInProgress
        && calls == old(calls) + (if hasMagic then [EmailOtp(old(email))] else [])
        && (if hasMagic && outcome.Token? && outcome.token != ""
            then saved == old(saved) + [SavedToken(outcome.token, "EMAIL")] && email == ""
            else saved == old(saved) && email == old(email))
      ensures socialLoading == old(socialLoading) && currentProvider == old(currentProvider)
    {
      if !IsValidEmail(email) {
        emailError := true;
        return;
      }
      emailLoginInProgress := true;
      emailError := false;
      if hasMagic {
        calls := calls + [EmailOtp(email)];
        if outcome.Token? && outcome.token != "" {
          saved := saved + [SavedToken(outcome.token, "EMAIL")];
          email := "";
        }
      }
      emailLoginInProgress := false;
    }

    /** `handleSocialLogin`. Without an OAuth-capable instance it returns before
        touching storage, leaving the spinner on; otherwise it records the
        attempt, drops the SDK's stale state and hands over to the SDK; a throw
        clears both flags and the loading state. */
    method HandleSocialLogin(p: SocialProvider, ctx: MagicProvider.ContextValue, origin: string,
                             session: Storage, local: Storage, outcome: LoginOutcome)
      requires session != local
      modifies this, session, local
      ensures !MagicProvider.HasOAuth(ActiveInstance(ctx)) ==>
        && session.items == old(session.items) && local.items == old(local.items)
        && calls == old(calls) && saved == old(saved) && ButtonLoading(p)
      ensures MagicProvider.HasOAuth(ActiveInstance(ctx)) ==>
        && local.items == old(local.items) - {MagicStateKey}
        && calls == old(calls) + [LoginCallFor(p, origin)]
      ensures MagicProvider.HasOAuth(ActiveInstance(ctx)) && outcome.Threw? ==>
        && session.items == old(session.items) - {AttemptKey, ProviderKey}
        && !socialLoading && currentProvider.None? && saved == old(saved)
      ensures MagicProvider.HasOAuth(ActiveInstance(ctx)) && !outcome.Threw? ==>
        && session.items == old(session.items)[AttemptKey := "true"][ProviderKey := Name(p)]
        && AttemptRecorded(session.items, p) && ButtonLoading(p)
        && saved == old(saved) + (if p == Telegram && outcome.Token? && outcome.token != ""
                                 then [SavedToken(outcome.token, Social)] else [])
      ensures email == old(email) && emailError == old(emailError) && emailLoginInProgress == old(emailLoginInProgress)
    {
      socialLoading := true;
      currentProvider := Some(p);
      var active := ActiveInstance(ctx);
      if !MagicProvider.HasOAuth(active) {
        return;
      }
      RecordAttempt(session, p);
      local.RemoveItem(MagicStateKey);
      calls := calls + [LoginCallFor(p, origin)];
      if outcome.Threw? {
        ClearAttempt(session);
        FlagsRoundTrip(old(session.items), p);
        socialLoading := false;
        currentProvider := None;
      } else if p == Telegram && outcome.Token? && outcome.token != "" {
        saved := saved + [SavedToken(outcome.token, Social)];
      }
    }
  }

  /** On the combined screen too, at most one social button spins in any
      state: the current provider's, while social loading is set. */
  lemma SpinnerNamesCurrentProvider(screen: LoginScreen, p: SocialProvider, q: SocialProvider)
    requires screen.ButtonLoading(p) && screen.ButtonLoading(q)
    ensures p == q && screen.socialLoading && screen.currentProvider == Some(p)
  {
  }

  /** With the provider's value as published (no `solanaMagic`), social login
      runs on whichever instance is active: after an API key is configured and
      the Ethereum network selected, the attempt starts on the Ethereum
      instance. */
  method SocialLoginUsesActiveInstance(apiKey: string, origin: string, session: Storage, local: Storage)
    returns (ctx: MagicProvider.ContextValue, screen: LoginScreen)
    requires apiKey != "" && session != local
    modifies session, local
    ensures ActiveInstance(ctx).Some? && ActiveInstance(ctx).value.chain == MagicProvider.EthereumChain
    ensures AttemptRecorded(session.items, Google) && screen.calls == [LoginCallFor(Google, origin)]
  {
    var provider := new MagicProvider.Provider(None);
    provider.InitInstances(Some(apiKey));
    provider.SwitchNetwork(NetworkRegistry.Id(NetworkRegistry.EthereumMainnet));
    provider.SelectActive();
    ctx := provider.PublishedValue();
    screen := new LoginScreen();
    screen.HandleSocialLogin(Google, ctx, origin, session, local, NoResult);
  }
}
