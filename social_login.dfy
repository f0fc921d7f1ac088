/** The stand-alone social login card of
    src/components/magic/auth/SocialLogin.tsx: Google, X (Twitter) and
    Telegram, all through a redirect back to the callback page. */
module SocialLogin {
  import opened Js
  import opened OAuthFlags
  import MagicProvider
  import MergedLogin

  /** The card's providers: its `SocialProvider` type has no GitHub. */
  predicate Offered(p: SocialProvider) {
    p != Github
  }

  /** The options passed to `loginWithRedirect`: the provider as given, the
      callback URL, and a scope for Google only. */
  function RedirectFor(p: SocialProvider, origin: string): (c: RedirectConfig)
    ensures c.provider == Name(p) && c.redirectUri == RedirectUri(origin)
    ensures c.scope.Some? <==> p == Google
    ensures c.scope.Some? ==> c.scope.value == MergedLogin.GoogleScope
  {
    RedirectConfig(Name(p), RedirectUri(origin), if p == Google then Some(MergedLogin.GoogleScope) else None)
  }

  /** The two login screens agree on every redirect provider, and differ only
      on Telegram: a redirect here, a popup on the combined screen. */
  lemma RoutingAgrees(p: SocialProvider, origin: string)
    requires Offered(p)
    ensures p != Telegram ==> MergedLogin.LoginCallFor(p, origin) == Redirect(RedirectFor(p, origin))
    ensures p == Telegram ==> MergedLogin.LoginCallFor(p, origin).Popup?
  {
  }

  class SocialLoginCard {
    var isLoading: bool
    var currentProvider: Option<SocialProvider>
    var calls: seq<LoginCall>

    constructor ()
      ensures !isLoading && currentProvider.None? && calls == []
    {
      isLoading, currentProvider, calls := false, None, [];
    }

    /** A button shows its spinner and is disabled. */
    predicate ButtonLoading(p: SocialProvider)
      reads this
    {
      isLoading && currentProvider == Some(p)
    }

    /** `handleSocialLogin`: without an OAuth-capable instance it returns before
        touching storage; otherwise it records the attempt and redirects; a
        throw clears both flags and the loading state. `threw` says whether
        `loginWithRedirect` threw. */
    method HandleSocialLogin(p: SocialProvider, ctx: MagicProvider.ContextValue, origin: string,
                             session: Storage, threw: bool)
      requires Offered(p)
      modifies this, session
      ensures !MagicProvider.HasOAuth(MergedLogin.ActiveInstance(ctx)) ==>
        session.items == old(session.items) && calls == old(calls) && ButtonLoading(p)
      ensures MagicProvider.HasOAuth(MergedLogin.ActiveInstance(ctx)) ==>
        calls == old(calls) + [Redirect(RedirectFor(p, origin))]
      ensures MagicProvider.HasOAuth(MergedLogin.ActiveInstance(ctx)) && threw ==>
        session.items == old(session.items) - {AttemptKey, ProviderKey} && !isLoading && currentProvider.None?
      ensures MagicProvider.HasOAuth(MergedLogin.ActiveInstance(ctx)) && !threw ==>
        session.items == old(session.items)[AttemptKey := "true"][ProviderKey := Name(p)]
        && AttemptRecorded(session.items, p) && ButtonLoading(p)
    {
      isLoading := true;
      currentProvider := Some(p);
      if !MagicProvider.HasOAuth(MergedLogin.ActiveInstance(ctx)) {
        return;
      }
      RecordAttempt(session, p);
      calls := calls + [Redirect(RedirectFor(p, origin))];
      if threw {
        ClearAttempt(session);
        FlagsRoundTrip(old(session.items), p);
        isLoading := false;
        currentProvider := None;
      }
    }
  }

  /** In every state at most one button spins: the one whose provider is
      current, while loading is set. */
  lemma SpinnerNamesCurrentProvider(card: SocialLoginCard, p: SocialProvider, q: SocialProvider)
    requires card.ButtonLoading(p) && card.ButtonLoading(q)
    ensures p == q && card.isLoading && card.currentProvider == Some(p)
  {
  }

  /** A Google redirect left pending, then a Twitter redirect that throws. With
      an OAuth-capable instance the throw stops every spinner; without one,
      both clicks return early with loading still set, so the Twitter button
      is left spinning. Telegram never spins. */
  method OneSpinnerAtATime(ctx: MagicProvider.ContextValue, origin: string, session: Storage)
    returns (card: SocialLoginCard)
    modifies session
    ensures MagicProvider.HasOAuth(MergedLogin.ActiveInstance(ctx)) ==>
      !card.isLoading && card.currentProvider.None?
      && !card.ButtonLoading(Google) && !card.ButtonLoading(Twitter) && !card.ButtonLoading(Telegram)
    ensures !MagicProvider.HasOAuth(MergedLogin.ActiveInstance(ctx)) ==>
      card.ButtonLoading(Twitter) && !card.ButtonLoading(Google) && !card.ButtonLoading(Telegram)
  {
    card := new SocialLoginCard();
    card.HandleSocialLogin(Google, ctx, origin, session, false);
    card.HandleSocialLogin(Twitter, ctx, origin, session, true);
  }
}
