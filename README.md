# Magic wallet client — a Dafny model

This project models the logic of a small web wallet built on the Magic SDK.
The wallet covers Solana, Ethereum, Bitcoin, Polygon and Base. The SDK, the
RPC endpoints and the browser are not modelled; what is modelled is the code
that decides things:

- **Network registry** (`network.dfy`). The nine networks, the URL and display-name
  lookups, the mapping from a token's network name to a network, and the
  block-explorer link builder with its two pattern tests.
- **Chain-family selector** (`magic_provider.dfy`). The three per-chain SDK
  instances, the family predicates, `switchNetwork`, the effect that picks the
  active instance and connection, and the context value the provider publishes.
- **Token list** (`token_balance.dfy`). The default table as shared heap
  objects, the address normaliser, the bulk and single-token balance refreshes,
  and their fallback strings.
- **Send form** (`send_transaction.dfy`). The EVM recipient pattern, the effect
  on the form fields, and the send handler's transitions.
- **Login screens** (`merged_login.dfy`, `social_login.dfy`). The e-mail
  validator, proved equal to a hand-written shape. Also the popup/redirect
  routing and the session-storage flags written before a social login.
- **OAuth callback** (`oauth.dfy`, `oauth_callback_page.dfy`,
  `oauth_callback_handler.dfy`). The bounded wait for the SDK and the
  `state`/`code` check of the authorization response (section 4.1.2 of
  RFC 6749). Also the outcome ladder, the error messages and the flag clean-up.
- **Theme** (`theme_context.dfy`). The initial theme, the toggle, and the
  effect that persists the theme and sets the 'dark' class.

Two supporting modules carry no source of their own:

- `js.dfy` gives JavaScript's optional values, string truthiness, ASCII case
  mapping, substring search and Web Storage.
- `regex.dfy` gives a regular-expression matcher (the anchored `RegExp.test`
  of the source's patterns), proved equal to the language each pattern
  denotes.

Each pattern in the source is transcribed as a `Re` value. Its language is
then proved equal to an independent description of the strings it accepts.

SDK and RPC results are parameters: which call threw, or what it returned.
Browser storage is a `Storage` object over a map from string to string.
React state is the fields of a class. An effect or handler is a method. A
timer is modelled by its eventual effect.

## Model

| member | source | states |
|---|---|---|
| NetworkRegistry.FromId | src/utils/network.ts:1-11 | the member a runtime string selects has that string as its value; no member has it when none is found |
| NetworkRegistry.IdRoundTrip | src/utils/network.ts:1-11 | the nine enum values are distinct, so reading a member's value back gives the member |
| NetworkRegistry.GetNetworkUrl | src/utils/network.ts:13-37 | a URL exactly when the active network is one of the nine, and that network's URL; 'Network not supported' otherwise |
| NetworkRegistry.GetNetworkName | src/utils/network.ts:39-63 | total: the label of a known network, 'Unknown Network' for anything else |
| NetworkRegistry.MemberLookup | src/utils/network.ts:13-63 | each of the nine members, passed by value, gets its own URL and label |
| NetworkRegistry.UrlThrowsIffNameUnknown | src/utils/network.ts:13-63 | the URL lookup throws exactly when the name lookup answers 'Unknown Network' |
| NetworkRegistry.KnownIdsAreTheNine | src/utils/network.ts:13-37 | an explicit non-empty argument is accepted iff it is the value of some member |
| NetworkRegistry.AbsentArgumentUsesConfigured | src/utils/network.ts:14-83 | with no argument, all three lookups behave as if given the configured network |
| NetworkRegistry.GetNetworkFromTokenNetwork | src/utils/network.ts:65-80 | always a mainnet member; any name other than the five chain names (in any case) gives Solana mainnet |
| NetworkRegistry.TokenNetworkIgnoresCase | src/utils/network.ts:66 | names equal up to letter case map to the same network |
| NetworkRegistry.TokenNetworkNamesTheChain | src/utils/network.ts:67-76 | each chain name maps to a member whose value starts with that name and a '-' |
| NetworkRegistry.TransactionHashShape | src/utils/network.ts:87 | the hash test accepts exactly 64 hex digits, optionally after '0x' |
| NetworkRegistry.SolanaSignatureShape | src/utils/network.ts:90 | the signature test accepts exactly 88 characters of the Base58 alphabet |
| NetworkRegistry.SignatureHasNoLookAlikes | src/utils/network.ts:90 | an accepted signature contains none of 0, O, I and l |
| NetworkRegistry.RecognisersDisjoint | src/utils/network.ts:87-90 | no string passes both tests |
| NetworkRegistry.Explorer | src/utils/network.ts:92-128 | each network's explorer has a transaction path and an address path that differ in their first character, and a suffix only on Solana devnet |
| NetworkRegistry.Link | src/utils/network.ts:92-128 | a known network's link is the fixed prefix for its kind, the input verbatim, and the network's suffix, which is '?cluster=devnet' on devnet and empty elsewhere (stated on `Explorer`) |
| NetworkRegistry.GetBlockExplorer | src/utils/network.ts:82-131 | '' exactly when the active network is unknown; otherwise the template link, with the kind chosen by the signature test on Solana and the hash test elsewhere |
| NetworkRegistry.TemplateRoundTrip | src/utils/network.ts:92-128 | a link built from a template parses back to its kind and its subject |
| NetworkRegistry.BlockExplorerRoundTrip | src/utils/network.ts:82-131 | on a known network the link determines the input and whether it was taken as a transaction: the signature test decides on Solana, the hash test elsewhere |
| Regex.MatchesCorrect | src/utils/network.ts:87-90 | the derivative matcher used for every pattern accepts exactly the strings in the pattern's language |
| MagicProvider.FamiliesByMember | src/components/magic/MagicProvider.tsx:50-60 | isEthereum, isSolana and isBitcoin each hold exactly for their two members |
| MagicProvider.FamiliesExclusive | src/components/magic/MagicProvider.tsx:50-60 | at most one family holds, and none holds for Polygon mainnet, Polygon Amoy or Base |
| MagicProvider.InitialNetwork | src/components/magic/MagicProvider.tsx:46-48 | the configured network when set, otherwise Solana mainnet |
| MagicProvider.DefaultContext | src/components/magic/MagicProvider.tsx:26-34 | outside a provider: no instance, no connection, and flags that agree with the default network |
| MagicProvider.Provider.constructor | src/components/magic/MagicProvider.tsx:40-48 | the first render holds no instance and no connection, on the initial network |
| MagicProvider.Provider.InitInstances | src/components/magic/MagicProvider.tsx:63-94 | with an API key, three instances with the OAuth extension, one per chain; without one, none |
| MagicProvider.Provider.SwitchNetwork | src/components/magic/MagicProvider.tsx:97-99 | the current network becomes the argument, unvalidated; nothing else changes |
| MagicProvider.Provider.SelectActive | src/components/magic/MagicProvider.tsx:102-115 | per family with an instance: that instance, plus a connection to the network's URL for Solana and none otherwise; when no branch applies, the active instance and connection are kept |
| MagicProvider.Provider.PublishedValue | src/components/magic/MagicProvider.tsx:117-127 | the published value carries the active instance, connection, flags and network, and no Solana instance |
| MagicProvider.Provider.CorrectedValue | src/components/magic/MagicProvider.tsx:117-127 | the published value with the Solana instance exposed |
| MagicProvider.SolanaInstanceNotPublished | src/components/magic/MagicProvider.tsx:63-127 | after initialisation with a key the provider holds an OAuth-capable Solana instance that consumers cannot see |
| MagicProvider.PolygonKeepsStaleSolanaState | src/components/magic/MagicProvider.tsx:97-115 | switching from Solana to Polygon keeps the Solana instance and Solana connection active with every family flag false |
| MagicProvider.NoKeyNoInstance | src/components/magic/MagicProvider.tsx:63-115 | without an API key no network switch ever yields an active instance or a connection |
| TokenBalance.NewDefaultTokens | src/components/magic/tokens/TokenBalance.tsx:22-104 | the four entries BTC, ETH, SOL, MAGAL, with their networks, decimals and addresses, as distinct objects with balance '0' |
| TokenBalance.DefaultSymbolsDistinct | src/components/magic/tokens/TokenBalance.tsx:22-104 | the default symbols are pairwise distinct |
| TokenBalance.FindBySymbol | src/components/magic/tokens/TokenBalance.tsx:252-255 | the index of the first entry with the symbol, or -1 when there is none |
| TokenBalance.DefaultIndex | src/components/magic/tokens/TokenBalance.tsx:252-255 | in the default table each symbol is found at its own position, and only there |
| TokenBalance.FormatEvmAddress | src/components/magic/tokens/TokenBalance.tsx:175-178 | a non-empty result starts with '0x'; a prefixed or empty input is unchanged; otherwise '0x' is prepended |
| TokenBalance.FormatEvmAddressIdempotent | src/components/magic/tokens/TokenBalance.tsx:175-178 | normalising twice equals normalising once, and the input is a suffix of the result |
| TokenBalance.RefreshFallbacks | src/components/magic/tokens/TokenBalance.tsx:262-333 | per token: a SOL failure gives 'Error', an ETH failure '0', a missing MAGAL account '0', another MAGAL failure 'Error', BTC '0'; no applicable branch leaves 'loading...' |
| TokenBalance.RefreshResultKinds | src/components/magic/tokens/TokenBalance.tsx:258-333 | a refresh writes a fetched display or one of the fallbacks, and 'loading...' exactly when no branch applied |
| TokenBalance.BitcoinAlwaysZero | src/components/magic/tokens/TokenBalance.tsx:203-314 | BTC ends at '0' on every path of both refreshes |
| TokenBalance.TokenBalanceView.constructor | src/components/magic/tokens/TokenBalance.tsx:108-109 | the view starts loading, over the default table |
| TokenBalance.TokenBalanceView.FetchSol | src/components/magic/tokens/TokenBalance.tsx:122-132 | only the SOL entry changes, to its bulk result |
| TokenBalance.TokenBalanceView.FetchMagal | src/components/magic/tokens/TokenBalance.tsx:134-164 | only the MAGAL entry changes, to its bulk result |
| TokenBalance.TokenBalanceView.FetchEth | src/components/magic/tokens/TokenBalance.tsx:168-200 | only the ETH entry changes; one balance request with the normalised address on Ethereum |
| TokenBalance.TokenBalanceView.FetchBtc | src/components/magic/tokens/TokenBalance.tsx:203-228 | only the BTC entry changes, to '0' |
| TokenBalance.TokenBalanceView.FetchTokenBalances | src/components/magic/tokens/TokenBalance.tsx:112-244 | no address: nothing changes; otherwise every entry gets its bulk result, in the shared default objects, and loading ends |
| TokenBalance.TokenBalanceView.BeginRefresh | src/components/magic/tokens/TokenBalance.tsx:247-259 | nothing changes without an address or a matching symbol; otherwise the matched entry, and only it, shows 'loading...' |
| TokenBalance.TokenBalanceView.RefreshTokenBalance | src/components/magic/tokens/TokenBalance.tsx:247-347 | nothing changes without an address or a matching symbol; otherwise only the matched entry changes, through 'loading...' to its refresh result |
| TokenBalance.TokenBalanceView.ApplyRefresh | src/components/magic/tokens/TokenBalance.tsx:258-333 | the matched entry receives the refresh result of its symbol |
| TokenBalance.SharedDefaults | src/components/magic/tokens/TokenBalance.tsx:119 | two views over the default table hold the same token objects, so a SOL balance fetched through one is the balance the other shows |
| TokenBalance.FormatNetworkName | src/components/magic/tokens/TokenBalance.tsx:446-453 | 'bsc' in any case gives 'Binance Smart Chain'; otherwise only the first character is upper-cased |
| TokenBalance.FormatNetworkNameIdempotent | src/components/magic/tokens/TokenBalance.tsx:446-453 | formatting a formatted name changes nothing |
| SendTransaction.EvmRecipientShape | src/components/magic/cards/SendTransactionCard.tsx:109 | a recipient is accepted iff it has length 42, starts with a lower-case '0x' and continues with hex digits |
| SendTransaction.NormalisedHexIsRecipient | src/components/magic/cards/SendTransactionCard.tsx:109 | forty hex digits normalised by the token list are accepted; an upper-case '0X' prefix never is |
| SendTransaction.SendForm.constructor | src/components/magic/cards/SendTransactionCard.tsx:17-24 | empty fields, no flags, disabled |
| SendTransaction.SendForm.FieldsChanged | src/components/magic/cards/SendTransactionCard.tsx:27-31 | disabled iff a field is empty, both error flags cleared; the button is disabled iff a field is empty |
| SendTransaction.SendForm.EditToAddress | src/components/magic/cards/SendTransactionCard.tsx:27-31 | typing a new recipient reruns the effect; the same value changes no flag |
| SendTransaction.SendForm.EditAmount | src/components/magic/cards/SendTransactionCard.tsx:27-31 | typing a new amount reruns the effect; the same value changes no flag |
| SendTransaction.SendForm.Reset | src/components/magic/cards/SendTransactionCard.tsx:142-150 | loading off, form enabled, both fields emptied |
| SendTransaction.SendForm.RejectRecipient | src/components/magic/cards/SendTransactionCard.tsx:109-113 | loading off, form enabled, recipient flagged, fields kept |
| SendTransaction.SendForm.Send | src/components/magic/cards/SendTransactionCard.tsx:53-154 | a non-numeric amount only sets the amount flag; a rejected recipient sends nothing; a missing blockhash leaves the form busy; every other path resets the form and submits iff a branch reached its SDK call; an Ethereum amount whose wei conversion throws resets the form without a request |
| SendTransaction.Submission | src/components/magic/cards/SendTransactionCard.tsx:62-140 | one transfer with the typed recipient and amount exactly when a branch reached its SDK call (on Ethereum, once the wei conversion has not thrown), on that branch's chain |
| SendTransaction.UnroutedSendResets | src/components/magic/cards/SendTransactionCard.tsx:62-180 | on a network neither branch serves, nothing is sent, the form is reset and the button ends disabled |
| SendTransaction.UpperCasePrefixRefused | src/components/magic/cards/SendTransactionCard.tsx:109-113 | an Ethereum send to '0X…' is flagged and sends nothing |
| SendTransaction.UnconvertibleAmountNotSent | src/components/magic/cards/SendTransactionCard.tsx:117-150 | a numeric amount whose wei conversion throws ('Infinity', '1e300') to a valid recipient clears the form and submits nothing |
| MergedLogin.EmailValidatorShape | src/components/magic/auth/MergedLogin.tsx:103 | an address is accepted iff it is a non-empty local part, one '@', and labels of letters, digits and '-' joined by single dots |
| MergedLogin.DomainLang | src/components/magic/auth/MergedLogin.tsx:103 | the domain pattern denotes exactly the dotted label sequences |
| MergedLogin.DotTailLang | src/components/magic/auth/MergedLogin.tsx:103 | the repeated group denotes exactly the strings made of '.' and a label, repeated |
| MergedLogin.DotLabelLang | src/components/magic/auth/MergedLogin.tsx:103 | the group denotes a dot followed by a non-empty label |
| MergedLogin.AtDomainLang | src/components/magic/auth/MergedLogin.tsx:103 | '@' followed by the domain pattern denotes '@' and a dotted domain |
| MergedLogin.EmailSound | src/components/magic/auth/MergedLogin.tsx:103 | every accepted address has the e-mail shape |
| MergedLogin.EmailComplete | src/components/magic/auth/MergedLogin.tsx:103 | every string of the e-mail shape is accepted |
| MergedLogin.ValidEmailHasOneAt | src/components/magic/auth/MergedLogin.tsx:103 | an accepted address contains exactly one '@' |
| MergedLogin.AcceptsHyphenOnlyDomain | src/components/magic/auth/MergedLogin.tsx:103 | 'a@-' is accepted: labels may start or end with '-' and need no dot |
| MergedLogin.RedirectProvidersSupported | src/components/magic/auth/MergedLogin.tsx:198-205 | every provider that reaches the support check is in the supported list |
| MergedLogin.ActiveInstance | src/components/magic/auth/MergedLogin.tsx:152 | the Solana instance when present, otherwise the active instance |
| MergedLogin.LoginCallFor | src/components/magic/auth/MergedLogin.tsx:177-221 | a popup exactly for Telegram; otherwise a redirect with the lower-cased provider to origin + '/oauth/callback', with scope ['email','profile'] only for Google |
| MergedLogin.LoginScreen.constructor | src/components/magic/auth/MergedLogin.tsx:93-100 | empty e-mail, no flags, no provider |
| MergedLogin.LoginScreen.EditEmail | src/components/magic/auth/MergedLogin.tsx:314-315 | typing sets the e-mail and clears its error |
| MergedLogin.LoginScreen.HandleEmailLogin | src/components/magic/auth/MergedLogin.tsx:102-135 | a rejected address only sets the error and makes no call; an accepted one asks for an OTP login and saves a truthy token as 'EMAIL' |
| MergedLogin.LoginScreen.HandleSocialLogin | src/components/magic/auth/MergedLogin.tsx:137-244 | no OAuth extension: no storage write and no call; otherwise both flags set, 'magic:state' removed, the routed call made; a throw removes both flags and resets loading and provider |
| MergedLogin.SpinnerNamesCurrentProvider | src/components/magic/auth/MergedLogin.tsx:338-353 | in every state two spinning social buttons are the same one: the current provider's, with social loading set |
| MergedLogin.SocialLoginUsesActiveInstance | src/components/magic/auth/MergedLogin.tsx:91-152 | with the value as published, an Ethereum-network social login runs on the Ethereum instance |
| SocialLogin.RedirectFor | src/components/magic/auth/SocialLogin.tsx:114-119 | the provider as given, the callback URL, and a scope exactly for Google |
| SocialLogin.RoutingAgrees | src/components/magic/auth/SocialLogin.tsx:114-119 | the card and the combined screen build the same redirect for every provider but Telegram, which the combined screen opens in a popup |
| SocialLogin.SocialLoginCard.constructor | src/components/magic/auth/SocialLogin.tsx:78-79 | not loading, no provider |
| SocialLogin.SocialLoginCard.HandleSocialLogin | src/components/magic/auth/SocialLogin.tsx:81-142 | no OAuth extension: no storage write; otherwise both flags are written before the redirect; a throw removes both and resets loading and provider |
| SocialLogin.SpinnerNamesCurrentProvider | src/components/magic/auth/SocialLogin.tsx:148-162 | in every state two spinning buttons are the same one: the current provider's, with loading set |
| SocialLogin.OneSpinnerAtATime | src/components/magic/auth/SocialLogin.tsx:81-162 | after a pending Google redirect and a Twitter redirect that throws, no button spins when the OAuth extension is there; without it the Twitter button alone is left spinning |
| OAuthFlags.Name | src/components/magic/auth/MergedLogin.tsx:18 | each provider's value is non-empty and already lower case |
| OAuthFlags.NameInjective | src/components/magic/auth/MergedLogin.tsx:18 | the provider flag identifies the provider |
| OAuthFlags.RedirectUri | src/components/magic/auth/MergedLogin.tsx:210 | the origin followed by '/oauth/callback' |
| OAuthFlags.FlagsRoundTrip | src/components/magic/auth/MergedLogin.tsx:166-243 | writing both flags records the attempt; removing both clears it and restores every other entry |
| OAuthFlags.RecordAttempt | src/components/magic/auth/SocialLogin.tsx:110-111 | attempt 'true' and provider name written, nothing else touched |
| OAuthFlags.ClearAttempt | src/pages/oauth/callback.tsx:234-235 | both flags removed, nothing else touched |
| OAuthCallbackPage.Ladder | src/pages/oauth/callback.tsx:80-182 | a missing 'state' or 'code' fails first; sign-in exactly when both are present and the result carries a truthy token, and with that token |
| OAuthCallbackPage.CatchMessage | src/pages/oauth/callback.tsx:156-182 | an RPC error's message starts with 'Magic authentication error: '; any other throw's with 'Authentication error: ' |
| OAuthCallbackPage.MessageDetermines | src/pages/oauth/callback.tsx:80-182 | the first characters of a failure message spell out which rung failed |
| OAuthCallbackPage.MessageIdentifiesCause | src/pages/oauth/callback.tsx:80-182 | two failures with the same message failed for the same reason |
| OAuthCallbackPage.RetryMessage | src/pages/oauth/callback.tsx:256-262 | no token gives 'Still no result…'; a throw gives 'Retry failed: ' and its message |
| OAuthCallbackPage.CallbackPage.constructor | src/pages/oauth/callback.tsx:11-12 | processing, no error, no call, no navigation |
| OAuthCallbackPage.CallbackPage.Heading | src/pages/oauth/callback.tsx:205 | 'Processing Login...' while processing; afterwards 'Login Error' iff an error is set, and 'Login Successful' otherwise |
| OAuthCallbackPage.CallbackPage.ProcessRedirect | src/pages/oauth/callback.tsx:51-192 | the SDK is asked only when both parameters are present; a token is stored with loginType 'SOCIAL' and navigates with no error; a failure sets the ladder's message; processing ends |
| OAuthCallbackPage.CallbackPage.RunEffect | src/pages/oauth/callback.tsx:21-46 | at most ten attempts; without the OAuth extension exactly ten and 'Magic SDK failed to load…', with nothing asked or stored; with it, one pass through the try block |
| OAuthCallbackPage.CallbackPage.ReturnToLogin | src/pages/oauth/callback.tsx:232-237 | both flags removed before navigating |
| OAuthCallbackPage.CallbackPage.Retry | src/pages/oauth/callback.tsx:242-267 | a token is stored and navigates with processing still on; anything else sets the retry message and ends processing |
| OAuthCallbackPage.PublishedContextNeverSignsIn | src/pages/oauth/callback.tsx:10-46 | with the published value, a complete redirect response waits out all ten attempts, never asks the SDK and shows the load failure |
| OAuthCallbackPage.CorrectedContextSignsIn | src/pages/oauth/callback.tsx:33-136 | with the Solana instance published, the same response signs in on the first attempt |
| OAuthCallbackHandler.LikelyCallbackIff | src/components/magic/OAuthCallbackHandler.tsx:64-68 | a likely callback iff 'state=', 'code=' or 'magic_credential' occurs in the URL, or the attempt flag is 'true' |
| OAuthCallbackHandler.FailureMessage | src/components/magic/OAuthCallbackHandler.tsx:72-75 | 'Authentication error: ' and the error's message, or 'Unknown error' for a thrown non-Error |
| OAuthCallbackHandler.CallbackHandler.constructor | src/components/magic/OAuthCallbackHandler.tsx:12 | not processing, nothing saved, no toast |
| OAuthCallbackHandler.CallbackHandler.ReportError | src/components/magic/OAuthCallbackHandler.tsx:59-79 | the error toast is shown iff the page is a likely callback |
| OAuthCallbackHandler.CallbackHandler.CheckForOAuthResult | src/components/magic/OAuthCallbackHandler.tsx:15-87 | no OAuth extension: nothing written; otherwise a truthy token is saved as 'SOCIAL', a throw toasts iff likely a callback, processing ends and only the attempt flag is removed |
| OAuthCallbackHandler.ProviderFlagOutlivesAttempt | src/components/magic/OAuthCallbackHandler.tsx:83-85 | after the handler the attempt flag is gone and the provider flag still names the provider |
| OAuthCallbackHandler.FlagDecidesLaterToasts | src/components/magic/OAuthCallbackHandler.tsx:64-86 | a recorded attempt makes a failure toast on a plain URL; once the flag is removed, the next failure there is silent |
| OAuthCallbackHandler.PublishedHandlerIdle | src/components/magic/OAuthCallbackHandler.tsx:11-20 | with the published value the handler stops at its guard: nothing saved, no toast, the attempt stays recorded |
| ThemeContext.InitialTheme | src/contexts/ThemeContext.tsx:15-24 | a non-empty stored value when storage is available, otherwise 'dark'; never empty |
| ThemeContext.Toggle | src/contexts/ThemeContext.tsx:41-43 | always 'light' or 'dark', and 'dark' exactly from 'light' |
| ThemeContext.ToggleTwice | src/contexts/ThemeContext.tsx:41-43 | toggling twice restores 'light' and 'dark'; any other value ends at 'dark' |
| ThemeContext.UseTheme | src/contexts/ThemeContext.tsx:52-58 | the provider's value inside a provider; outside, the error 'useTheme must be used within a ThemeProvider' |
| ThemeContext.ThemeProvider.constructor | src/contexts/ThemeContext.tsx:15-24 | the first render holds the initial theme |
| ThemeContext.ThemeProvider.IsDark | src/contexts/ThemeContext.tsx:46 | isDark iff the theme is 'dark' |
| ThemeContext.ThemeProvider.Value | src/contexts/ThemeContext.tsx:46 | the context value carries the theme and whether it is 'dark' |
| ThemeContext.ThemeProvider.Effect | src/contexts/ThemeContext.tsx:27-38 | stored 'theme' equals the theme when storage is available, nothing stored otherwise; the 'dark' class is present iff the theme is 'dark' |
| ThemeContext.ThemeProvider.ToggleTheme | src/contexts/ThemeContext.tsx:27-43 | the theme is toggled and the effect re-establishes storage and class |
| ThemeContext.Mount | src/contexts/ThemeContext.tsx:18-38 | mounting starts from the initial theme with storage and class in step |
| ThemeContext.ThemeSurvivesReload | src/contexts/ThemeContext.tsx:18-43 | a toggled theme is the theme of the next mount; the toggle gives 'dark' exactly when 'light' was stored |
| Js.ContainsIff | src/components/magic/OAuthCallbackHandler.tsx:65-67 | `includes` holds iff the needle occurs at some index |
| Js.Storage.GetItem | src/pages/oauth/callback.tsx:67 | null exactly for an absent key, the stored value otherwise |
| Js.Storage.SetItem | src/pages/oauth/callback.tsx:122-123 | the key maps to the value; every other entry is kept |
| Js.Storage.RemoveItem | src/pages/oauth/callback.tsx:234-235 | the key is absent; every other entry is kept |

## Left out

- SDK and RPC calls (Magic login calls, `getInfo`, `getRedirectResult`, `@solana/web3.js` and SPL token calls, `eth_getBalance`, `eth_sendTransaction`) are foreign code. Their results are parameters: which call threw, or what it returned.
- Balances are display strings supplied as inputs. Floating-point conversion and formatting (`toFixed`, `toLocaleString`, `formatBalance`, lamport and wei arithmetic) are not modelled.
- `isNaN(Number(amount))` is the parameter `amountIsNumeric` of `SendTransaction.SendForm.Send`.
- The Solana on-curve check is part of the outcome parameter (`OffCurve`).
- Timers are not modelled. The 100, 500, 1000 and 2000 ms delays are not modelled. A scheduled navigation or flag removal is modelled as done. The retries of the callback page are modelled as consecutive loop iterations over a fixed SDK state.
- Console logging is not modelled, including the -32600 diagnostic branch of the callback page, which only logs. Success toasts are not modelled except in the callback handler, where whether a toast appears is part of the promise.
- `saveToken` from `utils/common` is not part of this model. Its calls are recorded as `SavedToken` values.
- Case mapping (`toLowerCase`, `toUpperCase`) is ASCII-only. Other Unicode letters are left unchanged.
- The gradient and colour lookups of the token list are presentation only.
- The `switchNetwork` callback in the context value is not a field of `ContextValue`. It is modelled as `MagicProvider.Provider.SwitchNetwork`.
- React re-render timing and stale closures are not modelled. Each handler sees the state current when it runs. The intermediate 'loading...' render of a single-token refresh is the state `BeginRefresh` leaves; the model does not separate the render it triggers from the later write.
- Pages and components that only render or delegate to the SDK are not modelled.
- MergedLogin.LoginScreen.HandleSocialLogin: when there is no OAuth extension, the source returns without resetting its loading state. The model keeps that: the spinner stays on. The error toast it shows is not modelled.
- OAuthCallbackHandler.CallbackHandler.CheckForOAuthResult: the engine's message for reading `idToken` of a missing `magic` part is the parameter `typeError`, not a fixed string.
- OAuthCallbackPage.CallbackPage.RunEffect: the instance is fixed for the whole run. An instance that appears between attempts would restart the effect through its dependency list, and that restart is not modelled.

## Findings

| source | as written | input that shows it | evidently intended | confidence | as-written member | corrected member |
|---|---|---|---|---|---|---|
| src/components/magic/MagicProvider.tsx:117-127 | the published context value has no `solanaMagic`, so the callback page reads it as undefined and never reaches `getRedirectResult` | an API key 'k', a callback URL with `state` and `code`, and an SDK result carrying token 't' | the Solana instance is published, so the callback signs in and stores 't' with loginType 'SOCIAL' | not executed | OAuthCallbackPage.PublishedContextNeverSignsIn | OAuthCallbackPage.CorrectedContextSignsIn |
