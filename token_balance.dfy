/** The token list of src/components/magic/tokens/TokenBalance.tsx: the default
    token table, the lookup by symbol, the EVM address normaliser, the bulk and
    single-token refreshes with their fallback strings, and `formatNetworkName`.
    Balances come from SDK and RPC calls that are not modelled; each call is an
    `Outcome` parameter carrying the display string the code would have
    produced, or the fact that it threw. */
module TokenBalance {
  import opened Js

  const Loading := "loading..."
  const ErrorText := "Error"
  const Zero := "0"
  const MagalMint := "A2ZbCHUEiHgSwFJ9EqgdYrFF255RQpAZP2xEC62fpump"

  /** A token entry: every field is fixed except `balance`, which the refreshes
      overwrite in place. */
  class Token {
    const symbol: string
    const name: string
    const logo: Option<string>
    var balance: string
    const decimals: nat
    const network: string
    const address: Option<string>

    constructor (symbol: string, name: string, logo: Option<string>, balance: string,
                 decimals: nat, network: string, address: Option<string>)
      ensures this.symbol == symbol && this.name == name && this.logo == logo
      ensures this.balance == balance && this.decimals == decimals
      ensures this.network == network && this.address == address
    {
      this.symbol, this.name, this.logo := symbol, name, logo;
      this.balance, this.decimals := balance, decimals;
      this.network, this.address := network, address;
    }
  }

  /** The shape of `DEFAULT_TOKENS`: BTC, ETH, SOL and MAGAL, four distinct
      objects, and only MAGAL with a mint address. */
  predicate DefaultTable(ts: seq<Token>) {
    && |ts| == 4
    && ts[0].symbol == "BTC" && ts[0].network == "bitcoin" && ts[0].decimals == 8 && ts[0].address.None?
    && ts[1].symbol == "ETH" && ts[1].network == "ethereum" && ts[1].decimals == 18 && ts[1].address.None?
    && ts[2].symbol == "SOL" && ts[2].network == "solana" && ts[2].decimals == 9 && ts[2].address.None?
    && ts[3].symbol == "MAGAL" && ts[3].network == "solana" && ts[3].decimals == 9
    && ts[3].address == Some(MagalMint)
    && ts[0] != ts[1] && ts[0] != ts[2] && ts[0] != ts[3] && ts[1] != ts[2] && ts[1] != ts[3] && ts[2] != ts[3]
  }

  /** The default table has four distinct symbols, so a lookup by symbol finds
      at most one entry. */
  lemma DefaultSymbolsDistinct(ts: seq<Token>)
    requires DefaultTable(ts)
    ensures forall i, j :: 0 <= i < j < |ts| ==> ts[i].symbol != ts[j].symbol
  {
    forall i, j | 0 <= i < j < |ts|
      ensures ts[i].symbol != ts[j].symbol
    {
      assert ts[i].symbol[0] != ts[j].symbol[0] || |ts[i].symbol| != |ts[j].symbol|;
    }
  }

  /** `DEFAULT_TOKENS`, allocated once; every balance starts at '0'. */
  method NewDefaultTokens() returns (ts: seq<Token>)
    ensures DefaultTable(ts)
    ensures forall i :: 0 <= i < |ts| ==> ts[i].balance == Zero && fresh(ts[i])
  {
    var btc := new Token("BTC", "Bitcoin", Some("/assets/bitcoin.png"), Zero, 8, "bitcoin", None);
    var eth := new Token("ETH", "Ethereum", Some("/assets/ethereum.png"), Zero, 18, "ethereum", None);
    var sol := new Token("SOL", "Solana", Some("/assets/solana.png"), Zero, 9, "solana", None);
    var magal := new Token("MAGAL", "Magal", Some("/assets/magal.jpg"), Zero, 9, "solana", Some(MagalMint));
    ts := [btc, eth, sol, magal];
  }

  /** `Array.prototype.find` by symbol: the index of the first entry with the
      symbol, or -1 when there is none. */
  method FindBySymbol(ts: seq<Token>, symbol: string) returns (i: int)
    ensures -1 <= i < |ts|
    ensures i >= 0 ==> ts[i].symbol == symbol
    ensures i >= 0 ==> forall j :: 0 <= j < i ==> ts[j].symbol != symbol
    ensures i == -1 ==> forall j :: 0 <= j < |ts| ==> ts[j].symbol != symbol
  {
    i := 0;
    while i < |ts|
      invariant 0 <= i <= |ts|
      invariant forall j :: 0 <= j < i ==> ts[j].symbol != symbol
    {
      if ts[i].symbol == symbol {
        return;
      }
      i := i + 1;
    }
    i := -1;
  }

  /** In the default table each symbol is found at its own position. */
  lemma DefaultIndex(ts: seq<Token>, symbol: string, i: int)
    requires DefaultTable(ts)
    requires -1 <= i < |ts|
    requires i >= 0 ==> ts[i].symbol == symbol
    requires i == -1 ==> forall j :: 0 <= j < |ts| ==> ts[j].symbol != symbol
    ensures symbol == "BTC" <==> i == 0
    ensures symbol == "ETH" <==> i == 1
    ensures symbol == "SOL" <==> i == 2
    ensures symbol == "MAGAL" <==> i == 3
  {
    DefaultSymbolsDistinct(ts);
    if i == -1 {
      assert ts[0].symbol != symbol && ts[1].symbol != symbol && ts[2].symbol != symbol && ts[3].symbol != symbol;
    }
  }

  // ---- The EVM address normaliser ----

  /** `publicAddress` prefixed with '0x' when it is non-empty and lacks it. */
  function FormatEvmAddress(publicAddress: string): (r: string)
    ensures publicAddress != "" ==> StartsWith(r, "0x")
    ensures StartsWith(publicAddress, "0x") || publicAddress == "" ==> r == publicAddress
    ensures r == publicAddress || r == "0x" + publicAddress
  {
    if publicAddress != "" && !StartsWith(publicAddress, "0x") then "0x" + publicAddress else publicAddress
  }

  /** Normalising twice is normalising once, and the input is always the tail of
      the result. */
  lemma FormatEvmAddressIdempotent(publicAddress: string)
    ensures FormatEvmAddress(FormatEvmAddress(publicAddress)) == FormatEvmAddress(publicAddress)
    ensures EndsWith(FormatEvmAddress(publicAddress), publicAddress)
  {
    var r := FormatEvmAddress(publicAddress);
    if r != publicAddress {
      assert r[..2] == "0x";
      assert r[|r| - |publicAddress|..] == publicAddress;
    }
  }

  // ---- Balance outcomes ----

  /** What an SDK or RPC call gave: the display string the code computes from its
      answer (floating conversion not modelled), or a thrown error. */
  datatype Outcome = Value(display: string) | Threw

  /** The MAGAL lookup, by the first call that throws: `new PublicKey` of the
      mint or wallet, `getAssociatedTokenAddress`, or `getAccount` (no token
      account); or the balance it yields. */
  datatype MagalOutcome =
    | KeyInvalid
    | AddressLookupFailed
    | NoTokenAccount
    | MagalBalance(display: string)

  /** What the component reads from the provider: a Solana connection, an active
      instance with an RPC provider, and the two family flags. */
  datatype ChainState = ChainState(hasConnection: bool, magicReady: bool, isEthereum: bool, isBitcoin: bool)

  datatype Outcomes = Outcomes(sol: Outcome, eth: Outcome, magal: MagalOutcome)

  /** The balance the bulk fetch leaves in the entry with `symbol` (the code
      looks each of the four symbols up in turn); `current` when no branch writes. */
  function BulkBalance(symbol: string, hasAddress: bool, current: string, c: ChainState, o: Outcomes): string {
    if symbol == "SOL" then
      (if c.hasConnection && o.sol.Value? then o.sol.display else current)
    else if symbol == "MAGAL" then
      (if c.hasConnection && hasAddress then
         match o.magal
         case KeyInvalid => current
         case AddressLookupFailed => Zero
         case NoTokenAccount => Zero
         case MagalBalance(d) => d
       else current)
    else if symbol == "ETH" then
      (if c.magicReady && c.isEthereum then (if o.eth.Value? then o.eth.display else Zero) else current)
    else if symbol == "BTC" then Zero
    else current
  }

  /** The balance a single refresh leaves in the entry it refreshed. */
  function RefreshedBalance(symbol: string, hasAddress: bool, c: ChainState, o: Outcomes): string {
    if symbol == "SOL" && c.hasConnection then
      (if o.sol.Value? then o.sol.display else ErrorText)
    else if symbol == "ETH" && c.magicReady && c.isEthereum then
      (if o.eth.Value? then o.eth.display else Zero)
    else if symbol == "BTC" then Zero
    else if symbol == "MAGAL" && c.hasConnection && hasAddress then
      match o.magal
      case KeyInvalid => ErrorText
      case AddressLookupFailed => ErrorText
      case NoTokenAccount => Zero
      case MagalBalance(d) => d
    else Loading
  }

  /** The fallback strings of a single refresh, token by token; a refresh whose
      branch does not apply leaves the entry at 'loading...'. */
  lemma RefreshFallbacks(symbol: string, hasAddress: bool, c: ChainState, o: Outcomes)
    ensures symbol == "BTC" ==> RefreshedBalance(symbol, hasAddress, c, o) == Zero
    ensures symbol == "SOL" && c.hasConnection && o.sol.Threw? ==> RefreshedBalance(symbol, hasAddress, c, o) == ErrorText
    ensures symbol == "ETH" && c.magicReady && c.isEthereum && o.eth.Threw? ==>
      RefreshedBalance(symbol, hasAddress, c, o) == Zero
    ensures symbol == "MAGAL" && c.hasConnection && hasAddress && o.magal.NoTokenAccount? ==>
      RefreshedBalance(symbol, hasAddress, c, o) == Zero
    ensures symbol == "MAGAL" && c.hasConnection && hasAddress && (o.magal.KeyInvalid? || o.magal.AddressLookupFailed?) ==>
      RefreshedBalance(symbol, hasAddress, c, o) == ErrorText
    ensures symbol == "ETH" && !(c.magicReady && c.isEthereum) ==> RefreshedBalance(symbol, hasAddress, c, o) == Loading
    ensures symbol !in {"SOL", "ETH", "BTC", "MAGAL"} ==> RefreshedBalance(symbol, hasAddress, c, o) == Loading
  {
  }

  /** No fetched display string is the placeholder itself. */
  predicate NoPlaceholderDisplay(o: Outcomes) {
    !(o.sol.Value? && o.sol.display == Loading) && !(o.eth.Value? && o.eth.display == Loading)
    && !(o.magal.MagalBalance? && o.magal.display == Loading)
  }

  /** The value a refresh writes is a fetched display string or one of the
      fallbacks, and it is 'loading...' exactly when no branch applied. */
  lemma RefreshResultKinds(symbol: string, hasAddress: bool, c: ChainState, o: Outcomes)
    ensures var r := RefreshedBalance(symbol, hasAddress, c, o);
      r in {Zero, ErrorText, Loading} || (o.sol.Value? && r == o.sol.display)
      || (o.eth.Value? && r == o.eth.display) || (o.magal.MagalBalance? && r == o.magal.display)
    ensures NoPlaceholderDisplay(o) ==>
      (RefreshedBalance(symbol, hasAddress, c, o) == Loading <==>
         !(symbol == "SOL" && c.hasConnection) && !(symbol == "ETH" && c.magicReady && c.isEthereum)
         && symbol != "BTC" && !(symbol == "MAGAL" && c.hasConnection && hasAddress))
  {
  }

  /** BTC ends at '0' on every path of both refreshes, and the two refreshes
      disagree on a failed SOL call: the bulk fetch keeps the old value, the
      single refresh writes 'Error'. */
  lemma BitcoinAlwaysZero(hasAddress: bool, current: string, c: ChainState, o: Outcomes)
    ensures BulkBalance("BTC", hasAddress, current, c, o) == Zero
    ensures RefreshedBalance("BTC", hasAddress, c, o) == Zero
    ensures c.hasConnection && o.sol.Threw? ==>
      BulkBalance("SOL", hasAddress, current, c, o) == current && RefreshedBalance("SOL", hasAddress, c, o) == ErrorText
  {
  }

  /** The component's state: the token list and the loading flag. `defaults` is
      the module-level `DEFAULT_TOKENS` array it was mounted with. */
  class TokenBalanceView {
    const defaults: seq<Token>
    var tokens: seq<Token>
    var isLoading: bool
    /** Balance requests sent to the RPC provider: the addresses passed to eth_getBalance. */
    var ethRequests: seq<string>

    /** Both copies in the code (`[...DEFAULT_TOKENS]`, `[...tokens]`) are shallow, so
        the list always holds the very objects of the default table. */
    predicate Valid()
      reads this
    {
      DefaultTable(defaults) && tokens == defaults
    }

    constructor (defaults: seq<Token>)
      requires DefaultTable(defaults)
      ensures Valid() && this.defaults == defaults && isLoading && ethRequests == []
    {
      this.defaults := defaults;
      tokens := defaults;
      isLoading := true;
      ethRequests := [];
    }

    /** The SOL step of the bulk fetch (the `connection` branch's first call). */
    method FetchSol(c: ChainState, o: Outcomes)
      requires Valid()
      modifies defaults[2]
      ensures defaults[2].balance == BulkBalance("SOL", false, old(defaults[2].balance), c, o)
    {
      if c.hasConnection {
        var s := FindBySymbol(defaults, "SOL");
        DefaultIndex(defaults, "SOL", s);
        if s >= 0 && o.sol.Value? {
          defaults[s].balance := o.sol.display;
        }
      }
    }

    /** The MAGAL step of the bulk fetch: the outcome of the first SPL call that
        throws decides the entry. */
    method FetchMagal(c: ChainState, o: Outcomes)
      requires Valid()
      modifies defaults[3]
      ensures defaults[3].balance == BulkBalance("MAGAL", true, old(defaults[3].balance), c, o)
    {
      if c.hasConnection {
        var m := FindBySymbol(defaults, "MAGAL");
        DefaultIndex(defaults, "MAGAL", m);
        if m >= 0 && Truthy(defaults[m].address) {
          match o.magal
          case KeyInvalid =>
          case AddressLookupFailed => defaults[m].balance := Zero;
          case NoTokenAccount => defaults[m].balance := Zero;
          case MagalBalance(d) => defaults[m].balance := d;
        }
      }
    }

    /** The ETH step of the bulk fetch: one eth_getBalance request for the
        normalised address, and '0' when it fails. */
    method FetchEth(publicAddress: string, c: ChainState, o: Outcomes)
      requires Valid()
      modifies this, defaults[1]
      ensures Valid() && isLoading == old(isLoading)
      ensures defaults[1].balance == BulkBalance("ETH", false, old(defaults[1].balance), c, o)
      ensures ethRequests == old(ethRequests) + (if c.magicReady && c.isEthereum then [FormatEvmAddress(publicAddress)] else [])
    {
      if c.magicReady && c.isEthereum {
        ethRequests := ethRequests + [FormatEvmAddress(publicAddress)];
        var e := FindBySymbol(defaults, "ETH");
        DefaultIndex(defaults, "ETH", e);
        if e >= 0 {
          defaults[e].balance := if o.eth.Value? then o.eth.display else Zero;
        }
      }
    }

    /** The BTC step of the bulk fetch: every branch writes the placeholder '0'. */
    method FetchBtc(c: ChainState, o: Outcomes)
      requires Valid()
      modifies defaults[0]
      ensures defaults[0].balance == BulkBalance("BTC", false, old(defaults[0].balance), c, o)
    {
      var b := FindBySymbol(defaults, "BTC");
      DefaultIndex(defaults, "BTC", b);
      if b >= 0 {
        defaults[b].balance := Zero;
      }
    }

    /** `fetchTokenBalances`: nothing without a public address; otherwise each of
        the four entries gets `BulkBalance` and loading ends. The copy is shallow,
        so the writes land in the default table's own objects. */
    method FetchTokenBalances(publicAddress: Option<string>, c: ChainState, o: Outcomes)
      requires Valid()
      modifies this, defaults[0], defaults[1], defaults[2], defaults[3]
      ensures Valid()
      ensures !Truthy(publicAddress) ==>
        isLoading == old(isLoading) && ethRequests == old(ethRequests)
        && forall i :: 0 <= i < 4 ==> defaults[i].balance == old(defaults[i].balance)
      ensures Truthy(publicAddress) ==>
        && !isLoading
        && (forall i :: 0 <= i < 4 ==>
              defaults[i].balance == BulkBalance(defaults[i].symbol, Truthy(defaults[i].address),
                                                 old(defaults[i].balance), c, o))
        && ethRequests == old(ethRequests) + (if c.magicReady && c.isEthereum then [FormatEvmAddress(publicAddress.value)] else [])
    {
      if !Truthy(publicAddress) {
        return;
      }
      isLoading := true;
      FetchSol(c, o);
      FetchMagal(c, o);
      FetchEth(publicAddress.value, c, o);
      FetchBtc(c, o);
      tokens := defaults;
      isLoading := false;
    }

    /** The first step of `refreshTokenBalance`: nothing without a public
        address or a matching entry; otherwise the matched entry of the shallow
        copy is set to 'loading...' and the copy becomes the list. */
    method BeginRefresh(token: Token, publicAddress: Option<string>) returns (refreshed: int)
      requires Valid()
      modifies this, defaults[0], defaults[1], defaults[2], defaults[3]
      ensures Valid() && isLoading == old(isLoading) && ethRequests == old(ethRequests)
      ensures -1 <= refreshed < 4
      ensures refreshed == -1 <==> !Truthy(publicAddress) || forall i :: 0 <= i < 4 ==> defaults[i].symbol != token.symbol
      ensures refreshed >= 0 ==> defaults[refreshed].symbol == token.symbol && defaults[refreshed].balance == Loading
      ensures forall i :: 0 <= i < 4 && i != refreshed ==> defaults[i].balance == old(defaults[i].balance)
    {
      refreshed := -1;
      if !Truthy(publicAddress) {
        return;
      }
      var updated := tokens;
      var i := FindBySymbol(updated, token.symbol);
      if i < 0 {
        return;
      }
      refreshed := i;
      updated[i].balance := Loading;
      tokens := updated;
    }

    /** `refreshTokenBalance` for the entry `token` names by its symbol: nothing
        without a public address or a matching entry; otherwise only that entry
        changes, through 'loading...' (`BeginRefresh`) to `RefreshedBalance`. */
    method RefreshTokenBalance(token: Token, publicAddress: Option<string>, c: ChainState, o: Outcomes)
      returns (refreshed: int)
      requires Valid()
      modifies this, defaults[0], defaults[1], defaults[2], defaults[3]
      ensures Valid() && isLoading == old(isLoading)
      ensures -1 <= refreshed < 4
      ensures refreshed == -1 <==> !Truthy(publicAddress) || forall i :: 0 <= i < 4 ==> defaults[i].symbol != token.symbol
      ensures refreshed >= 0 ==>
        defaults[refreshed].symbol == token.symbol
        && defaults[refreshed].balance == RefreshedBalance(token.symbol, Truthy(token.address), c, o)
      ensures forall i :: 0 <= i < 4 && i != refreshed ==> defaults[i].balance == old(defaults[i].balance)
      ensures ethRequests == old(ethRequests) + (if refreshed >= 0 && token.symbol == "ETH" && c.magicReady && c.isEthereum
                                                 then [FormatEvmAddress(publicAddress.value)] else [])
    {
      refreshed := BeginRefresh(token, publicAddress);
      if refreshed >= 0 {
        ApplyRefresh(defaults[refreshed], token, publicAddress.value, c, o);
        tokens := defaults;
      }
    }

    /** The branch ladder of a single refresh, writing into the matched entry `t`;
        the branch is chosen by the argument token's symbol and address. */
    method ApplyRefresh(t: Token, token: Token, publicAddress: string, c: ChainState, o: Outcomes)
      requires Valid() && t.balance == Loading
      modifies this, t
      ensures Valid() && isLoading == old(isLoading)
      ensures t.balance == RefreshedBalance(token.symbol, Truthy(token.address), c, o)
      ensures ethRequests == old(ethRequests) + (if token.symbol == "ETH" && c.magicReady && c.isEthereum
                                                 then [FormatEvmAddress(publicAddress)] else [])
    {
      if token.symbol == "SOL" && c.hasConnection {
        t.balance := if o.sol.Value? then o.sol.display else ErrorText;
      } else if token.symbol == "ETH" && c.magicReady && c.isEthereum {
        ethRequests := ethRequests + [FormatEvmAddress(publicAddress)];
        t.balance := if o.eth.Value? then o.eth.display else Zero;
      } else if token.symbol == "BTC" {
        t.balance := Zero;
      } else if token.symbol == "MAGAL" && c.hasConnection && Truthy(token.address) {
        match o.magal
        case KeyInvalid => t.balance := ErrorText;
        case AddressLookupFailed => t.balance := ErrorText;
        case NoTokenAccount => t.balance := Zero;
        case MagalBalance(d) => t.balance := d;
      }
    }
  }

  /** Two components mounted with the same table share its objects: a SOL
      refresh through the first is what the second shows. */
  method SharedDefaults(c: ChainState, o: Outcomes, d: string) returns (first: TokenBalanceView, second: TokenBalanceView)
    requires c.hasConnection && o.sol == Value(d)
    ensures first.Valid() && second.Valid() && first.tokens == second.tokens
    ensures second.tokens[2].symbol == "SOL" && second.tokens[2].balance == d
  {
    var table := NewDefaultTokens();
    first := new TokenBalanceView(table);
    second := new TokenBalanceView(table);
    var _ := first.RefreshTokenBalance(table[2], Some("wallet"), c, o);
  }

  // ---- formatNetworkName ----

  /** `formatNetworkName`: 'bsc' in any letter case becomes 'Binance Smart
      Chain'; any other name has its first character upper-cased. */
  function FormatNetworkName(network: string): (r: string)
    ensures ToLower(network) == "bsc" ==> r == "Binance Smart Chain"
    ensures ToLower(network) != "bsc" ==>
      |r| == |network| && (network != "" ==> r[0] == UpperChar(network[0]) && r[1..] == network[1..])
  {
    if ToLower(network) == "bsc" then "Binance Smart Chain"
    else if network == "" then ""
    else [UpperChar(network[0])] + network[1..]
  }

  /** Formatting a formatted name changes nothing. */
  lemma FormatNetworkNameIdempotent(network: string)
    ensures FormatNetworkName(FormatNetworkName(network)) == FormatNetworkName(network)
  {
    var r := FormatNetworkName(network);
    if ToLower(network) == "bsc" {
      assert ToLower(r)[0] == 'b' && |ToLower(r)| != 3;
      assert r == [UpperChar(r[0])] + r[1..];
    } else if network != "" {
      assert LowerChar(UpperChar(network[0])) == LowerChar(network[0]);
      assert ToLower(r) == ToLower(network);
      assert UpperChar(UpperChar(network[0])) == UpperChar(network[0]);
    }
  }
}
