/** The network registry of src/utils/network.ts: the nine networks, their RPC
    endpoints and display names, the mapping from a token's network name, and
    the block-explorer link builder with its two recognisers. */
module NetworkRegistry {
  import opened Js
  import opened Regex

  datatype Network =
    | SolanaDevnet
    | SolanaMainnetBeta
    | EthereumSepolia
    | EthereumMainnet
    | BitcoinMainnet
    | BitcoinTestnet
    | PolygonMainnet
    | PolygonAmoy
    | BaseMainnet

  /** The string value of each enum member. */
  function Id(n: Network): string {
    match n
    case SolanaDevnet => "solana-devnet"
    case SolanaMainnetBeta => "solana-mainnet"
    case EthereumSepolia => "ethereum-sepolia"
    case EthereumMainnet => "ethereum-mainnet"
    case BitcoinMainnet => "bitcoin-mainnet"
    case BitcoinTestnet => "bitcoin-testnet"
    case PolygonMainnet => "polygon-mainnet"
    case PolygonAmoy => "polygon-amoy"
    case BaseMainnet => "base-mainnet"
  }

  /** The member a `switch` over a runtime string selects, if any. */
  function FromId(s: string): (r: Option<Network>)
    ensures r.Some? ==> Id(r.value) == s
    ensures r.None? ==> forall n :: Id(n) != s
  {
    if s == "solana-devnet" then Some(SolanaDevnet)
    else if s == "solana-mainnet" then Some(SolanaMainnetBeta)
    else if s == "ethereum-sepolia" then Some(EthereumSepolia)
    else if s == "ethereum-mainnet" then Some(EthereumMainnet)
    else if s == "bitcoin-mainnet" then Some(BitcoinMainnet)
    else if s == "bitcoin-testnet" then Some(BitcoinTestnet)
    else if s == "polygon-mainnet" then Some(PolygonMainnet)
    else if s == "polygon-amoy" then Some(PolygonAmoy)
    else if s == "base-mainnet" then Some(BaseMainnet)
    else None
  }

  /** Distinct members have distinct string values, so `FromId` inverts `Id`. */
  lemma IdRoundTrip(n: Network)
    ensures FromId(Id(n)) == Some(n)
  {
  }

  /** `network || process.env.NEXT_PUBLIC_BLOCKCHAIN_NETWORK`: an absent or empty
      argument falls back to the configured value (itself possibly undefined). */
  function ActiveNetwork(network: Option<string>, configured: Option<string>): Option<string> {
    Or(network, configured)
  }

  /** The member the three network-taking functions switch on. */
  function Lookup(network: Option<string>, configured: Option<string>): Option<Network> {
    match ActiveNetwork(network, configured)
    case None => None
    case Some(s) => FromId(s)
  }

  const NotSupported := "Network not supported"
  const UnknownNetwork := "Unknown Network"

  function RpcUrl(n: Network): string {
    match n
    case SolanaDevnet => "https://solana-devnet.g.alchemy.com/v2/NUZZICdM-417xyZwDhka3615uai5GQFr"
    case SolanaMainnetBeta => "https://mainnet.helius-rpc.com/?api-key=f110bfa6-9b80-444d-a685-d1b0d3c48603"
    case EthereumSepolia => "https://eth-sepolia.g.alchemy.com/v2/demo"
    case EthereumMainnet => "https://eth-mainnet.g.alchemy.com/v2/uRHNx98oapmdwfnEUO_BTKx8eY5A5w4C"
    case BitcoinMainnet => "https://bitcoin-rpc.publicnode.com"
    case BitcoinTestnet => "https://btc.getblock.io/testnet"
    case PolygonMainnet => "https://polygon-mainnet.g.alchemy.com/v2/3OPrcHSm8Yo6Wsql-IioeswZ-tJTMnV2"
    case PolygonAmoy => "https://polygon-amoy.g.alchemy.com/v2/demo"
    case BaseMainnet => "https://base-mainnet.g.alchemy.com/v2/3OPrcHSm8Yo6Wsql-IioeswZ-tJTMnV2"
  }

  /** `getNetworkUrl`: the endpoint of a known network; throws otherwise. */
  function GetNetworkUrl(network: Option<string>, configured: Option<string>): (r: Result<string, string>)
    ensures r.Ok? <==> Lookup(network, configured).Some?
    ensures r.Ok? ==> r.value == RpcUrl(Lookup(network, configured).value)
    ensures r.Err? ==> r.error == NotSupported
  {
    match Lookup(network, configured)
    case None => Err(NotSupported)
    case Some(n) => Ok(RpcUrl(n))
  }

  function Label(n: Network): string {
    match n
    case SolanaDevnet => "Solana (Devnet)"
    case SolanaMainnetBeta => "Solana (Mainnet)"
    case EthereumSepolia => "Ethereum (Sepolia)"
    case EthereumMainnet => "Ethereum (Mainnet)"
    case BitcoinMainnet => "Bitcoin (Mainnet)"
    case BitcoinTestnet => "Bitcoin (Testnet)"
    case PolygonMainnet => "Polygon (Mainnet)"
    case PolygonAmoy => "Polygon (Amoy)"
    case BaseMainnet => "Base (Mainnet)"
  }

  /** `getNetworkName`: total, with 'Unknown Network' for anything unrecognised. */
  function GetNetworkName(network: Option<string>, configured: Option<string>): (r: string)
    ensures Lookup(network, configured).Some? ==> r == Label(Lookup(network, configured).value)
    ensures Lookup(network, configured).None? ==> r == UnknownNetwork
  {
    match Lookup(network, configured)
    case None => UnknownNetwork
    case Some(n) => Label(n)
  }

  /** Each of the nine members, passed by its string value, gets its own endpoint
      and label, whatever the configured default. */
  lemma MemberLookup(n: Network, configured: Option<string>)
    ensures Lookup(Some(Id(n)), configured) == Some(n)
    ensures GetNetworkUrl(Some(Id(n)), configured) == Ok(RpcUrl(n))
    ensures GetNetworkName(Some(Id(n)), configured) == Label(n)
  {
    IdRoundTrip(n);
    assert Id(n) != "";
  }

  /** The two lookups recognise the same identifiers: the URL lookup throws exactly
      when the name lookup falls back to 'Unknown Network'. */
  lemma UrlThrowsIffNameUnknown(network: Option<string>, configured: Option<string>)
    ensures GetNetworkUrl(network, configured).Err? <==> GetNetworkName(network, configured) == UnknownNetwork
  {
    match Lookup(network, configured)
    case None =>
    case Some(n) =>
      assert Label(n) != UnknownNetwork by {
        match n
        case SolanaDevnet => assert Label(n)[0] == 'S';
        case SolanaMainnetBeta => assert Label(n)[0] == 'S';
        case EthereumSepolia => assert Label(n)[0] == 'E';
        case EthereumMainnet => assert Label(n)[0] == 'E';
        case BitcoinMainnet => assert Label(n)[0] == 'B';
        case BitcoinTestnet => assert Label(n)[0] == 'B';
        case PolygonMainnet => assert Label(n)[0] == 'P';
        case PolygonAmoy => assert Label(n)[0] == 'P';
        case BaseMainnet => assert Label(n)[0] == 'B';
      }
  }

  /** Exactly the nine enum values are recognised by an explicit argument. */
  lemma KnownIdsAreTheNine(s: string)
    requires s != ""
    ensures GetNetworkUrl(Some(s), None).Ok? <==> exists n :: Id(n) == s
  {
    if GetNetworkUrl(Some(s), None).Ok? {
      assert Id(FromId(s).value) == s;
    }
  }

  // ---- getNetworkFromTokenNetwork ----

  predicate IsMainnet(n: Network) {
    n in {SolanaMainnetBeta, EthereumMainnet, BitcoinMainnet, PolygonMainnet, BaseMainnet}
  }

  /** `getNetworkFromTokenNetwork`: the mainnet of a token's network name, in any
      letter case; every other name defaults to Solana mainnet. */
  function GetNetworkFromTokenNetwork(tokenNetwork: string): (r: Network)
    ensures IsMainnet(r)
    ensures ToLower(tokenNetwork) !in {"ethereum", "bitcoin", "polygon", "base"} ==> r == SolanaMainnetBeta
  {
    match ToLower(tokenNetwork)
    case "solana" => SolanaMainnetBeta
    case "ethereum" => EthereumMainnet
    case "bitcoin" => BitcoinMainnet
    case "polygon" => PolygonMainnet
    case "base" => BaseMainnet
    case _ => SolanaMainnetBeta
  }

  /** The mapping ignores letter case. */
  lemma TokenNetworkIgnoresCase(a: string, b: string)
    requires ToLower(a) == ToLower(b)
    ensures GetNetworkFromTokenNetwork(a) == GetNetworkFromTokenNetwork(b)
  {
  }

  /** Each of the five chain names leads to that chain's mainnet, and its
      identifier starts with the name. */
  lemma TokenNetworkNamesTheChain(name: string)
    requires name in {"solana", "ethereum", "bitcoin", "polygon", "base"}
    ensures StartsWith(Id(GetNetworkFromTokenNetwork(name)), name + "-")
  {
    assert ToLower(name) == name;
  }

  // ---- getBlockExplorer ----

  /** The digit counts of the two recognisers. */
  const HashDigits: nat := 64
  const SignatureChars: nat := 88

  /** /^(0x)?[a-fA-F0-9]{64}$/ */
  function HashPattern(): Re {
    Cat(Opt(Literal("0x")), Repeat(Class(HexDigit), HashDigits))
  }

  /** /^[1-9A-HJ-NP-Za-km-z]{88}$/ */
  function SignaturePattern(): Re {
    Repeat(Class(Base58Char), SignatureChars)
  }

  predicate IsTransactionHash(s: string) {
    Matches(HashPattern(), s)
  }

  predicate IsSolanaSignature(s: string) {
    Matches(SignaturePattern(), s)
  }

  /** The hash test accepts exactly 64 hex digits, optionally after '0x'. */
  lemma {:induction false} TransactionHashShape(s: string)
    ensures IsTransactionHash(s) <==>
      (|s| == 64 && AllIn(HexDigit, s)) || (|s| == 66 && s[..2] == "0x" && AllIn(HexDigit, s[2..]))
  {
    MatchesCorrect(HashPattern(), s);
    var hex := Repeat(Class(HexDigit), 64);
    if InLang(HashPattern(), s) {
      var i :| 0 <= i <= |s| && InLang(Opt(Literal("0x")), s[..i]) && InLang(hex, s[i..]);
      RepeatLang(HexDigit, 64, s[i..]);
      LiteralLang("0x", s[..i]);
      if i == 0 {
        assert s[i..] == s;
      } else {
        assert |s[..i]| == i;
        assert InLang(Alt(Epsilon, Literal("0x")), s[..i]);
        assert InLang(Literal("0x"), s[..i]);
        assert s[..i] == "0x";
        assert i == 2;
        assert s[..2] == "0x" && s[i..] == s[2..];
      }
    }
    if |s| == 64 && AllIn(HexDigit, s) {
      RepeatLang(HexDigit, 64, s);
      assert s[..0] == [] && s[0..] == s;
      assert InLang(Opt(Literal("0x")), s[..0]);
    }
    if |s| == 66 && s[..2] == "0x" && AllIn(HexDigit, s[2..]) {
      RepeatLang(HexDigit, 64, s[2..]);
      LiteralLang("0x", s[..2]);
      assert InLang(Opt(Literal("0x")), s[..2]);
    }
  }

  /** The signature test accepts exactly 88 Base58 characters. */
  lemma {:induction false} SolanaSignatureShape(s: string)
    ensures IsSolanaSignature(s) <==> |s| == 88 && AllIn(Base58Char, s)
  {
    MatchesCorrect(SignaturePattern(), s);
    RepeatLang(Base58Char, 88, s);
  }

  /** Base58 leaves out the look-alike characters 0, O, I and l. */
  lemma SignatureHasNoLookAlikes(s: string)
    requires IsSolanaSignature(s)
    ensures |s| == 88
    ensures forall i :: 0 <= i < |s| ==> s[i] !in {'0', 'O', 'I', 'l'}
  {
    SolanaSignatureShape(s);
  }

  /** No string passes both tests (their lengths differ), so on every network the
      link kind is decided by one test alone. */
  lemma RecognisersDisjoint(s: string)
    ensures !(IsTransactionHash(s) && IsSolanaSignature(s))
  {
    TransactionHashShape(s);
    SolanaSignatureShape(s);
  }

  /** `getBlockExplorer`: both tests run first; then '' for an unknown network,
      otherwise the link `Link` builds. */
  function GetBlockExplorer(addressOrTxHash: string, network: Option<string>, configured: Option<string>): (r: string)
    ensures r == "" <==> Lookup(network, configured).None?
    ensures Lookup(network, configured).Some? ==>
      var n := Lookup(network, configured).value;
      r == Explorer(n).Prefix(KindFor(n, addressOrTxHash)) + addressOrTxHash + Explorer(n).suffix
  {
    var isTransactionHash := IsTransactionHash(addressOrTxHash);
    var isSolanaSignature := IsSolanaSignature(addressOrTxHash);
    match Lookup(network, configured)
    case None => ""
    case Some(n) => Link(n, addressOrTxHash, isTransactionHash, isSolanaSignature)
  }

  /** The switch of `getBlockExplorer` for a known network, given the outcomes of
      the two tests. It agrees with the network's template: a fixed prefix for the
      kind of link, the input verbatim, then the network's suffix. */
  function Link(n: Network, s: string, isTransactionHash: bool, isSolanaSignature: bool): (r: string)
    ensures r == Explorer(n).Prefix(KindOf(n, isTransactionHash, isSolanaSignature)) + s + Explorer(n).suffix
  {
    var r := LinkSwitch(n, s, isTransactionHash, isSolanaSignature);
    var t := Explorer(n);
    assert n != SolanaDevnet ==> t.Prefix(KindOf(n, isTransactionHash, isSolanaSignature)) + s + t.suffix
                                 == t.Prefix(KindOf(n, isTransactionHash, isSolanaSignature)) + s;
    r
  }

  /** The cases of the switch, one per network. */
  function LinkSwitch(n: Network, s: string, isTransactionHash: bool, isSolanaSignature: bool): string {
    match n
    case SolanaDevnet =>
      if isSolanaSignature then "https://explorer.solana.com/" + "tx/" + s + "?cluster=devnet"
      else "https://explorer.solana.com/" + "address/" + s + "?cluster=devnet"
    case SolanaMainnetBeta =>
      if isSolanaSignature then "https://solscan.io/" + "tx/" + s
      else "https://solscan.io/" + "account/" + s
    case EthereumSepolia =>
      if isTransactionHash then "https://sepolia.etherscan.io/" + "tx/" + s
      else "https://sepolia.etherscan.io/" + "address/" + s
    case EthereumMainnet =>
      if isTransactionHash then "https://etherscan.io/" + "tx/" + s
      else "https://etherscan.io/" + "address/" + s
    case BitcoinMainnet =>
      if isTransactionHash then "https://www.blockchain.com/explorer/" + "transactions/btc/" + s
      else "https://www.blockchain.com/explorer/" + "addresses/btc/" + s
    case BitcoinTestnet =>
      if isTransactionHash then "https://www.blockchain.com/explorer/" + "transactions/btc-testnet/" + s
      else "https://www.blockchain.com/explorer/" + "addresses/btc-testnet/" + s
    case PolygonMainnet =>
      if isTransactionHash then "https://polygonscan.com/" + "tx/" + s
      else "https://polygonscan.com/" + "address/" + s
    case PolygonAmoy =>
      if isTransactionHash then "https://amoy.polygonscan.com/" + "tx/" + s
      else "https://amoy.polygonscan.com/" + "address/" + s
    case BaseMainnet =>
      if isTransactionHash then "https://basescan.org/" + "tx/" + s
      else "https://basescan.org/" + "address/" + s
  }

  datatype LinkKind = TxLink | AddressLink

  /** The explorer of a network as a table: a common base, a path per link kind
      and a suffix. */
  datatype ExplorerTemplate = ExplorerTemplate(base: string, txPath: string, addressPath: string, suffix: string) {
    function Prefix(kind: LinkKind): string {
      base + (if kind == TxLink then txPath else addressPath)
    }
  }

  function Explorer(n: Network): (t: ExplorerTemplate)
    ensures t.txPath != [] && t.addressPath != [] && t.txPath[0] != t.addressPath[0]
    ensures t.suffix == (if n == SolanaDevnet then "?cluster=devnet" else "")
  {
    match n
    case SolanaDevnet => ExplorerTemplate("https://explorer.solana.com/", "tx/", "address/", "?cluster=devnet")
    case SolanaMainnetBeta => ExplorerTemplate("https://solscan.io/", "tx/", "account/", "")
    case EthereumSepolia => ExplorerTemplate("https://sepolia.etherscan.io/", "tx/", "address/", "")
    case EthereumMainnet => ExplorerTemplate("https://etherscan.io/", "tx/", "address/", "")
    case BitcoinMainnet =>
      ExplorerTemplate("https://www.blockchain.com/explorer/", "transactions/btc/", "addresses/btc/", "")
    case BitcoinTestnet =>
      ExplorerTemplate("https://www.blockchain.com/explorer/", "transactions/btc-testnet/", "addresses/btc-testnet/", "")
    case PolygonMainnet => ExplorerTemplate("https://polygonscan.com/", "tx/", "address/", "")
    case PolygonAmoy => ExplorerTemplate("https://amoy.polygonscan.com/", "tx/", "address/", "")
    case BaseMainnet => ExplorerTemplate("https://basescan.org/", "tx/", "address/", "")
  }

  /** On the two Solana networks only the signature test decides the link kind;
      on the other seven only the hash test does. */
  function KindOf(n: Network, isTransactionHash: bool, isSolanaSignature: bool): LinkKind {
    var isTx := if n in {SolanaDevnet, SolanaMainnetBeta} then isSolanaSignature else isTransactionHash;
    if isTx then TxLink else AddressLink
  }

  /** The kind of link built for `s` on network `n`. */
  function KindFor(n: Network, s: string): LinkKind {
    KindOf(n, IsTransactionHash(s), IsSolanaSignature(s))
  }

  /** Reads an explorer link back into its kind and subject. */
  function ParseLink(t: ExplorerTemplate, url: string): Option<(LinkKind, string)> {
    var tx := t.Prefix(TxLink);
    var address := t.Prefix(AddressLink);
    if |url| >= |tx| + |t.suffix| && StartsWith(url, tx) && EndsWith(url, t.suffix) then
      Some((TxLink, url[|tx|..|url| - |t.suffix|]))
    else if |url| >= |address| + |t.suffix| && StartsWith(url, address) && EndsWith(url, t.suffix) then
      Some((AddressLink, url[|address|..|url| - |t.suffix|]))
    else
      None
  }

  /** A template whose two paths start differently can be read back. */
  lemma TemplateRoundTrip(t: ExplorerTemplate, k: LinkKind, s: string)
    requires t.txPath != [] && t.addressPath != [] && t.txPath[0] != t.addressPath[0]
    ensures ParseLink(t, t.Prefix(k) + s + t.suffix) == Some((k, s))
  {
    var url := t.Prefix(k) + s + t.suffix;
    assert url[..|t.Prefix(k)|] == t.Prefix(k);
    assert url[|url| - |t.suffix|..] == t.suffix;
    assert url[|t.Prefix(k)|..|url| - |t.suffix|] == s;
    if k == AddressLink {
      var i := |t.base|;
      var tx := t.Prefix(TxLink);
      assert url[i] == t.addressPath[0];
      assert tx[i] == t.txPath[0];
      if |url| >= |tx| {
        assert url[..|tx|][i] == url[i];
      }
    }
  }

  /** A link built for a known network determines both its kind and the exact input:
      no two inputs share a link. */
  lemma BlockExplorerRoundTrip(s: string, network: Option<string>, configured: Option<string>)
    requires Lookup(network, configured).Some?
    ensures var n := Lookup(network, configured).value;
      ParseLink(Explorer(n), GetBlockExplorer(s, network, configured)) == Some((KindFor(n, s), s))
  {
    var n := Lookup(network, configured).value;
    TemplateRoundTrip(Explorer(n), KindFor(n, s), s);
  }

  /** When the argument is absent, all three functions use the configured network. */
  lemma AbsentArgumentUsesConfigured(s: string, configured: string)
    ensures GetNetworkUrl(None, Some(configured)) == GetNetworkUrl(Some(configured), None)
    ensures GetNetworkName(None, Some(configured)) == GetNetworkName(Some(configured), None)
    ensures GetBlockExplorer(s, None, Some(configured)) == GetBlockExplorer(s, Some(configured), None)
  {
  }
}
