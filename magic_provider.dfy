/** The chain-family selector of src/components/magic/MagicProvider.tsx: three
    family predicates over the current network id, the three per-chain SDK
    instances, `switchNetwork`, the effect that picks the active instance and
    Solana connection, and the value the provider publishes to consumers. */
module MagicProvider {
  import opened Js
  import opened NetworkRegistry

  /** The chain an SDK instance was created for. */
  datatype Chain = SolanaChain | EthereumChain | BitcoinChain

  /** A Magic SDK instance as far as the client can observe it: the API key it was
      built with, its chain, the network whose endpoint its chain extension was
      given (none for the Ethereum instance) and whether the OAuth extension is
      loaded. */
  datatype Instance = Instance(apiKey: string, chain: Chain, rpcNetwork: Option<Network>, hasOAuth: bool) {
    /** The `rpcUrl` option passed to the chain extension. */
    function RpcEndpoint(): Option<string> {
      if rpcNetwork.Some? then Some(RpcUrl(rpcNetwork.value)) else None
    }
  }

  /** A Solana `Connection`, known by its endpoint. */
  datatype Connection = Connection(endpoint: string)

  /** `solanaMagic?.oauth2` is truthy. */
  predicate HasOAuth(m: Option<Instance>) {
    m.Some? && m.value.hasOAuth
  }

  // ---- The family predicates (compared against the enum's string values) ----

  predicate IsEthereum(current: string) {
    current == Id(EthereumSepolia) || current == Id(EthereumMainnet)
  }

  predicate IsSolana(current: string) {
    current == Id(SolanaDevnet) || current == Id(SolanaMainnetBeta)
  }

  predicate IsBitcoin(current: string) {
    current == Id(BitcoinMainnet) || current == Id(BitcoinTestnet)
  }

  /** Each family holds exactly for its two members: the predicates, read through
      the registry's parser, pick out the same networks. */
  lemma FamiliesByMember(current: string)
    ensures IsEthereum(current) <==> FromId(current) in {Some(EthereumSepolia), Some(EthereumMainnet)}
    ensures IsSolana(current) <==> FromId(current) in {Some(SolanaDevnet), Some(SolanaMainnetBeta)}
    ensures IsBitcoin(current) <==> FromId(current) in {Some(BitcoinMainnet), Some(BitcoinTestnet)}
  {
    var r := FromId(current);
    if r.Some? {
      IdRoundTrip(r.value);
    }
  }

  /** At most one family holds, and Polygon and Base belong to none of them. */
  lemma FamiliesExclusive(current: string)
    ensures !(IsEthereum(current) && IsSolana(current))
    ensures !(IsEthereum(current) && IsBitcoin(current))
    ensures !(IsSolana(current) && IsBitcoin(current))
    ensures FromId(current) in {Some(PolygonMainnet), Some(PolygonAmoy), Some(BaseMainnet)} ==>
      !IsEthereum(current) && !IsSolana(current) && !IsBitcoin(current)
  {
    FamiliesByMember(current);
  }

  /** The initial `currentNetwork`: the configured id when it is set, else Solana mainnet. */
  function InitialNetwork(configured: Option<string>): (r: string)
    ensures Truthy(configured) ==> r == configured.value
    ensures !Truthy(configured) ==> r == Id(SolanaMainnetBeta) && IsSolana(r)
  {
    Or(configured, Some(Id(SolanaMainnetBeta))).value
  }

  /** The value a consumer of the context receives: the six data fields of
      the published object (the `switchNetwork` callback is left out), and what
      reading its `solanaMagic` property yields. */
  datatype ContextValue = ContextValue(
    magic: Option<Instance>,
    connection: Option<Connection>,
    isEthereum: bool,
    isSolana: bool,
    isBitcoin: bool,
    currentNetwork: string,
    solanaMagic: Option<Instance>)

  /** The context's default value, seen by a consumer outside any provider. */
  function DefaultContext(): (v: ContextValue)
    ensures v.magic.None? && v.connection.None? && v.solanaMagic.None?
    ensures v.isSolana == IsSolana(v.currentNetwork) && v.isEthereum == IsEthereum(v.currentNetwork)
      && v.isBitcoin == IsBitcoin(v.currentNetwork)
  {
    ContextValue(None, None, false, true, false, Id(SolanaMainnetBeta), None)
  }

  class Provider {
    /** process.env.NEXT_PUBLIC_BLOCKCHAIN_NETWORK, read where the source reads it. */
    const configured: Option<string>
    var solanaMagic: Option<Instance>
    var ethereumMagic: Option<Instance>
    var bitcoinMagic: Option<Instance>
    var magic: Option<Instance>
    var connection: Option<Connection>
    var currentNetwork: string

    /** The initial render: no instances, no connection. */
    constructor (configured: Option<string>)
      ensures this.configured == configured
      ensures currentNetwork == InitialNetwork(configured)
      ensures solanaMagic.None? && ethereumMagic.None? && bitcoinMagic.None?
      ensures magic.None? && connection.None?
    {
      this.configured := configured;
      solanaMagic, ethereumMagic, bitcoinMagic := None, None, None;
      magic, connection := None, None;
      currentNetwork := InitialNetwork(configured);
    }

    /** The one-time initialisation effect: three instances, all with the OAuth
        extension, created only when an API key is configured. */
    method InitInstances(apiKey: Option<string>)
      modifies this
      ensures Truthy(apiKey) ==>
        && solanaMagic == Some(Instance(apiKey.value, SolanaChain, Some(SolanaMainnetBeta), true))
        && ethereumMagic == Some(Instance(apiKey.value, EthereumChain, None, true))
        && bitcoinMagic == Some(Instance(apiKey.value, BitcoinChain, Some(BitcoinMainnet), true))
      ensures !Truthy(apiKey) ==>
        solanaMagic == old(solanaMagic) && ethereumMagic == old(ethereumMagic) && bitcoinMagic == old(bitcoinMagic)
      ensures magic == old(magic) && connection == old(connection) && currentNetwork == old(currentNetwork)
    {
      if Truthy(apiKey) {
        solanaMagic := Some(Instance(apiKey.value, SolanaChain, Some(SolanaMainnetBeta), true));
        ethereumMagic := Some(Instance(apiKey.value, EthereumChain, None, true));
        bitcoinMagic := Some(Instance(apiKey.value, BitcoinChain, Some(BitcoinMainnet), true));
      }
    }

    /** `switchNetwork`: stores its argument as is, without validation. */
    method SwitchNetwork(network: string)
      modifies this
      ensures currentNetwork == network
      ensures magic == old(magic) && connection == old(connection)
      ensures solanaMagic == old(solanaMagic) && ethereumMagic == old(ethereumMagic) && bitcoinMagic == old(bitcoinMagic)
    {
      currentNetwork := network;
    }

    /** The selection effect: the first family branch whose instance exists sets
        the active instance and connection; when none applies both keep their
        previous values. */
    method SelectActive()
      modifies this
      ensures IsEthereum(currentNetwork) && ethereumMagic.Some? ==>
        magic == ethereumMagic && connection.None?
      ensures IsSolana(currentNetwork) && solanaMagic.Some? ==>
        magic == solanaMagic && connection == Some(Connection(RpcUrl(FromId(currentNetwork).value)))
      ensures IsBitcoin(currentNetwork) && bitcoinMagic.Some? ==>
        magic == bitcoinMagic && connection.None?
      ensures (!(IsEthereum(currentNetwork) && ethereumMagic.Some?)
        && !(IsSolana(currentNetwork) && solanaMagic.Some?)
        && !(IsBitcoin(currentNetwork) && bitcoinMagic.Some?)) ==>
        magic == old(magic) && connection == old(connection)
      ensures currentNetwork == old(currentNetwork)
      ensures solanaMagic == old(solanaMagic) && ethereumMagic == old(ethereumMagic) && bitcoinMagic == old(bitcoinMagic)
    {
      FamiliesExclusive(currentNetwork);
      if IsEthereum(currentNetwork) && ethereumMagic.Some? {
        magic := ethereumMagic;
        connection := None;
      } else if IsSolana(currentNetwork) && solanaMagic.Some? {
        magic := solanaMagic;
        var url := GetNetworkUrl(Some(currentNetwork), configured);
        FamiliesByMember(currentNetwork);
        connection := Some(Connection(url.value));
      } else if IsBitcoin(currentNetwork) && bitcoinMagic.Some? {
        magic := bitcoinMagic;
        connection := None;
      }
    }

    /** The value the provider publishes. The object built at lines 117-127 has
        no `solanaMagic` property, so consumers reading it get undefined. */
    function PublishedValue(): (v: ContextValue)
      reads this
      ensures v.solanaMagic.None?
      ensures v.magic == magic && v.connection == connection && v.currentNetwork == currentNetwork
      ensures v.isEthereum == IsEthereum(currentNetwork) && v.isSolana == IsSolana(currentNetwork)
        && v.isBitcoin == IsBitcoin(currentNetwork)
    {
      ContextValue(magic, connection, IsEthereum(currentNetwork), IsSolana(currentNetwork),
        IsBitcoin(currentNetwork), currentNetwork, None)
    }

    /** The published value with the Solana instance exposed, as its consumers
        expect. */
    function CorrectedValue(): (v: ContextValue)
      reads this
      ensures v.solanaMagic == solanaMagic
      ensures v == PublishedValue().(solanaMagic := solanaMagic)
    {
      PublishedValue().(solanaMagic := solanaMagic)
    }
  }

  /** After initialisation with an API key, the provider holds a Solana instance
      with the OAuth extension, yet consumers of the published value read
      `solanaMagic` as undefined; the corrected value hands them the instance. */
  method SolanaInstanceNotPublished(apiKey: string) returns (held: Option<Instance>, published: Option<Instance>, corrected: Option<Instance>)
    requires apiKey != ""
    ensures HasOAuth(held) && !HasOAuth(published) && corrected == held
  {
    var p := new Provider(None);
    p.InitInstances(Some(apiKey));
    held := p.solanaMagic;
    published := p.PublishedValue().solanaMagic;
    corrected := p.CorrectedValue().solanaMagic;
  }

  /** Switching from Solana to Polygon leaves the Solana instance and the Solana
      mainnet connection active: no family branch applies to Polygon. */
  method PolygonKeepsStaleSolanaState(apiKey: string) returns (before: ContextValue, after: ContextValue)
    requires apiKey != ""
    ensures before.magic.Some? && before.magic.value.chain == SolanaChain
    ensures before.connection == Some(Connection(RpcUrl(SolanaMainnetBeta)))
    ensures after.currentNetwork == Id(PolygonMainnet)
    ensures !after.isEthereum && !after.isSolana && !after.isBitcoin
    ensures after.magic == before.magic && after.connection == before.connection
  {
    var p := new Provider(None);
    p.InitInstances(Some(apiKey));
    IdRoundTrip(SolanaMainnetBeta);
    FamiliesExclusive(Id(SolanaMainnetBeta));
    assert p.currentNetwork == Id(SolanaMainnetBeta) && IsSolana(p.currentNetwork);
    p.SelectActive();
    before := p.PublishedValue();
    IdRoundTrip(PolygonMainnet);
    FamiliesExclusive(Id(PolygonMainnet));
    p.SwitchNetwork(Id(PolygonMainnet));
    p.SelectActive();
    after := p.PublishedValue();
  }

  /** Without an API key no instance is ever created, so the active instance
      stays null whatever network is selected. */
  method NoKeyNoInstance(configured: Option<string>, network: string) returns (v: ContextValue)
    ensures v.magic.None? && v.connection.None?
  {
    var p := new Provider(configured);
    p.InitInstances(None);
    p.SelectActive();
    p.SwitchNetwork(network);
    p.SelectActive();
    v := p.PublishedValue();
  }
}
