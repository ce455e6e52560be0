/**
 * The per-node coordination state of the Hyper-MEV pool (`HyperMevApp`), the
 * replies its handlers give, and the messages they hand to the transport.
 * Every handler of the model is a pure function from one `NodeState` to a
 * `Step`: the next state, the reply, and the messages sent.
 */
module Node {
  import opened Wrappers
  import opened Amounts
  import opened Json
  import opened Messages

  /** The only strategy id the node acts on. */
  const AAVE_STRATEGY: string := "aave-liquidation"
  /** The USDC contract credited at start-up. */
  const USDC_MAINNET: string := "0xA0b86991c6218b36c1d19D4a2e9Eb0cE3606eB48"
  /** 10,000 USDC in 6-decimal units. */
  const INITIAL_USDC: string := "10000000000"
  /** The finder / executor name the node records for what the Artemis bot delivers. */
  const ARTEMIS_BOT: string := "artemis-bot"

  datatype NodeConfig = NodeConfig(
    nodeId: string,
    publisher: string,
    enabledStrategies: seq<string>,
    finderEnabled: bool,
    capitalProviderEnabled: bool,
    executorEnabled: bool,
    finderFeeBps: U16,
    executorFeeBps: U16,
    minProfitThresholdUsd: string,
    maxGasPriceGwei: string,
    aavePoolAddress: string)

  /** A stored opportunity; `opportunity` is JSON text. */
  datatype OpportunityData = OpportunityData(
    opportunity: string,
    strategyId: string,
    finderNode: string,
    receivedAt: string)

  /** A stored execution outcome; `receipt` is JSON text, `ourProceeds` a decimal amount. */
  datatype ReceiptData = ReceiptData(
    receipt: string,
    executorNode: string,
    ourProceeds: string,
    verifiedAt: string)

  datatype NodeState = NodeState(
    config: NodeConfig,
    activeStrategy: Option<string>,
    knownPeers: set<string>,
    opportunities: map<string, OpportunityData>,
    intents: map<string, seq<IntentData>>,
    receipts: map<string, ReceiptData>,
    balances: map<string, string>,
    committed: map<string, string>)

  datatype Error =
    | InvalidConfigUpdate
    | InvalidMinProfitThreshold
    | InvalidMaxGasPrice
    | InvalidCapitalAddition
    | InvalidAssetAddress
    | InvalidAmount
    | InvalidPeerNode
    | CannotConnectToSelf
    | InvalidAnnouncement
    | InvalidNodeInfo
    | InvalidOpportunityBroadcast
    | InvalidIntentSubmission
    | InvalidExecutionReceipt
    | OpportunityNotFound
    | OpportunityUnparseable
    | ArtemisJsonInvalid
    | ArtemisOpportunityInvalid
    | ArtemisReceiptInvalid

  datatype Reply = Done | Rejected(error: Error)

  /** What a handler hands to the transport; sending never fails and is never retried. */
  datatype Outbound =
    | Announcement(peer: string, roles: seq<NodeRole>, capitalAssets: set<string>)
    | Broadcast(peers: set<string>, handler: string, message: Json)
    | IntentCollection(oppId: string, intents: seq<IntentData>)

  datatype Step = Step(state: NodeState, reply: Reply, sent: seq<Outbound>)

  function DefaultConfig(): NodeConfig {
    NodeConfig(
      nodeId := "",
      publisher := "skeleton.os",
      enabledStrategies := [AAVE_STRATEGY],
      finderEnabled := true,
      capitalProviderEnabled := true,
      executorEnabled := true,
      finderFeeBps := 100,
      executorFeeBps := 50,
      minProfitThresholdUsd := "10000000000000000000",
      maxGasPriceGwei := "50",
      aavePoolAddress := "0x87870bE17b9C61bE44b13bc108ad8E2C16684e78")
  }

  /** The derived `Default` of the state: the default configuration and nothing stored. */
  function DefaultState(): (s: NodeState)
    ensures s.knownPeers == {} && s.opportunities == map[] && s.intents == map[] && s.receipts == map[]
    ensures s.balances == map[] && s.committed == map[] && s.activeStrategy == None
  {
    NodeState(DefaultConfig(), None, {}, map[], map[], map[], map[], map[])
  }

  /**
   * `initialize` applied to state `s`, which is the default state on a first
   * start and the saved state on a restart: it sets the node name and the
   * active strategy and (re)credits 10,000 USDC; everything else is kept.
   */
  function Initialize(s: NodeState, ourNode: string): (r: NodeState)
    ensures r.config.nodeId == ourNode && r.config == s.config.(nodeId := ourNode)
    ensures r.activeStrategy == Some(AAVE_STRATEGY)
    ensures USDC_MAINNET in r.balances && r.balances[USDC_MAINNET] == INITIAL_USDC
    ensures forall asset :: asset != USDC_MAINNET ==>
              (asset in r.balances <==> asset in s.balances)
              && (asset in s.balances ==> r.balances[asset] == s.balances[asset])
    ensures r.knownPeers == s.knownPeers && r.opportunities == s.opportunities
    ensures r.intents == s.intents && r.receipts == s.receipts && r.committed == s.committed
  {
    s.(config := s.config.(nodeId := ourNode),
       activeStrategy := Some(AAVE_STRATEGY),
       balances := s.balances[USDC_MAINNET := INITIAL_USDC])
  }

  /** The start-up credit is 10,000 USDC in 6-decimal units. */
  lemma InitialUsdcAmount()
    ensures ParseU256(INITIAL_USDC) == Some(10_000_000_000)
  {
    ParseToDecimal(10_000_000_000);
    assert ToDecimal(10_000_000_000) == INITIAL_USDC;
  }

  /** On a first start the node has no peers, nothing stored, and only its 10,000 USDC. */
  lemma FirstStart(ourNode: string)
    ensures var s := Initialize(DefaultState(), ourNode);
            && s.knownPeers == {} && s.opportunities == map[] && s.intents == map[] && s.receipts == map[]
            && s.balances == map[USDC_MAINNET := INITIAL_USDC]
            && s.config.finderFeeBps <= 10000 && s.config.executorFeeBps <= 10000
  {
    var s := Initialize(DefaultState(), ourNode);
    assert s.balances.Keys == {USDC_MAINNET};
  }

  /**
   * A restart keeps peers, stores and other balances but sets the USDC
   * balance back to 10,000, whatever was spent or added; initializing twice
   * is initializing once.
   */
  lemma RestartResetsUsdc(s: NodeState, ourNode: string, spent: string)
    ensures Balance(Initialize(s.(balances := s.balances[USDC_MAINNET := spent]), ourNode), USDC_MAINNET)
            == 10_000_000_000
    ensures Initialize(Initialize(s, ourNode), ourNode) == Initialize(s, ourNode)
  {
    InitialUsdcAmount();
  }

  function RoleRank(r: NodeRole): nat {
    match r
    case Finder => 0
    case CapitalProvider => 1
    case Executor => 2
  }

  /** `get_enabled_roles`: the enabled roles, each once, in declaration order. */
  function GetEnabledRoles(cfg: NodeConfig): (roles: seq<NodeRole>)
    ensures Finder in roles <==> cfg.finderEnabled
    ensures CapitalProvider in roles <==> cfg.capitalProviderEnabled
    ensures Executor in roles <==> cfg.executorEnabled
    ensures forall i, j :: 0 <= i < j < |roles| ==> RoleRank(roles[i]) < RoleRank(roles[j])
  {
    (if cfg.finderEnabled then [Finder] else [])
    + (if cfg.capitalProviderEnabled then [CapitalProvider] else [])
    + (if cfg.executorEnabled then [Executor] else [])
  }

  /** The announcement `announce_to_peer` sends: our roles and the assets we hold a balance for. */
  function Announce(s: NodeState, peer: string): Outbound {
    Announcement(peer, GetEnabledRoles(s.config), s.balances.Keys)
  }

  /** `available_balances.get(asset)`, with a missing or unparseable entry counting as zero. */
  function Balance(s: NodeState, asset: string): nat {
    if asset in s.balances then ParseOrZero(s.balances[asset]) else 0
  }

  /** The intents stored for `oppId`, empty when there are none. */
  function IntentsFor(s: NodeState, oppId: string): seq<IntentData> {
    if oppId in s.intents then s.intents[oppId] else []
  }
}
