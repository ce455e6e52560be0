/**
 * The mutating HTTP endpoints of the node: `update_node_config`,
 * `add_capital` and `connect_to_peer`. Each takes the raw request body.
 */
module Api {
  import opened Wrappers
  import opened Amounts
  import opened Json
  import opened Messages
  import opened Node
  import opened ProcessAddress

  // ---------------------------------------------------------------------------
  // update_node_config

  /** The request body of `update_node_config`; an absent member is `None`. */
  datatype ConfigUpdate = ConfigUpdate(
    finderEnabled: Option<bool>,
    capitalProviderEnabled: Option<bool>,
    executorEnabled: Option<bool>,
    finderFeeBps: Option<U16>,
    executorFeeBps: Option<U16>,
    minProfitThresholdUsd: Option<string>,
    maxGasPriceGwei: Option<string>)

  /** An `Option<bool>` member: absent or null is `None`; any other non-boolean fails (outer `None`). */
  function OptBool(f: Json): Option<Option<bool>> {
    match f
    case JNull => Some(None)
    case JBool(b) => Some(Some(b))
    case _ => None
  }

  function OptU16(f: Json): Option<Option<U16>> {
    match f
    case JNull => Some(None)
    case JNumber(n) => if 0 <= n < 0x1_0000 then Some(Some(n)) else None
    case _ => None
  }

  function OptStr(f: Json): Option<Option<string>> {
    match f
    case JNull => Some(None)
    case JString(t) => Some(Some(t))
    case _ => None
  }

  function ConfigUpdateFromJson(v: Json): Option<ConfigUpdate> {
    if !IsStructShape(v, 7) then None
    else
      var finder :- OptBool(Member(v, "finder_enabled", 0));
      var capital :- OptBool(Member(v, "capital_provider_enabled", 1));
      var executor :- OptBool(Member(v, "executor_enabled", 2));
      var finderFee :- OptU16(Member(v, "finder_fee_bps", 3));
      var executorFee :- OptU16(Member(v, "executor_fee_bps", 4));
      var minProfit :- OptStr(Member(v, "min_profit_threshold_usd", 5));
      var maxGas :- OptStr(Member(v, "max_gas_price_gwei", 6));
      Some(ConfigUpdate(finder, capital, executor, finderFee, executorFee, minProfit, maxGas))
  }

  /** An optional field as a derived serializer writes it: the value, or null when absent. */
  function BoolOrNull(b: Option<bool>): (f: Json)
    ensures OptBool(f) == Some(b)
  {
    if b.Some? then JBool(b.value) else JNull
  }

  function U16OrNull(n: Option<U16>): (f: Json)
    ensures OptU16(f) == Some(n)
  {
    if n.Some? then JNumber(n.value) else JNull
  }

  function StrOrNull(t: Option<string>): (f: Json)
    ensures OptStr(f) == Some(t)
  {
    if t.Some? then JString(t.value) else JNull
  }

  /** The update written as the array of its seven fields in declaration order, absent ones as null. */
  function ConfigUpdateAsArray(u: ConfigUpdate): (v: Json)
    ensures ConfigUpdateFromJson(v) == Some(u)
  {
    var items := [
      BoolOrNull(u.finderEnabled), BoolOrNull(u.capitalProviderEnabled), BoolOrNull(u.executorEnabled),
      U16OrNull(u.finderFeeBps), U16OrNull(u.executorFeeBps),
      StrOrNull(u.minProfitThresholdUsd), StrOrNull(u.maxGasPriceGwei)];
    var v := JArray(items);
    assert Member(v, "finder_enabled", 0) == items[0];
    assert Member(v, "capital_provider_enabled", 1) == items[1];
    assert Member(v, "executor_enabled", 2) == items[2];
    assert Member(v, "finder_fee_bps", 3) == items[3];
    assert Member(v, "executor_fee_bps", 4) == items[4];
    assert Member(v, "min_profit_threshold_usd", 5) == items[5];
    assert Member(v, "max_gas_price_gwei", 6) == items[6];
    v
  }

  datatype Applied = Applied(config: NodeConfig, reply: Reply)

  /** A present value of an update member replaces the old one; an absent one keeps it. */
  function Pick<T>(update: Option<T>, current: T): T {
    update.GetOr(current)
  }

  /** The fields `update_node_config` never writes. */
  predicate SameIdentity(a: NodeConfig, b: NodeConfig) {
    && a.nodeId == b.nodeId
    && a.publisher == b.publisher
    && a.enabledStrategies == b.enabledStrategies
    && a.aavePoolAddress == b.aavePoolAddress
  }

  /**
   * The body of `update_node_config` once the request has decoded: the
   * members are applied one after another, and a threshold that is not a
   * number stops the sequence with an error, keeping what was applied before.
   */
  function ApplyConfigUpdate(cfg: NodeConfig, u: ConfigUpdate): (r: Applied)
    ensures SameIdentity(r.config, cfg)
    // role flags and fees: stored verbatim when present, kept when absent, no range check
    ensures r.config.finderEnabled == Pick(u.finderEnabled, cfg.finderEnabled)
    ensures r.config.capitalProviderEnabled == Pick(u.capitalProviderEnabled, cfg.capitalProviderEnabled)
    ensures r.config.executorEnabled == Pick(u.executorEnabled, cfg.executorEnabled)
    ensures r.config.finderFeeBps == Pick(u.finderFeeBps, cfg.finderFeeBps)
    ensures r.config.executorFeeBps == Pick(u.executorFeeBps, cfg.executorFeeBps)
    // the outcome: success exactly when every present threshold is a number
    ensures r.reply.Done? <==>
              (u.minProfitThresholdUsd.Some? ==> ParseU256(u.minProfitThresholdUsd.value).Some?)
              && (u.maxGasPriceGwei.Some? ==> ParseU256(u.maxGasPriceGwei.value).Some?)
    ensures r.reply.Rejected? ==> r.reply.error in {InvalidMinProfitThreshold, InvalidMaxGasPrice}
    // a bad minimum profit leaves both thresholds as they were
    ensures r.reply == Rejected(InvalidMinProfitThreshold) <==>
              u.minProfitThresholdUsd.Some? && ParseU256(u.minProfitThresholdUsd.value).None?
    ensures r.reply == Rejected(InvalidMinProfitThreshold) ==>
              r.config.minProfitThresholdUsd == cfg.minProfitThresholdUsd
              && r.config.maxGasPriceGwei == cfg.maxGasPriceGwei
    // a bad gas price still keeps the minimum profit that came before it
    ensures r.reply == Rejected(InvalidMaxGasPrice) ==>
              r.config.minProfitThresholdUsd == Pick(u.minProfitThresholdUsd, cfg.minProfitThresholdUsd)
              && r.config.maxGasPriceGwei == cfg.maxGasPriceGwei
    ensures r.reply.Done? ==>
              r.config.minProfitThresholdUsd == Pick(u.minProfitThresholdUsd, cfg.minProfitThresholdUsd)
              && r.config.maxGasPriceGwei == Pick(u.maxGasPriceGwei, cfg.maxGasPriceGwei)
    // thresholds that were numbers stay numbers
    ensures ParseU256(cfg.minProfitThresholdUsd).Some? ==> ParseU256(r.config.minProfitThresholdUsd).Some?
    ensures ParseU256(cfg.maxGasPriceGwei).Some? ==> ParseU256(r.config.maxGasPriceGwei).Some?
  {
    var flagsAndFees := cfg.(
      finderEnabled := Pick(u.finderEnabled, cfg.finderEnabled),
      capitalProviderEnabled := Pick(u.capitalProviderEnabled, cfg.capitalProviderEnabled),
      executorEnabled := Pick(u.executorEnabled, cfg.executorEnabled),
      finderFeeBps := Pick(u.finderFeeBps, cfg.finderFeeBps),
      executorFeeBps := Pick(u.executorFeeBps, cfg.executorFeeBps));
    if u.minProfitThresholdUsd.Some? && ParseU256(u.minProfitThresholdUsd.value).None? then
      Applied(flagsAndFees, Rejected(InvalidMinProfitThreshold))
    else
      var withProfit := flagsAndFees.(minProfitThresholdUsd := Pick(u.minProfitThresholdUsd, cfg.minProfitThresholdUsd));
      if u.maxGasPriceGwei.Some? && ParseU256(u.maxGasPriceGwei.value).None? then
        Applied(withProfit, Rejected(InvalidMaxGasPrice))
      else
        Applied(withProfit.(maxGasPriceGwei := Pick(u.maxGasPriceGwei, cfg.maxGasPriceGwei)), Done)
  }

  /** `update_node_config`: only the configuration changes, and an undecodable body changes nothing. */
  function UpdateNodeConfig(s: NodeState, c: Codec, body: string): (r: Step)
    ensures r.state == s.(config := r.state.config)
    ensures r.sent == []
    ensures r.reply == Rejected(InvalidConfigUpdate) ==> r.state == s
    ensures c.parse(body).None? ==> r.reply == Rejected(InvalidConfigUpdate)
    ensures c.parse(body).Some? && ConfigUpdateFromJson(c.parse(body).value).None? ==>
              r == Step(s, Rejected(InvalidConfigUpdate), [])
    // a decoded update is applied, with its outcome as the reply
    ensures c.parse(body).Some? && ConfigUpdateFromJson(c.parse(body).value).Some? ==>
              var a := ApplyConfigUpdate(s.config, ConfigUpdateFromJson(c.parse(body).value).value);
              r.state.config == a.config && r.reply == a.reply
  {
    match c.parse(body)
    case None => Step(s, Rejected(InvalidConfigUpdate), [])
    case Some(v) =>
      match ConfigUpdateFromJson(v)
      case None => Step(s, Rejected(InvalidConfigUpdate), [])
      case Some(u) =>
        var a := ApplyConfigUpdate(s.config, u);
        Step(s.(config := a.config), a.reply, [])
  }

  /** Applying the same update twice leaves the configuration as applying it once. */
  lemma ApplyConfigUpdateIdempotent(cfg: NodeConfig, u: ConfigUpdate)
    ensures ApplyConfigUpdate(ApplyConfigUpdate(cfg, u).config, u) == ApplyConfigUpdate(cfg, u)
  {
  }

  /**
   * Any pair of u16 fees, far above 10000 bps included, is accepted and
   * stored as given: the endpoint performs no range check.
   */
  lemma FeesAreNotRangeChecked(cfg: NodeConfig, finderFee: U16, executorFee: U16)
    ensures var u := ConfigUpdate(None, None, None, Some(finderFee), Some(executorFee), None, None);
            var r := ApplyConfigUpdate(cfg, u);
            r.reply == Done && r.config.finderFeeBps == finderFee && r.config.executorFeeBps == executorFee
  {
  }

  /** An empty threshold reads as zero, so it is accepted and stored as the empty text. */
  lemma EmptyThresholdIsStored(cfg: NodeConfig)
    ensures var r := ApplyConfigUpdate(cfg, ConfigUpdate(None, None, None, None, None, Some(""), None));
            r.reply == Done && r.config.minProfitThresholdUsd == "" && ParseOrZero(r.config.minProfitThresholdUsd) == 0
  {
  }

  /** A fee written as a float, even one with an integral value, is refused: the body does not decode. */
  lemma FloatFeeIsRefused(s: NodeState, c: Codec, body: string, fee: real)
    requires c.parse(body) == Some(JObject(map["executor_fee_bps" := JFloat(fee)]))
    ensures UpdateNodeConfig(s, c, body) == Step(s, Rejected(InvalidConfigUpdate), [])
  {
    assert OptU16(Member(c.parse(body).value, "executor_fee_bps", 4)).None?;
  }

  /** A body of seven nulls, the array form of an update that sets nothing, is accepted and changes nothing. */
  lemma NullArrayUpdateIsAccepted(s: NodeState, c: Codec, body: string)
    requires c.parse(body) == Some(JArray([JNull, JNull, JNull, JNull, JNull, JNull, JNull]))
    ensures UpdateNodeConfig(s, c, body) == Step(s, Done, [])
  {
    var u := ConfigUpdate(None, None, None, None, None, None, None);
    assert ConfigUpdateAsArray(u) == c.parse(body).value;
  }

  // ---------------------------------------------------------------------------
  // add_capital

  datatype CapitalAddition = CapitalAddition(asset: string, amount: string)

  function CapitalAdditionFromJson(v: Json): Option<CapitalAddition> {
    if !IsStructShape(v, 2) then None
    else
      var asset :- StrAt(v, "asset", 0);
      var amount :- StrAt(v, "amount", 1);
      Some(CapitalAddition(asset, amount))
  }

  /** The addition written as the array `[asset, amount]`. */
  function CapitalAdditionAsArray(a: CapitalAddition): (v: Json)
    ensures CapitalAdditionFromJson(v) == Some(a)
  {
    JArray([JString(a.asset), JString(a.amount)])
  }

  /**
   * The body of `add_capital` once the request has decoded: the asset must
   * parse as a Hyperware process address and the amount as a number, and
   * then the amount is added to the asset's balance, a missing or
   * unparseable old balance counting as zero.
   */
  function ApplyCapitalAddition(s: NodeState, a: CapitalAddition): (r: Step)
    ensures r.sent == []
    ensures r.reply.Done? <==> IsProcessAddress(a.asset) && ParseU256(a.amount).Some?
    ensures !IsProcessAddress(a.asset) ==> r.reply == Rejected(InvalidAssetAddress)
    ensures IsProcessAddress(a.asset) && ParseU256(a.amount).None? ==> r.reply == Rejected(InvalidAmount)
    ensures r.reply.Rejected? ==> r.state == s
    ensures r.state == s.(balances := r.state.balances)
    ensures r.reply.Done? ==>
              && a.asset in r.state.balances
              && ParseU256(r.state.balances[a.asset]) == Some(Balance(s, a.asset) + ParseU256(a.amount).value)
              && Balance(r.state, a.asset) == Balance(s, a.asset) + ParseU256(a.amount).value
    ensures forall asset :: asset != a.asset ==>
              (asset in r.state.balances <==> asset in s.balances)
              && (asset in s.balances ==> r.state.balances[asset] == s.balances[asset])
  {
    if !IsProcessAddress(a.asset) then Step(s, Rejected(InvalidAssetAddress), [])
    else
      match ParseU256(a.amount)
      case None => Step(s, Rejected(InvalidAmount), [])
      case Some(amount) =>
        var total := Balance(s, a.asset) + amount;
        ParseToDecimal(total);
        Step(s.(balances := s.balances[a.asset := ToDecimal(total)]), Done, [])
  }

  /** `add_capital`: an undecodable body is rejected and changes nothing; a decoded one is applied. */
  function AddCapital(s: NodeState, c: Codec, body: string): (r: Step)
    ensures r.sent == []
    ensures r.reply.Rejected? ==> r.state == s
    ensures c.parse(body).None? ==> r.reply == Rejected(InvalidCapitalAddition)
    ensures c.parse(body).Some? && CapitalAdditionFromJson(c.parse(body).value).None? ==>
              r.reply == Rejected(InvalidCapitalAddition)
    ensures c.parse(body).Some? && CapitalAdditionFromJson(c.parse(body).value).Some? ==>
              r == ApplyCapitalAddition(s, CapitalAdditionFromJson(c.parse(body).value).value)
    ensures r.state == s.(balances := r.state.balances)
    ensures s.balances.Keys <= r.state.balances.Keys
    ensures |r.state.balances.Keys - s.balances.Keys| <= 1
  {
    match c.parse(body)
    case None => Step(s, Rejected(InvalidCapitalAddition), [])
    case Some(v) =>
      match CapitalAdditionFromJson(v)
      case None => Step(s, Rejected(InvalidCapitalAddition), [])
      case Some(a) =>
        var r := ApplyCapitalAddition(s, a);
        assert r.state.balances.Keys - s.balances.Keys <= {a.asset};
        r
  }

  /** Two successful additions to one asset add up, whatever the balance was before. */
  lemma CapitalAdditionsAccumulate(s: NodeState, asset: string, first: string, second: string)
    requires IsProcessAddress(asset) && ParseU256(first).Some? && ParseU256(second).Some?
    ensures var r := ApplyCapitalAddition(ApplyCapitalAddition(s, CapitalAddition(asset, first)).state,
                                          CapitalAddition(asset, second));
            r.reply == Done
            && Balance(r.state, asset) == Balance(s, asset) + ParseU256(first).value + ParseU256(second).value
  {
  }

  /** A body in the array form `[asset, amount]` credits the amount exactly as the object form does. */
  lemma ArrayBodyCreditsCapital(s: NodeState, c: Codec, body: string, asset: string, amount: string)
    requires c.parse(body) == Some(JArray([JString(asset), JString(amount)]))
    requires IsProcessAddress(asset) && ParseU256(amount).Some?
    ensures var r := AddCapital(s, c, body);
            r.reply == Done && Balance(r.state, asset) == Balance(s, asset) + ParseU256(amount).value
  {
    assert CapitalAdditionAsArray(CapitalAddition(asset, amount)) == c.parse(body).value;
  }

  /**
   * An empty amount reads as zero: the addition succeeds, the balance keeps
   * its value, and the entry is rewritten as the canonical decimal text.
   */
  lemma EmptyAmountCreditsNothing(s: NodeState, asset: string)
    requires IsProcessAddress(asset)
    ensures var r := ApplyCapitalAddition(s, CapitalAddition(asset, ""));
            && r.reply == Done
            && Balance(r.state, asset) == Balance(s, asset)
            && r.state.balances[asset] == ToDecimal(Balance(s, asset))
  {
  }

  /**
   * No request to `add_capital` changes the balance of an ERC-20 token
   * address: such an address is never a process address, so it is refused.
   */
  lemma AddCapitalNeverCreditsTokenAddress(s: NodeState, c: Codec, body: string, token: string)
    requires IsAddress(token)
    ensures var r := AddCapital(s, c, body);
            (token in r.state.balances <==> token in s.balances)
            && (token in s.balances ==> r.state.balances[token] == s.balances[token])
            && Balance(r.state, token) == Balance(s, token)
  {
    TokenAddressIsNoProcessAddress(token);
  }

  // ---------------------------------------------------------------------------
  // connect_to_peer

  /**
   * `connect_to_peer`: the body is a JSON string naming the peer. Our own
   * name is refused; any other peer joins the known peers and is sent an
   * announcement.
   */
  function ConnectToPeer(s: NodeState, ourNode: string, c: Codec, body: string): (r: Step)
    ensures r.state == s.(knownPeers := r.state.knownPeers)
    ensures r.reply.Rejected? ==> r.state == s && r.sent == []
    ensures c.parse(body).None? || !c.parse(body).value.JString? ==> r.reply == Rejected(InvalidPeerNode)
    ensures c.parse(body) == Some(JString(ourNode)) ==> r.reply == Rejected(CannotConnectToSelf)
    ensures r.reply.Done? <==> exists peer :: c.parse(body) == Some(JString(peer)) && peer != ourNode
    ensures forall peer :: c.parse(body) == Some(JString(peer)) && peer != ourNode ==>
              r.state.knownPeers == s.knownPeers + {peer} && r.sent == [Announce(s, peer)]
    ensures ourNode in r.state.knownPeers <==> ourNode in s.knownPeers
  {
    match c.parse(body)
    case Some(JString(peer)) =>
      if peer == ourNode then Step(s, Rejected(CannotConnectToSelf), [])
      else
        var next := s.(knownPeers := s.knownPeers + {peer});
        Step(next, Done, [Announce(next, peer)])
    case _ => Step(s, Rejected(InvalidPeerNode), [])
  }

  /** Connecting to the same peer twice leaves the peer set as connecting once. */
  lemma ConnectToPeerIdempotent(s: NodeState, ourNode: string, c: Codec, body: string)
    ensures var once := ConnectToPeer(s, ourNode, c, body);
            var twice := ConnectToPeer(once.state, ourNode, c, body);
            twice.state == once.state && twice.reply == once.reply && twice.sent == once.sent
  {
  }
}
