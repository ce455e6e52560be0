/**
 * The records the node and the Artemis bridge exchange, and their JSON shape
 * as `#[derive(Serialize, Deserialize)]` gives it: a struct is written as an
 * object with one member per field, and read from such an object or from an
 * array holding the fields in declaration order; a `String` must be a JSON
 * string, a `u16` / `u64` an integer in range, a missing or mistyped member
 * is an error, extra object members are ignored, and an enum is externally
 * tagged, a unit variant being read from its name or from `{"Name": null}`.
 */
module Messages {
  import opened Wrappers
  import opened Amounts
  import opened Json

  type U16 = x: int | 0 <= x < 0x1_0000
  type U64 = x: int | 0 <= x < U64_LIMIT

  datatype NodeRole = Finder | CapitalProvider | Executor

  datatype AaveOpportunity = AaveOpportunity(
    oppId: string,
    victimAddress: string,
    repayAsset: string,
    seizeAsset: string,
    maxRepayAmount: string,
    minBonusBps: U16,
    healthFactor: string,
    deadlineBlock: U64,
    estimatedProfitUsd: string)

  datatype AaveIntent = AaveIntent(
    oppId: string,
    asset: string,
    maxAmount: string,
    minBonusBps: U16,
    expiresBlock: U64)

  datatype ExecutionStatus = Success | Failed(reason: string) | Pending

  datatype CapitalUsage = CapitalUsage(
    nodeId: string,
    asset: string,
    amountUsed: string,
    profitShare: string)

  datatype AaveReceipt = AaveReceipt(
    oppId: string,
    status: ExecutionStatus,
    blockNumber: U64,
    txHash: string,
    usedAmounts: seq<CapitalUsage>,
    totalProceeds: string,
    gasPaidUsdc: string)

  datatype ProceedsBreakdown = ProceedsBreakdown(
    asset: string,
    total: string,
    gasCostUsd: string,
    finderFee: string,
    executorFee: string,
    netProfit: string)

  datatype NodeInfo = NodeInfo(
    nodeId: string,
    appVersion: string,
    roles: seq<NodeRole>,
    capitalAssets: seq<string>)

  /** One intent as the executor stores it (`IntentData`); `intent` is JSON text. */
  datatype IntentData = IntentData(
    intent: string,
    submitterNode: string,
    maxAmount: string,
    expiresBlock: U64,
    receivedAt: string)

  // ---------------------------------------------------------------------------
  // Member readers

  /** The values a derived struct decoder reads: an object, or an array with exactly one element per field. */
  predicate IsStructShape(v: Json, fieldCount: nat) {
    v.JObject? || (v.JArray? && |v.items| == fieldCount)
  }

  /**
   * The field named `key`, declared at position `pos`, of a struct value:
   * the object member, or the array element at that position.
   */
  function Member(v: Json, key: string, pos: nat): Json {
    match v
    case JArray(items) => if pos < |items| then items[pos] else JNull
    case _ => Field(v, key)
  }

  function StrAt(v: Json, key: string, pos: nat): Option<string> {
    AsStr(Member(v, key, pos))
  }

  function U16At(v: Json, key: string, pos: nat): Option<U16> {
    var f := Member(v, key, pos);
    if f.JNumber? && 0 <= f.n < 0x1_0000 then Some(f.n) else None
  }

  function U64At(v: Json, key: string, pos: nat): Option<U64> {
    var f := Member(v, key, pos);
    if f.JNumber? && 0 <= f.n < U64_LIMIT then Some(f.n) else None
  }

  function ArrayAt(v: Json, key: string, pos: nat): Option<seq<Json>> {
    var f := Member(v, key, pos);
    if f.JArray? then Some(f.items) else None
  }

  /** A unit variant `name` of an externally tagged enum: the bare name, or an object mapping the name to null. */
  predicate IsUnitVariant(v: Json, name: string) {
    v == JString(name) || v == JObject(map[name := JNull])
  }

  // ---------------------------------------------------------------------------
  // AaveLiquidationOpportunity

  function OpportunityFromJson(v: Json): Option<AaveOpportunity> {
    if !IsStructShape(v, 9) then None
    else
      var oppId :- StrAt(v, "opp_id", 0);
      var victim :- StrAt(v, "victim_address", 1);
      var repay :- StrAt(v, "repay_asset", 2);
      var seize :- StrAt(v, "seize_asset", 3);
      var maxRepay :- StrAt(v, "max_repay_amount", 4);
      var bonus :- U16At(v, "min_bonus_bps", 5);
      var health :- StrAt(v, "health_factor", 6);
      var deadline :- U64At(v, "deadline_block", 7);
      var profit :- StrAt(v, "estimated_profit_usd", 8);
      Some(AaveOpportunity(oppId, victim, repay, seize, maxRepay, bonus, health, deadline, profit))
  }

  function OpportunityToJson(o: AaveOpportunity): (v: Json)
    ensures OpportunityFromJson(v) == Some(o)
  {
    JObject(map[
      "opp_id" := JString(o.oppId),
      "victim_address" := JString(o.victimAddress),
      "repay_asset" := JString(o.repayAsset),
      "seize_asset" := JString(o.seizeAsset),
      "max_repay_amount" := JString(o.maxRepayAmount),
      "min_bonus_bps" := JNumber(o.minBonusBps),
      "health_factor" := JString(o.healthFactor),
      "deadline_block" := JNumber(o.deadlineBlock),
      "estimated_profit_usd" := JString(o.estimatedProfitUsd)])
  }

  // ---------------------------------------------------------------------------
  // AaveLiquidationIntent

  function IntentFromJson(v: Json): Option<AaveIntent> {
    if !IsStructShape(v, 5) then None
    else
      var oppId :- StrAt(v, "opp_id", 0);
      var asset :- StrAt(v, "asset", 1);
      var maxAmount :- StrAt(v, "max_amount", 2);
      var bonus :- U16At(v, "min_bonus_bps", 3);
      var expires :- U64At(v, "expires_block", 4);
      Some(AaveIntent(oppId, asset, maxAmount, bonus, expires))
  }

  function IntentToJson(i: AaveIntent): (v: Json)
    ensures IntentFromJson(v) == Some(i)
  {
    JObject(map[
      "opp_id" := JString(i.oppId),
      "asset" := JString(i.asset),
      "max_amount" := JString(i.maxAmount),
      "min_bonus_bps" := JNumber(i.minBonusBps),
      "expires_block" := JNumber(i.expiresBlock)])
  }

  // ---------------------------------------------------------------------------
  // ExecutionStatus (externally tagged enum)

  function StatusFromJson(v: Json): Option<ExecutionStatus> {
    if IsUnitVariant(v, "Success") then Some(ExecutionStatus.Success)
    else if IsUnitVariant(v, "Pending") then Some(ExecutionStatus.Pending)
    else if v.JObject? && v.fields.Keys == {"Failed"} && v.fields["Failed"].JString? then
      Some(ExecutionStatus.Failed(v.fields["Failed"].s))
    else None
  }

  function StatusToJson(st: ExecutionStatus): (v: Json)
    ensures StatusFromJson(v) == Some(st)
  {
    match st
    case Success() => JString("Success")
    case Pending() => JString("Pending")
    case Failed(reason) =>
      var v := JObject(map["Failed" := JString(reason)]);
      assert "Success" !in v.fields && "Pending" !in v.fields;
      v
  }

  // ---------------------------------------------------------------------------
  // CapitalUsage and AaveLiquidationReceipt

  function UsageFromJson(v: Json): Option<CapitalUsage> {
    if !IsStructShape(v, 4) then None
    else
      var node :- StrAt(v, "node_id", 0);
      var asset :- StrAt(v, "asset", 1);
      var used :- StrAt(v, "amount_used", 2);
      var share :- StrAt(v, "profit_share", 3);
      Some(CapitalUsage(node, asset, used, share))
  }

  function UsageToJson(u: CapitalUsage): (v: Json)
    ensures UsageFromJson(v) == Some(u)
  {
    JObject(map[
      "node_id" := JString(u.nodeId),
      "asset" := JString(u.asset),
      "amount_used" := JString(u.amountUsed),
      "profit_share" := JString(u.profitShare)])
  }

  /** A `Vec<CapitalUsage>`: every element must decode. */
  function UsagesFromJson(items: seq<Json>): (r: Option<seq<CapitalUsage>>)
    ensures r.Some? ==> |r.value| == |items|
  {
    if |items| == 0 then Some([])
    else
      var first :- UsageFromJson(items[0]);
      var rest :- UsagesFromJson(items[1..]);
      Some([first] + rest)
  }

  function UsagesToJson(us: seq<CapitalUsage>): (items: seq<Json>)
    ensures |items| == |us|
    ensures UsagesFromJson(items) == Some(us)
  {
    if |us| == 0 then []
    else
      var items := [UsageToJson(us[0])] + UsagesToJson(us[1..]);
      assert items[1..] == UsagesToJson(us[1..]);
      assert [us[0]] + us[1..] == us;
      items
  }

  function ReceiptFromJson(v: Json): Option<AaveReceipt> {
    if !IsStructShape(v, 7) then None
    else
      var oppId :- StrAt(v, "opp_id", 0);
      var status :- StatusFromJson(Member(v, "status", 1));
      var block :- U64At(v, "block_number", 2);
      var txHash :- StrAt(v, "tx_hash", 3);
      var items :- ArrayAt(v, "used_amounts", 4);
      var used :- UsagesFromJson(items);
      var total :- StrAt(v, "total_proceeds", 5);
      var gas :- StrAt(v, "gas_paid_usdc", 6);
      Some(AaveReceipt(oppId, status, block, txHash, used, total, gas))
  }

  /** The receipt object with its status and capital usages already in JSON form. */
  function ReceiptObject(r: AaveReceipt, status: Json, used: seq<Json>): (v: Json)
    ensures IsStructShape(v, 7)
    ensures StrAt(v, "opp_id", 0) == Some(r.oppId)
    ensures Member(v, "status", 1) == status
    ensures U64At(v, "block_number", 2) == Some(r.blockNumber)
    ensures StrAt(v, "tx_hash", 3) == Some(r.txHash)
    ensures ArrayAt(v, "used_amounts", 4) == Some(used)
    ensures StrAt(v, "total_proceeds", 5) == Some(r.totalProceeds)
    ensures StrAt(v, "gas_paid_usdc", 6) == Some(r.gasPaidUsdc)
  {
    JObject(map[
      "opp_id" := JString(r.oppId),
      "status" := status,
      "block_number" := JNumber(r.blockNumber),
      "tx_hash" := JString(r.txHash),
      "used_amounts" := JArray(used),
      "total_proceeds" := JString(r.totalProceeds),
      "gas_paid_usdc" := JString(r.gasPaidUsdc)])
  }

  function ReceiptToJson(r: AaveReceipt): (v: Json)
    ensures ReceiptFromJson(v) == Some(r)
  {
    ReceiptObject(r, StatusToJson(r.status), UsagesToJson(r.usedAmounts))
  }

  // ---------------------------------------------------------------------------
  // ProceedsBreakdown

  function ProceedsFromJson(v: Json): Option<ProceedsBreakdown> {
    if !IsStructShape(v, 6) then None
    else
      var asset :- StrAt(v, "asset", 0);
      var total :- StrAt(v, "total", 1);
      var gas :- StrAt(v, "gas_cost_usd", 2);
      var finder :- StrAt(v, "finder_fee", 3);
      var executor :- StrAt(v, "executor_fee", 4);
      var net :- StrAt(v, "net_profit", 5);
      Some(ProceedsBreakdown(asset, total, gas, finder, executor, net))
  }

  function ProceedsToJson(p: ProceedsBreakdown): (v: Json)
    ensures ProceedsFromJson(v) == Some(p)
  {
    JObject(map[
      "asset" := JString(p.asset),
      "total" := JString(p.total),
      "gas_cost_usd" := JString(p.gasCostUsd),
      "finder_fee" := JString(p.finderFee),
      "executor_fee" := JString(p.executorFee),
      "net_profit" := JString(p.netProfit)])
  }

  // ---------------------------------------------------------------------------
  // NodeInfo

  function RoleFromJson(v: Json): Option<NodeRole> {
    if IsUnitVariant(v, "Finder") then Some(Finder)
    else if IsUnitVariant(v, "CapitalProvider") then Some(CapitalProvider)
    else if IsUnitVariant(v, "Executor") then Some(Executor)
    else None
  }

  function RolesFromJson(items: seq<Json>): Option<seq<NodeRole>> {
    if |items| == 0 then Some([])
    else
      var first :- RoleFromJson(items[0]);
      var rest :- RolesFromJson(items[1..]);
      Some([first] + rest)
  }

  function StringsFromJson(items: seq<Json>): Option<seq<string>> {
    if |items| == 0 then Some([])
    else
      var first :- AsStr(items[0]);
      var rest :- StringsFromJson(items[1..]);
      Some([first] + rest)
  }

  function NodeInfoFromJson(v: Json): Option<NodeInfo> {
    if !IsStructShape(v, 4) then None
    else
      var nodeId :- StrAt(v, "node_id", 0);
      var version :- StrAt(v, "app_version", 1);
      var roleItems :- ArrayAt(v, "roles", 2);
      var roles :- RolesFromJson(roleItems);
      var assetItems :- ArrayAt(v, "capital_assets", 3);
      var assets :- StringsFromJson(assetItems);
      Some(NodeInfo(nodeId, version, roles, assets))
  }

  // ---------------------------------------------------------------------------
  // Text forms

  /** JSON text of an opportunity, decoded as `serde_json::from_str` would. */
  function DecodeOpportunity(c: Codec, text: string): Option<AaveOpportunity> {
    match c.parse(text)
    case Some(v) => OpportunityFromJson(v)
    case None => None
  }

  /** JSON text of an intent, decoded as `serde_json::from_str` would. */
  function DecodeIntent(c: Codec, text: string): Option<AaveIntent> {
    match c.parse(text)
    case Some(v) => IntentFromJson(v)
    case None => None
  }
}
