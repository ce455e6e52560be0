/**
 * `handle_artemis_message_json`: what the node does with a WebSocket text
 * frame from the Artemis bot. An opportunity is stored under its own id
 * with this node as neither finder nor evaluator, a receipt is stored with
 * the whole total as our proceeds, and either one is forwarded to every
 * known peer as a P2P message; any other message type is acknowledged and
 * ignored.
 */
module Artemis {
  import opened Wrappers
  import opened Amounts
  import opened Json
  import opened Messages
  import opened Node

  /** The `OpportunityBroadcast` message forwarded to peers; the opportunity travels as JSON text. */
  function ForwardedOpportunity(s: NodeState, c: Codec, o: AaveOpportunity): Json {
    JObject(map[
      "type" := JString("OpportunityBroadcast"),
      "opp_id" := JString(o.oppId),
      "strategy_id" := JString(AAVE_STRATEGY),
      "opportunity" := JString(c.render(OpportunityToJson(o))),
      "finder_fee_bps" := JNumber(s.config.finderFeeBps),
      "deadline_block" := JNumber(o.deadlineBlock)])
  }

  /** The breakdown forwarded with a receipt: the whole total is reported as net profit, with no fees. */
  function ForwardedProceeds(r: AaveReceipt): (p: ProceedsBreakdown)
    ensures p.netProfit == p.total == r.totalProceeds
    ensures p.finderFee == "0" && p.executorFee == "0"
    ensures p.gasCostUsd == r.gasPaidUsdc
  {
    ProceedsBreakdown("ETH", r.totalProceeds, r.gasPaidUsdc, "0", "0", r.totalProceeds)
  }

  /** `gas_paid_usdc.parse::<u64>().unwrap_or(0).to_string()`. */
  function GasUsed(r: AaveReceipt): (text: string)
    ensures ParseU64(r.gasPaidUsdc).Some? ==> ParseU64(text) == ParseU64(r.gasPaidUsdc)
    ensures ParseU64(r.gasPaidUsdc).None? ==> text == "0"
  {
    var gas := ParseU64(r.gasPaidUsdc).GetOr(0);
    ParseU64ToDecimal(gas);
    ToDecimal(gas)
  }

  /** The `ExecutionReceipt` message forwarded to peers; the receipt travels as JSON text. */
  function ForwardedReceipt(c: Codec, r: AaveReceipt): Json {
    ReceiptMessage(r.oppId, c.render(ReceiptToJson(r)), r.blockNumber, r.txHash, GasUsed(r),
                   ProceedsToJson(ForwardedProceeds(r)))
  }

  /** The `ExecutionReceipt` P2P message with the given fields. */
  function ReceiptMessage(oppId: string, receipt: string, blockNumber: nat, txHash: string, gasUsed: string, proceeds: Json)
    : (m: Json)
    ensures HasType(m, "ExecutionReceipt")
    ensures Field(m, "opp_id") == JString(oppId)
    ensures Field(m, "receipt") == JString(receipt)
    ensures Field(m, "proceeds") == proceeds
  {
    JObject(map[
      "type" := JString("ExecutionReceipt"),
      "opp_id" := JString(oppId),
      "strategy_id" := JString(AAVE_STRATEGY),
      "receipt" := JString(receipt),
      "block_number" := JNumber(blockNumber),
      "tx_hash" := JString(txHash),
      "gas_used" := JString(gasUsed),
      "proceeds" := proceeds])
  }

  function HandleArtemisMessage(s: NodeState, c: Codec, now: string, text: string): (r: Step)
    ensures r.state == s.(opportunities := r.state.opportunities, receipts := r.state.receipts)
    ensures c.parse(text).None? ==> r == Step(s, Rejected(ArtemisJsonInvalid), [])
    ensures (c.parse(text).Some? && !HasType(c.parse(text).value, "OpportunityBroadcast")
             && !HasType(c.parse(text).value, "ExecutionReceipt")) ==> r == Step(s, Done, [])
    ensures c.parse(text).Some? && HasType(c.parse(text).value, "OpportunityBroadcast") ==>
              r.state.receipts == s.receipts
              && match OpportunityFromJson(Field(c.parse(text).value, "opportunity"))
                 case None => r == Step(s, Rejected(ArtemisOpportunityInvalid), [])
                 case Some(o) =>
                   // stored under the opportunity's own id, found by the bot; never evaluated here
                   && r.state.opportunities.Keys == s.opportunities.Keys + {o.oppId}
                   && r.state.opportunities[o.oppId].strategyId == AAVE_STRATEGY
                   && r.state.opportunities[o.oppId].finderNode == ARTEMIS_BOT
                   && r.state.opportunities[o.oppId].receivedAt == now
                   && (forall k :: k in s.opportunities && k != o.oppId ==> r.state.opportunities[k] == s.opportunities[k])
                   && r.reply == Done
                   && r.sent == [Broadcast(s.knownPeers, "ReceiveOpportunityBroadcast", ForwardedOpportunity(s, c, o))]
    ensures c.parse(text).Some? && HasType(c.parse(text).value, "ExecutionReceipt") ==>
              r.state.opportunities == s.opportunities
              && match ReceiptFromJson(Field(c.parse(text).value, "receipt"))
                 case None => r == Step(s, Rejected(ArtemisReceiptInvalid), [])
                 case Some(rc) =>
                   // the whole total is recorded as this node's proceeds
                   && r.state.receipts.Keys == s.receipts.Keys + {rc.oppId}
                   && r.state.receipts[rc.oppId].ourProceeds == rc.totalProceeds
                   && r.state.receipts[rc.oppId].executorNode == ARTEMIS_BOT
                   && r.state.receipts[rc.oppId].verifiedAt == now
                   && (forall k :: k in s.receipts && k != rc.oppId ==> r.state.receipts[k] == s.receipts[k])
                   && r.reply == Done
                   && r.sent == [Broadcast(s.knownPeers, "ReceiveExecutionReceipt", ForwardedReceipt(c, rc))]
  {
    match c.parse(text)
    case None => Step(s, Rejected(ArtemisJsonInvalid), [])
    case Some(v) =>
      if HasType(v, "OpportunityBroadcast") then
        match OpportunityFromJson(Field(v, "opportunity"))
        case None => Step(s, Rejected(ArtemisOpportunityInvalid), [])
        case Some(o) => AcceptOpportunity(s, c, now, o)
      else if HasType(v, "ExecutionReceipt") then
        match ReceiptFromJson(Field(v, "receipt"))
        case None => Step(s, Rejected(ArtemisReceiptInvalid), [])
        case Some(rc) => AcceptReceipt(s, c, now, rc)
      else Step(s, Done, [])
  }

  /** Storing and forwarding a decoded opportunity. */
  function AcceptOpportunity(s: NodeState, c: Codec, now: string, o: AaveOpportunity): (r: Step)
    ensures r.state == s.(opportunities := r.state.opportunities)
    ensures r.state.opportunities.Keys == s.opportunities.Keys + {o.oppId}
    ensures r.state.opportunities[o.oppId].strategyId == AAVE_STRATEGY
    ensures r.state.opportunities[o.oppId].finderNode == ARTEMIS_BOT
    ensures r.state.opportunities[o.oppId].receivedAt == now
    ensures forall k :: k in s.opportunities && k != o.oppId ==> r.state.opportunities[k] == s.opportunities[k]
    ensures r.reply == Done
    ensures r.sent == [Broadcast(s.knownPeers, "ReceiveOpportunityBroadcast", ForwardedOpportunity(s, c, o))]
  {
    var entry := OpportunityData(c.render(OpportunityToJson(o)), AAVE_STRATEGY, ARTEMIS_BOT, now);
    Step(s.(opportunities := s.opportunities[o.oppId := entry]), Done,
         [Broadcast(s.knownPeers, "ReceiveOpportunityBroadcast", ForwardedOpportunity(s, c, o))])
  }

  /** Storing and forwarding a decoded receipt. */
  function AcceptReceipt(s: NodeState, c: Codec, now: string, rc: AaveReceipt): (r: Step)
    ensures r.state == s.(receipts := r.state.receipts)
    ensures r.state.receipts.Keys == s.receipts.Keys + {rc.oppId}
    ensures r.state.receipts[rc.oppId].ourProceeds == rc.totalProceeds
    ensures r.state.receipts[rc.oppId].executorNode == ARTEMIS_BOT
    ensures r.state.receipts[rc.oppId].verifiedAt == now
    ensures forall k :: k in s.receipts && k != rc.oppId ==> r.state.receipts[k] == s.receipts[k]
    ensures r.reply == Done
    ensures r.sent == [Broadcast(s.knownPeers, "ReceiveExecutionReceipt", ForwardedReceipt(c, rc))]
  {
    var entry := ReceiptData(c.render(ReceiptToJson(rc)), ARTEMIS_BOT, rc.totalProceeds, now);
    Step(s.(receipts := s.receipts[rc.oppId := entry]), Done,
         [Broadcast(s.knownPeers, "ReceiveExecutionReceipt", ForwardedReceipt(c, rc))])
  }

  /**
   * An opportunity stored from the bot decodes back to itself, so this
   * node's own evaluation of it can only fail for lack of capital or
   * profit, never because the text is unreadable.
   */
  lemma ArtemisOpportunityDecodesLocally(s: NodeState, c: Codec, now: string, text: string)
    requires Lossless(c)
    requires c.parse(text).Some? && HasType(c.parse(text).value, "OpportunityBroadcast")
    requires OpportunityFromJson(Field(c.parse(text).value, "opportunity")).Some?
    ensures var o := OpportunityFromJson(Field(c.parse(text).value, "opportunity")).value;
            var r := HandleArtemisMessage(s, c, now, text);
            DecodeOpportunity(c, r.state.opportunities[o.oppId].opportunity) == Some(o)
  {
    var o := OpportunityFromJson(Field(c.parse(text).value, "opportunity")).value;
    assert c.parse(c.render(OpportunityToJson(o))) == Some(OpportunityToJson(o));
  }
}
