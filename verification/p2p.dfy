/**
 * The remote (peer-to-peer) handlers of the node and the decisions they
 * call: `receive_node_announcement`, `receive_opportunity_broadcast`,
 * `receive_intent_submission`, `receive_execution_receipt`,
 * `evaluate_and_submit_intent`, `plan_and_execute_opportunities` and
 * `calculate_our_proceeds_share`. Each handler takes the message text,
 * the sending node (`source().node`) and the current timestamp.
 */
module P2p {
  import opened Wrappers
  import opened Amounts
  import opened Json
  import opened Messages
  import opened Node

  /** `message[key].as_str().unwrap_or(default)`. */
  function StrOr(v: Json, key: string, default: string): string {
    AsStr(Field(v, key)).GetOr(default)
  }

  // ---------------------------------------------------------------------------
  // receive_node_announcement

  function ReceiveNodeAnnouncement(s: NodeState, c: Codec, text: string): (r: Step)
    ensures r.state == s.(knownPeers := r.state.knownPeers)
    ensures c.parse(text).None? ==> r == Step(s, Rejected(InvalidAnnouncement), [])
    ensures c.parse(text).Some? && !HasType(c.parse(text).value, "NodeAnnouncement") ==> r == Step(s, Done, [])
    ensures c.parse(text).Some? && HasType(c.parse(text).value, "NodeAnnouncement") ==>
              match NodeInfoFromJson(Field(c.parse(text).value, "node_info"))
              case None => r == Step(s, Rejected(InvalidNodeInfo), [])
              // the announcer joins the peer set even when it names this node itself
              case Some(info) =>
                && r.state.knownPeers == s.knownPeers + {info.nodeId}
                && r.reply == Done
                && r.sent == [Announce(s, info.nodeId)]
  {
    match c.parse(text)
    case None => Step(s, Rejected(InvalidAnnouncement), [])
    case Some(v) =>
      if !HasType(v, "NodeAnnouncement") then Step(s, Done, [])
      else
        match NodeInfoFromJson(Field(v, "node_info"))
        case None => Step(s, Rejected(InvalidNodeInfo), [])
        case Some(info) =>
          var next := s.(knownPeers := s.knownPeers + {info.nodeId});
          Step(next, Done, [Announce(next, info.nodeId)])
  }

  // ---------------------------------------------------------------------------
  // evaluate_and_submit_intent

  /** The capital and profit tests a capital provider applies to an opportunity. */
  predicate Qualifies(s: NodeState, o: AaveOpportunity) {
    && Balance(s, o.repayAsset) >= ParseOrZero(o.maxRepayAmount)
    && ParseOrZero(o.estimatedProfitUsd) >= ParseOrZero(s.config.minProfitThresholdUsd)
  }

  /** The intent a qualifying node builds for stored opportunity `o` under id `oppId`. */
  predicate IntentMatches(s: NodeState, oppId: string, o: AaveOpportunity, i: AaveIntent) {
    && i.oppId == oppId
    && i.asset == o.repayAsset
    && ParseU256(i.maxAmount) == Some(ParseOrZero(o.maxRepayAmount))
    // written as `to_string()` writes a U256: canonical decimal digits
    && i.maxAmount == ToDecimal(ParseOrZero(o.maxRepayAmount))
    && ParseOrZero(i.maxAmount) <= Balance(s, o.repayAsset)
    && i.minBonusBps == o.minBonusBps
    && i.expiresBlock == o.deadlineBlock
  }

  /** The stored opportunity `oppId` is an Aave liquidation whose text decodes. */
  predicate IsDecodableAave(s: NodeState, c: Codec, oppId: string) {
    && oppId in s.opportunities
    && s.opportunities[oppId].strategyId == AAVE_STRATEGY
    && DecodeOpportunity(c, s.opportunities[oppId].opportunity).Some?
  }

  /**
   * The decision of `evaluate_and_submit_intent`: an error when the id is
   * unknown or its text does not decode, no intent when the strategy is
   * another one or the node lacks capital or the profit is too small, and
   * otherwise the intent to broadcast.
   */
  function Evaluate(s: NodeState, c: Codec, oppId: string): (r: Result<Option<AaveIntent>, Error>)
    ensures r == Failure(OpportunityNotFound) <==> oppId !in s.opportunities
    ensures r == Failure(OpportunityUnparseable) <==>
              && oppId in s.opportunities
              && s.opportunities[oppId].strategyId == AAVE_STRATEGY
              && DecodeOpportunity(c, s.opportunities[oppId].opportunity).None?
    ensures r.Failure? ==> r.error in {OpportunityNotFound, OpportunityUnparseable}
    ensures oppId in s.opportunities && s.opportunities[oppId].strategyId != AAVE_STRATEGY ==> r == Result.Success(None)
    ensures r.Success? && r.value.Some? <==>
              IsDecodableAave(s, c, oppId)
              && Qualifies(s, DecodeOpportunity(c, s.opportunities[oppId].opportunity).value)
    ensures r.Success? && r.value.Some? ==>
              IntentMatches(s, oppId, DecodeOpportunity(c, s.opportunities[oppId].opportunity).value, r.value.value)
  {
    if oppId !in s.opportunities then Failure(OpportunityNotFound)
    else
      var data := s.opportunities[oppId];
      if data.strategyId != AAVE_STRATEGY then Result.Success(None)
      else
        match DecodeOpportunity(c, data.opportunity)
        case None => Failure(OpportunityUnparseable)
        case Some(o) =>
          var available := Balance(s, o.repayAsset);
          var maxRepay := ParseOrZero(o.maxRepayAmount);
          if available < maxRepay then Result.Success(None)
          else if ParseOrZero(o.estimatedProfitUsd) < ParseOrZero(s.config.minProfitThresholdUsd) then Result.Success(None)
          else
            var amount := if available < maxRepay then available else maxRepay;
            ParseToDecimal(amount);
            Result.Success(Some(AaveIntent(oppId, o.repayAsset, ToDecimal(amount), o.minBonusBps, o.deadlineBlock)))
  }

  /** The `IntentSubmission` message `broadcast_intent` sends; the intent itself travels as JSON text. */
  function IntentMessage(c: Codec, i: AaveIntent): Json {
    JObject(map[
      "type" := JString("IntentSubmission"),
      "opp_id" := JString(i.oppId),
      "strategy_id" := JString(AAVE_STRATEGY),
      "intent" := JString(c.render(IntentToJson(i))),
      "max_amount" := JString(i.maxAmount),
      "min_bonus_bps" := JNumber(i.minBonusBps),
      "expires_block" := JNumber(i.expiresBlock)])
  }

  /**
   * `evaluate_and_submit_intent`: the state is left as it is (no capital is
   * reserved), and a qualifying opportunity yields one intent broadcast to
   * every known peer.
   */
  function SubmitIntent(s: NodeState, c: Codec, oppId: string): (r: Step)
    ensures r.state == s
    ensures r.reply.Rejected? <==> Evaluate(s, c, oppId).Failure?
    ensures Evaluate(s, c, oppId).Failure? ==> r.reply == Rejected(Evaluate(s, c, oppId).error)
    ensures |r.sent| <= 1
    ensures r.sent != [] <==> Evaluate(s, c, oppId).Success? && Evaluate(s, c, oppId).value.Some?
    ensures forall m :: m in r.sent ==>
              && m.Broadcast?
              && m.peers == s.knownPeers
              && m.handler == "ReceiveIntentSubmission"
              && IntentMatches(s, oppId, DecodeOpportunity(c, s.opportunities[oppId].opportunity).value,
                               Evaluate(s, c, oppId).value.value)
              && m.message == IntentMessage(c, Evaluate(s, c, oppId).value.value)
  {
    match Evaluate(s, c, oppId)
    case Failure(e) => Step(s, Rejected(e), [])
    case Success(None) => Step(s, Done, [])
    case Success(Some(i)) =>
      Step(s, Done, [Broadcast(s.knownPeers, "ReceiveIntentSubmission", IntentMessage(c, i))])
  }

  // ---------------------------------------------------------------------------
  // receive_opportunity_broadcast

  /** The record `receive_opportunity_broadcast` stores for message `v`. */
  function OpportunityEntry(c: Codec, v: Json, sender: string, now: string): OpportunityData {
    OpportunityData(c.render(Field(v, "opportunity")), StrOr(v, "strategy_id", ""), sender, now)
  }

  /** Whether a stored broadcast makes this node evaluate it. */
  predicate TriggersEvaluation(s: NodeState, v: Json) {
    s.config.capitalProviderEnabled && StrOr(v, "strategy_id", "") == AAVE_STRATEGY
  }

  function ReceiveOpportunityBroadcast(s: NodeState, c: Codec, sender: string, now: string, text: string): (r: Step)
    ensures r.state == s.(opportunities := r.state.opportunities)
    ensures c.parse(text).None? ==> r == Step(s, Rejected(InvalidOpportunityBroadcast), [])
    ensures c.parse(text).Some? && !HasType(c.parse(text).value, "OpportunityBroadcast") ==> r == Step(s, Done, [])
    ensures c.parse(text).Some? && HasType(c.parse(text).value, "OpportunityBroadcast") ==>
              var v := c.parse(text).value;
              var id := StrOr(v, "opp_id", "");
              // last write wins: one entry under the id, the one just received
              && r.state.opportunities.Keys == s.opportunities.Keys + {id}
              && r.state.opportunities[id] == OpportunityEntry(c, v, sender, now)
              && (forall k :: k in s.opportunities && k != id ==> r.state.opportunities[k] == s.opportunities[k])
              // every delivery is evaluated again when the node provides capital for the strategy
              && (TriggersEvaluation(s, v) ==> r == SubmitIntent(r.state, c, id))
              && (!TriggersEvaluation(s, v) ==> r.reply == Done && r.sent == [])
  {
    match c.parse(text)
    case None => Step(s, Rejected(InvalidOpportunityBroadcast), [])
    case Some(v) =>
      if !HasType(v, "OpportunityBroadcast") then Step(s, Done, [])
      else
        var id := StrOr(v, "opp_id", "");
        var next := s.(opportunities := s.opportunities[id := OpportunityEntry(c, v, sender, now)]);
        if TriggersEvaluation(s, v) then SubmitIntent(next, c, id)
        else Step(next, Done, [])
  }

  /**
   * A broadcast delivered twice leaves one entry under its id, the later
   * one, and the second delivery evaluates and broadcasts exactly as the
   * first did: nothing suppresses the repeat.
   */
  lemma RepeatedOpportunityDelivery(s: NodeState, c: Codec, sender1: string, now1: string,
                                    sender2: string, now2: string, text: string)
    requires c.parse(text).Some? && HasType(c.parse(text).value, "OpportunityBroadcast")
    ensures var first := ReceiveOpportunityBroadcast(s, c, sender1, now1, text);
            var second := ReceiveOpportunityBroadcast(first.state, c, sender2, now2, text);
            var v := c.parse(text).value;
            var id := StrOr(v, "opp_id", "");
            && second.state.opportunities.Keys == first.state.opportunities.Keys
            && second.state.opportunities[id] == OpportunityEntry(c, v, sender2, now2)
            && second.reply == first.reply
            && second.sent == first.sent
  {
    var first := ReceiveOpportunityBroadcast(s, c, sender1, now1, text);
    var second := ReceiveOpportunityBroadcast(first.state, c, sender2, now2, text);
    var v := c.parse(text).value;
    var id := StrOr(v, "opp_id", "");
    EvaluateIgnoresProvenance(first.state, second.state, c, id);
  }

  /** Evaluation reads the opportunity text and strategy, not who sent it or when. */
  lemma EvaluateIgnoresProvenance(a: NodeState, b: NodeState, c: Codec, oppId: string)
    requires a.config == b.config && a.balances == b.balances && a.knownPeers == b.knownPeers
    requires a.opportunities.Keys == b.opportunities.Keys
    requires oppId in a.opportunities ==>
               a.opportunities[oppId].opportunity == b.opportunities[oppId].opportunity
               && a.opportunities[oppId].strategyId == b.opportunities[oppId].strategyId
    ensures Evaluate(a, c, oppId) == Evaluate(b, c, oppId)
    ensures SubmitIntent(a, c, oppId).reply == SubmitIntent(b, c, oppId).reply
    ensures SubmitIntent(a, c, oppId).sent == SubmitIntent(b, c, oppId).sent
  {
    if oppId in a.opportunities && a.opportunities[oppId].strategyId == AAVE_STRATEGY {
      match DecodeOpportunity(c, a.opportunities[oppId].opportunity)
      case None =>
      case Some(o) =>
        assert Balance(a, o.repayAsset) == Balance(b, o.repayAsset);
    }
  }

  // ---------------------------------------------------------------------------
  // receive_intent_submission

  /** The record `receive_intent_submission` appends for message `v`, with its defaults. */
  function IntentEntry(c: Codec, v: Json, sender: string, now: string): (e: IntentData)
    ensures e.submitterNode == sender && e.receivedAt == now
    ensures Field(v, "max_amount").JString? ==> e.maxAmount == Field(v, "max_amount").s
    ensures !Field(v, "max_amount").JString? ==> e.maxAmount == "0"
    ensures AsU64(Field(v, "expires_block")).Some? ==> e.expiresBlock == AsU64(Field(v, "expires_block")).value
    ensures AsU64(Field(v, "expires_block")).None? ==> e.expiresBlock == 0
    // the intent member is kept as its JSON text, whatever its shape
    ensures e.intent == c.render(Field(v, "intent"))
  {
    IntentData(
      c.render(Field(v, "intent")),
      sender,
      StrOr(v, "max_amount", "0"),
      AsU64(Field(v, "expires_block")).GetOr(0),
      now)
  }

  /** An expiry written as a float, even an integral one such as 7.0, is not a u64 and is stored as 0. */
  lemma FloatExpiryIsStoredAsZero(c: Codec, v: Json, sender: string, now: string, expiry: real)
    requires Field(v, "expires_block") == JFloat(expiry)
    ensures IntentEntry(c, v, sender, now).expiresBlock == 0
  {
  }

  /** The store write of `receive_intent_submission`: one entry appended to the list for the id. */
  function RecordIntent(s: NodeState, c: Codec, sender: string, now: string, v: Json): (r: NodeState)
    ensures r == s.(intents := r.intents)
    ensures var id := StrOr(v, "opp_id", "");
            && r.intents.Keys == s.intents.Keys + {id}
            && |IntentsFor(r, id)| == |IntentsFor(s, id)| + 1
            && IntentsFor(r, id)[..|IntentsFor(s, id)|] == IntentsFor(s, id)
            && IntentsFor(r, id)[|IntentsFor(s, id)|] == IntentEntry(c, v, sender, now)
            && (forall k :: k in s.intents && k != id ==> r.intents[k] == s.intents[k])
  {
    var id := StrOr(v, "opp_id", "");
    s.(intents := s.intents[id := IntentsFor(s, id) + [IntentEntry(c, v, sender, now)]])
  }

  /** The same submission delivered twice is stored twice: intents are not de-duplicated. */
  lemma RepeatedIntentsAccumulate(s: NodeState, c: Codec, sender: string, now1: string, now2: string, v: Json)
    ensures var id := StrOr(v, "opp_id", "");
            var twice := RecordIntent(RecordIntent(s, c, sender, now1, v), c, sender, now2, v);
            var n := |IntentsFor(s, id)|;
            && |IntentsFor(twice, id)| == n + 2
            && IntentsFor(twice, id)[..n] == IntentsFor(s, id)
            && IntentsFor(twice, id)[n].submitterNode == sender
            && IntentsFor(twice, id)[n + 1].submitterNode == sender
  {
    var id := StrOr(v, "opp_id", "");
    var once := RecordIntent(s, c, sender, now1, v);
    var twice := RecordIntent(once, c, sender, now2, v);
    var n := |IntentsFor(s, id)|;
    assert IntentsFor(twice, id)[..n + 1] == IntentsFor(once, id);
    assert IntentsFor(twice, id)[..n] == IntentsFor(once, id)[..n];
  }

  // ---------------------------------------------------------------------------
  // plan_and_execute_opportunities

  /** An opportunity the executor hands to the Artemis bot. */
  predicate ShouldForward(s: NodeState, oppId: string) {
    && oppId in s.intents
    && |s.intents[oppId]| > 0
    && oppId in s.opportunities
    && s.opportunities[oppId].strategyId == AAVE_STRATEGY
  }

  function ForwardedIds(sent: seq<Outbound>): set<string> {
    set i | 0 <= i < |sent| && sent[i].IntentCollection? :: sent[i].oppId
  }

  lemma ForwardedIdsAppend(sent: seq<Outbound>, oppId: string, intents: seq<IntentData>)
    ensures ForwardedIds(sent + [IntentCollection(oppId, intents)]) == ForwardedIds(sent) + {oppId}
  {
    var longer := sent + [IntentCollection(oppId, intents)];
    forall id | id in ForwardedIds(sent)
      ensures id in ForwardedIds(longer)
    {
      var i :| 0 <= i < |sent| && sent[i].IntentCollection? && sent[i].oppId == id;
      assert longer[i] == sent[i];
    }
    assert longer[|sent|].oppId == oppId;
  }

  /** Every message is the intent collection of a forwardable opportunity, with all its intents. */
  predicate CollectionsOf(s: NodeState, sent: seq<Outbound>) {
    forall i :: 0 <= i < |sent| ==>
      && sent[i].IntentCollection?
      && ShouldForward(s, sent[i].oppId)
      && sent[i].intents == s.intents[sent[i].oppId]
  }

  /**
   * `plan_and_execute_opportunities`: walks the intent store in whatever
   * order the map yields and sends one intent collection per opportunity
   * that has intents, is known, and is an Aave liquidation. It changes no
   * state.
   */
  method PlanAndExecute(s: NodeState) returns (sent: seq<Outbound>)
    ensures CollectionsOf(s, sent)
    ensures forall oppId :: ShouldForward(s, oppId) <==> oppId in ForwardedIds(sent)
    ensures forall i, j :: 0 <= i < j < |sent| ==> sent[i].oppId != sent[j].oppId
  {
    sent := [];
    var pending := s.intents.Keys;
    while pending != {}
      invariant pending <= s.intents.Keys
      invariant CollectionsOf(s, sent)
      invariant forall i :: 0 <= i < |sent| ==> sent[i].oppId !in pending
      invariant forall oppId :: oppId in s.intents.Keys - pending && ShouldForward(s, oppId) ==>
                  oppId in ForwardedIds(sent)
      invariant forall i, j :: 0 <= i < j < |sent| ==> sent[i].oppId != sent[j].oppId
      decreases pending
    {
      var oppId :| oppId in pending;
      var intents := s.intents[oppId];
      if |intents| > 0 && oppId in s.opportunities && s.opportunities[oppId].strategyId == AAVE_STRATEGY {
        ForwardedIdsAppend(sent, oppId, intents);
        sent := sent + [IntentCollection(oppId, intents)];
      }
      pending := pending - {oppId};
    }
  }

  /**
   * `receive_intent_submission`: the submission is appended to the intent
   * store, and an executor then plans over the whole store.
   */
  method ReceiveIntentSubmission(s: NodeState, c: Codec, sender: string, now: string, text: string)
    returns (r: Step)
    ensures c.parse(text).None? ==> r == Step(s, Rejected(InvalidIntentSubmission), [])
    ensures c.parse(text).Some? && !HasType(c.parse(text).value, "IntentSubmission") ==> r == Step(s, Done, [])
    ensures c.parse(text).Some? && HasType(c.parse(text).value, "IntentSubmission") ==>
              && r.state == RecordIntent(s, c, sender, now, c.parse(text).value)
              && r.reply == Done
              && (s.config.executorEnabled ==>
                    forall oppId :: ShouldForward(r.state, oppId) <==> oppId in ForwardedIds(r.sent))
    ensures !s.config.executorEnabled ==> r.sent == []
    ensures CollectionsOf(r.state, r.sent)
  {
    match c.parse(text)
    case None =>
      r := Step(s, Rejected(InvalidIntentSubmission), []);
    case Some(v) =>
      if !HasType(v, "IntentSubmission") {
        r := Step(s, Done, []);
      } else {
        var next := RecordIntent(s, c, sender, now, v);
        var sent := [];
        if s.config.executorEnabled {
          sent := PlanAndExecute(next);
        }
        r := Step(next, Done, sent);
      }
  }

  // ---------------------------------------------------------------------------
  // receive_execution_receipt and calculate_our_proceeds_share

  /** The breakdown used when a receipt message carries none that decodes. */
  const DEFAULT_PROCEEDS: ProceedsBreakdown := ProceedsBreakdown("ETH", "0", "0", "0", "0", "0")

  /** `calculate_our_proceeds_share`: half the net profit, rounded down; an unparseable profit counts as zero. */
  function ProceedsShare(p: ProceedsBreakdown): (share: string)
    ensures ParseU256(share).Some?
    ensures 2 * ParseOrZero(share) <= ParseOrZero(p.netProfit) <= 2 * ParseOrZero(share) + 1
    ensures ParseU256(p.netProfit).None? ==> ParseU256(share) == Some(0)
  {
    var half := ParseOrZero(p.netProfit) / 2;
    ParseToDecimal(half);
    ToDecimal(half)
  }

  /** The net profit a receipt message reports, zero when its breakdown is missing or malformed. */
  function ReportedNetProfit(v: Json): nat {
    ParseOrZero(ProceedsFromJson(Field(v, "proceeds")).GetOr(DEFAULT_PROCEEDS).netProfit)
  }

  function ReceiptEntry(c: Codec, v: Json, sender: string, now: string): ReceiptData {
    var proceeds := ProceedsFromJson(Field(v, "proceeds")).GetOr(DEFAULT_PROCEEDS);
    ReceiptData(c.render(Field(v, "receipt")), sender, ProceedsShare(proceeds), now)
  }

  function ReceiveExecutionReceipt(s: NodeState, c: Codec, sender: string, now: string, text: string): (r: Step)
    ensures r.state == s.(receipts := r.state.receipts)
    ensures r.sent == []
    ensures c.parse(text).None? ==> r == Step(s, Rejected(InvalidExecutionReceipt), [])
    ensures c.parse(text).Some? && !HasType(c.parse(text).value, "ExecutionReceipt") ==> r == Step(s, Done, [])
    ensures c.parse(text).Some? && HasType(c.parse(text).value, "ExecutionReceipt") ==>
              var v := c.parse(text).value;
              var id := StrOr(v, "opp_id", "");
              && r.reply == Done
              && r.state.receipts.Keys == s.receipts.Keys + {id}
              && r.state.receipts[id].receipt == c.render(Field(v, "receipt"))
              && r.state.receipts[id].executorNode == sender
              && r.state.receipts[id].verifiedAt == now
              && 2 * ParseOrZero(r.state.receipts[id].ourProceeds) <= ReportedNetProfit(v)
                 <= 2 * ParseOrZero(r.state.receipts[id].ourProceeds) + 1
              // the share is stored as the canonical decimal text of half the net profit
              && r.state.receipts[id].ourProceeds == ToDecimal(ReportedNetProfit(v) / 2)
              && (forall k :: k in s.receipts && k != id ==> r.state.receipts[k] == s.receipts[k])
  {
    match c.parse(text)
    case None => Step(s, Rejected(InvalidExecutionReceipt), [])
    case Some(v) =>
      if !HasType(v, "ExecutionReceipt") then Step(s, Done, [])
      else
        var id := StrOr(v, "opp_id", "");
        Step(s.(receipts := s.receipts[id := ReceiptEntry(c, v, sender, now)]), Done, [])
  }

  /** A receipt delivered twice leaves one entry under its id: the later delivery's. */
  lemma RepeatedReceiptDelivery(s: NodeState, c: Codec, sender1: string, now1: string,
                                sender2: string, now2: string, text: string)
    requires c.parse(text).Some? && HasType(c.parse(text).value, "ExecutionReceipt")
    ensures var first := ReceiveExecutionReceipt(s, c, sender1, now1, text);
            var second := ReceiveExecutionReceipt(first.state, c, sender2, now2, text);
            var v := c.parse(text).value;
            var id := StrOr(v, "opp_id", "");
            && second.state.receipts.Keys == first.state.receipts.Keys
            && second.state.receipts[id] == ReceiptEntry(c, v, sender2, now2)
            && second.state.receipts[id].ourProceeds == first.state.receipts[id].ourProceeds
  {
  }
}
