/**
 * What happens when the pieces meet: a message the Artemis handler forwards
 * arriving at a peer's handler, an intent a capital provider broadcasts
 * reaching the executor and then the bridge, and an opportunity the bridge
 * finds meeting a freshly started node. Each lemma assumes only that the
 * JSON library reads back what it wrote (`Lossless`).
 *
 * Payloads travel as JSON text inside a JSON string, and the receiving
 * handlers store `Value::to_string()` of that string, i.e. the text in
 * quotes. Such an entry decodes to a string, never to a struct.
 */
module Flows {
  import opened Wrappers
  import opened Amounts
  import opened Json
  import opened Messages
  import opened Node
  import opened P2p
  import opened Artemis
  import opened Ethers
  import opened AaveStrategy
  import opened Api

  /** The stored text is the rendering of a JSON string. */
  ghost predicate Quoted(c: Codec, text: string) {
    exists t: string :: text == c.render(JString(t))
  }

  /** Quoted text decodes to neither an opportunity nor an intent. */
  lemma QuotedTextIsNoStruct(c: Codec, t: string)
    requires Lossless(c)
    ensures DecodeOpportunity(c, c.render(JString(t))) == None
    ensures DecodeIntent(c, c.render(JString(t))) == None
    ensures ReceiptFromJson(c.parse(c.render(JString(t))).value) == None
  {
    assert c.parse(c.render(JString(t))) == Some(JString(t));
  }

  /**
   * An opportunity the bot reports is forwarded to every peer, and a peer
   * stores it in a form it cannot decode: a capital provider's evaluation
   * of it fails with `OpportunityUnparseable` and no intent is sent.
   */
  lemma ForwardedOpportunityIsUnreadableAtPeers(
    s: NodeState, peer: NodeState, c: Codec, now: string, sender: string, later: string, text: string)
    requires Lossless(c)
    requires c.parse(text).Some? && HasType(c.parse(text).value, "OpportunityBroadcast")
    requires OpportunityFromJson(Field(c.parse(text).value, "opportunity")).Some?
    ensures var o := OpportunityFromJson(Field(c.parse(text).value, "opportunity")).value;
            var r := HandleArtemisMessage(s, c, now, text);
            var p := ReceiveOpportunityBroadcast(peer, c, sender, later, c.render(r.sent[0].message));
            && o.oppId in p.state.opportunities
            && DecodeOpportunity(c, p.state.opportunities[o.oppId].opportunity) == None
            && (peer.config.capitalProviderEnabled ==> p.reply == Rejected(OpportunityUnparseable) && p.sent == [])
  {
    var o := OpportunityFromJson(Field(c.parse(text).value, "opportunity")).value;
    var r := HandleArtemisMessage(s, c, now, text);
    assert r.sent[0].message == ForwardedOpportunity(s, c, o);
    PeerReceivesForwardedOpportunity(s, peer, c, sender, later, o);
  }

  /** A peer receiving the opportunity message the Artemis handler forwards. */
  lemma PeerReceivesForwardedOpportunity(
    s: NodeState, peer: NodeState, c: Codec, sender: string, later: string, o: AaveOpportunity)
    requires Lossless(c)
    ensures var p := ReceiveOpportunityBroadcast(peer, c, sender, later, c.render(ForwardedOpportunity(s, c, o)));
            && o.oppId in p.state.opportunities
            && DecodeOpportunity(c, p.state.opportunities[o.oppId].opportunity) == None
            && (peer.config.capitalProviderEnabled ==> p.reply == Rejected(OpportunityUnparseable) && p.sent == [])
  {
    var m := ForwardedOpportunity(s, c, o);
    assert c.parse(c.render(m)) == Some(m);
    ForwardedOpportunityFields(s, c, o);
    QuotedTextIsNoStruct(c, c.render(OpportunityToJson(o)));
  }

  lemma ForwardedOpportunityFields(s: NodeState, c: Codec, o: AaveOpportunity)
    ensures HasType(ForwardedOpportunity(s, c, o), "OpportunityBroadcast")
    ensures StrOr(ForwardedOpportunity(s, c, o), "opp_id", "") == o.oppId
    ensures StrOr(ForwardedOpportunity(s, c, o), "strategy_id", "") == AAVE_STRATEGY
    ensures Field(ForwardedOpportunity(s, c, o), "opportunity") == JString(c.render(OpportunityToJson(o)))
  {
  }

  /**
   * The intent a capital provider broadcasts is stored by the receiving
   * executor with the right amount, expiry and submitter, but as quoted
   * text.
   */
  lemma SubmittedIntentIsStoredQuoted(s: NodeState, c: Codec, sender: string, now: string, i: AaveIntent)
    requires Lossless(c)
    ensures c.parse(c.render(IntentMessage(c, i))) == Some(IntentMessage(c, i))
    ensures var next := RecordIntent(s, c, sender, now, IntentMessage(c, i));
            var entry := IntentsFor(next, i.oppId)[|IntentsFor(s, i.oppId)|];
            && entry.submitterNode == sender
            && entry.maxAmount == i.maxAmount
            && entry.expiresBlock == i.expiresBlock
            && Quoted(c, entry.intent)
            && DecodeIntent(c, entry.intent) == None
  {
    var v := IntentMessage(c, i);
    assert c.parse(c.render(v)) == Some(v);
    assert StrOr(v, "opp_id", "") == i.oppId;
    assert Field(v, "intent") == JString(c.render(IntentToJson(i)));
    assert AsU64(Field(v, "expires_block")) == Some(i.expiresBlock);
    QuotedTextIsNoStruct(c, c.render(IntentToJson(i)));
  }

  /** Intents stored that way never execute: the bridge cannot decode the one it selects. */
  lemma QuotedIntentsNeverExecute(c: Codec, oppId: string, intents: seq<IntentData>, block: U64)
    requires Lossless(c)
    requires |intents| > 0
    requires forall k :: 0 <= k < |intents| ==> Quoted(c, intents[k].intent)
    ensures ExecuteWithIntents(c, oppId, intents, block) == Failure(InvalidIntentJson)
  {
    var best := intents[BestIntent(intents)];
    assert Quoted(c, best.intent);
    var t :| best.intent == c.render(JString(t));
    QuotedTextIsNoStruct(c, t);
  }

  /** A peer receiving the receipt message the Artemis handler forwards. */
  lemma PeerReceivesForwardedReceipt(peer: NodeState, c: Codec, sender: string, later: string, rc: AaveReceipt)
    requires Lossless(c)
    ensures var p := ReceiveExecutionReceipt(peer, c, sender, later, c.render(ForwardedReceipt(c, rc)));
            && rc.oppId in p.state.receipts
            && 2 * ParseOrZero(p.state.receipts[rc.oppId].ourProceeds) <= ParseOrZero(rc.totalProceeds)
               <= 2 * ParseOrZero(p.state.receipts[rc.oppId].ourProceeds) + 1
            && p.state.receipts[rc.oppId].receipt == c.render(JString(c.render(ReceiptToJson(rc))))
  {
    var m := ForwardedReceipt(c, rc);
    assert c.parse(c.render(m)) == Some(m);
    ForwardedReceiptFields(c, rc);
    ForwardedReceiptProfit(c, rc);
  }

  lemma ForwardedReceiptFields(c: Codec, rc: AaveReceipt)
    ensures HasType(ForwardedReceipt(c, rc), "ExecutionReceipt")
    ensures StrOr(ForwardedReceipt(c, rc), "opp_id", "") == rc.oppId
    ensures Field(ForwardedReceipt(c, rc), "receipt") == JString(c.render(ReceiptToJson(rc)))
  {
    assert Field(ForwardedReceipt(c, rc), "opp_id") == JString(rc.oppId);
  }

  /** The forwarded breakdown reports the receipt's whole total as net profit. */
  lemma ForwardedReceiptProfit(c: Codec, rc: AaveReceipt)
    ensures ReportedNetProfit(ForwardedReceipt(c, rc)) == ParseOrZero(rc.totalProceeds)
  {
    assert Field(ForwardedReceipt(c, rc), "proceeds") == ProceedsToJson(ForwardedProceeds(rc));
  }

  /**
   * A receipt from the bot gives this node the whole total as its proceeds,
   * while each peer that receives the forwarded receipt records half of
   * that total, rounded down, and stores the receipt itself as quoted text.
   */
  lemma ForwardedReceiptHalvesAtPeers(
    s: NodeState, peer: NodeState, c: Codec, now: string, sender: string, later: string, text: string)
    requires Lossless(c)
    requires c.parse(text).Some? && HasType(c.parse(text).value, "ExecutionReceipt")
    requires ReceiptFromJson(Field(c.parse(text).value, "receipt")).Some?
    ensures var rc := ReceiptFromJson(Field(c.parse(text).value, "receipt")).value;
            var r := HandleArtemisMessage(s, c, now, text);
            var p := ReceiveExecutionReceipt(peer, c, sender, later, c.render(r.sent[0].message));
            && r.state.receipts[rc.oppId].ourProceeds == rc.totalProceeds
            && rc.oppId in p.state.receipts
            && 2 * ParseOrZero(p.state.receipts[rc.oppId].ourProceeds) <= ParseOrZero(rc.totalProceeds)
               <= 2 * ParseOrZero(p.state.receipts[rc.oppId].ourProceeds) + 1
            && c.parse(p.state.receipts[rc.oppId].receipt).Some?
            && ReceiptFromJson(c.parse(p.state.receipts[rc.oppId].receipt).value) == None
  {
    var rc := ReceiptFromJson(Field(c.parse(text).value, "receipt")).value;
    var r := HandleArtemisMessage(s, c, now, text);
    assert r.sent[0].message == ForwardedReceipt(c, rc);
    PeerReceivesForwardedReceipt(peer, c, sender, later, rc);
    QuotedTextIsNoStruct(c, c.render(ReceiptToJson(rc)));
  }

  function Pow10(n: nat): (p: nat)
    ensures p >= 1
  {
    if n == 0 then 1 else 10 * Pow10(n - 1)
  }

  lemma {:induction false} Pow10Add(a: nat, b: nat)
    ensures Pow10(a + b) == Pow10(a) * Pow10(b)
  {
    if a > 0 {
      Pow10Add(a - 1, b);
      assert Pow10(a + b) == 10 * Pow10(a - 1 + b);
    }
  }

  /** A string of n decimal digits that starts with a non-zero digit denotes at least 10^(n-1). */
  lemma {:induction false} LeadingDigitMagnitude(s: string)
    requires |s| > 0 && AllDigits(s) && s[0] != '0'
    ensures DigitsValue(s) >= Pow10(|s| - 1)
  {
    if |s| > 1 {
      var init := s[..|s| - 1];
      assert init[0] == s[0] && AllDigits(init);
      LeadingDigitMagnitude(init);
    } else {
      assert s[..0] == [];
    }
  }

  /**
   * Opportunities the bridge finds name a placeholder repay asset that
   * differs from the USDC address a node is credited with at start-up, so a
   * freshly started node never qualifies for one.
   */
  lemma FreshNodeNeverQualifiesForFoundOpportunity(
    ourNode: string, oppId: string, victim: string, account: AccountData, minProfit: nat, block: U64)
    requires block + DEADLINE_BLOCKS < U64_LIMIT
    requires CheckLiquidation(oppId, victim, account, minProfit, block).Some?
    ensures !Qualifies(Initialize(DefaultState(), ourNode), CheckLiquidation(oppId, victim, account, minProfit, block).value)
  {
    var o := CheckLiquidation(oppId, victim, account, minProfit, block).value;
    FreshNodeHoldsNoRepayAsset(ourNode);
    FreshNodeThresholdValue(ourNode);
    assert o.repayAsset == REPAY_ASSET;
    assert ParseOrZero(o.estimatedProfitUsd) <= ParseOrZero(o.maxRepayAmount);
  }

  lemma FreshNodeHoldsNoRepayAsset(ourNode: string)
    ensures Balance(Initialize(DefaultState(), ourNode), REPAY_ASSET) == 0
  {
    RepayAssetIsNotUsdc();
  }

  /** The placeholder repay asset "0xA0b86a33…" is not the USDC contract "0xA0b86991…". */
  lemma RepayAssetIsNotUsdc()
    ensures REPAY_ASSET != USDC_MAINNET
  {
    assert REPAY_ASSET[7] == 'a' && USDC_MAINNET[7] == '9';
  }

  /** The default profit threshold "10000000000000000000" is 10^19. */
  lemma FreshNodeThresholdValue(ourNode: string)
    ensures ParseOrZero(Initialize(DefaultState(), ourNode).config.minProfitThresholdUsd) >= 10_000_000_000_000_000_000
  {
    var threshold := Initialize(DefaultState(), ourNode).config.minProfitThresholdUsd;
    assert threshold == "10000000000000000000";
    assert AllDigits(threshold);
    LeadingDigitMagnitude(threshold);
    Pow10Add(10, 9);
    assert Pow10(10) == 10_000_000_000 && Pow10(9) == 1_000_000_000;
  }

  // ---------------------------------------------------------------------------
  // The simulated opportunities of the bridge's main loop

  /**
   * An opportunity asking for at most the 10,000 USDC a node is credited
   * with at start-up, in mainnet USDC, as the bridge's main loop simulates
   * them: after start-up and any `update_node_config` request the node
   * qualifies for it exactly when the estimated profit reaches its
   * configured threshold.
   */
  lemma ThresholdDecidesUsdcOpportunity(ourNode: string, c: Codec, body: string, o: AaveOpportunity)
    requires o.repayAsset == USDC_MAINNET && ParseOrZero(o.maxRepayAmount) <= 10_000_000_000
    ensures var s := UpdateNodeConfig(Initialize(DefaultState(), ourNode), c, body).state;
            Qualifies(s, o) <==> ParseOrZero(o.estimatedProfitUsd) >= ParseOrZero(s.config.minProfitThresholdUsd)
  {
    InitialUsdcAmount();
  }

  /** A freshly started node turns down every simulated opportunity: their profits (at most 180,000,000) are below 10^19. */
  lemma FreshNodeRefusesSimulatedOpportunity(ourNode: string, o: AaveOpportunity)
    requires ParseOrZero(o.estimatedProfitUsd) <= 180_000_000
    ensures !Qualifies(Initialize(DefaultState(), ourNode), o)
  {
    FreshNodeThresholdValue(ourNode);
  }

  /** Once `update_node_config` lowers the threshold to at most the estimated profit, the node qualifies. */
  lemma LoweredThresholdQualifies(ourNode: string, c: Codec, body: string, threshold: string, o: AaveOpportunity)
    requires c.parse(body) == Some(JObject(map["min_profit_threshold_usd" := JString(threshold)]))
    requires ParseU256(threshold).Some? && ParseU256(threshold).value <= ParseOrZero(o.estimatedProfitUsd)
    requires o.repayAsset == USDC_MAINNET && ParseOrZero(o.maxRepayAmount) <= 10_000_000_000
    ensures var r := UpdateNodeConfig(Initialize(DefaultState(), ourNode), c, body);
            r.reply == Done && Qualifies(r.state, o)
  {
    var u := ConfigUpdate(None, None, None, None, None, Some(threshold), None);
    assert ConfigUpdateFromJson(c.parse(body).value) == Some(u);
    ThresholdDecidesUsdcOpportunity(ourNode, c, body, o);
  }

  lemma RepayAssetDigits()
    ensures |REPAY_ASSET| == 42 && REPAY_ASSET[..2] == "0x"
    ensures REPAY_ASSET[2..] == "A0b86a33E6D66c9e4A2a1B7d4c5a5e1d4b7b14e7"
  {
    var digits := "A0b86a33E6D66c9e4A2a1B7d4c5a5e1d4b7b14e7";
    assert REPAY_ASSET == "0x" + digits;
  }

  lemma RepayDigitsAreHex()
    ensures AllHex("A0b86a33E6D66c9e4A2a1B7d4c5a5e1d4b7b14e7")
  {
  }

  /** The placeholder repay asset is a token address. */
  lemma RepayAssetIsTokenAddress()
    ensures IsAddress(REPAY_ASSET)
  {
    RepayAssetDigits();
    RepayDigitsAreHex();
  }

  /**
   * Capital added over HTTP never credits the repay asset of an opportunity
   * the bridge finds, so a freshly started node still does not qualify for
   * one after an `add_capital` request.
   */
  lemma HttpCapitalNeverFundsFoundOpportunity(
    ourNode: string, c: Codec, body: string, oppId: string, victim: string, account: AccountData, minProfit: nat, block: U64)
    requires block + DEADLINE_BLOCKS < U64_LIMIT
    requires CheckLiquidation(oppId, victim, account, minProfit, block).Some?
    ensures var o := CheckLiquidation(oppId, victim, account, minProfit, block).value;
            var s := Initialize(DefaultState(), ourNode);
            && Balance(AddCapital(s, c, body).state, o.repayAsset) == Balance(s, o.repayAsset)
            && !Qualifies(AddCapital(s, c, body).state, o)
  {
    var s := Initialize(DefaultState(), ourNode);
    RepayAssetIsTokenAddress();
    AddCapitalNeverCreditsTokenAddress(s, c, body, REPAY_ASSET);
    FreshNodeNeverQualifiesForFoundOpportunity(ourNode, oppId, victim, account, minProfit, block);
  }
}
