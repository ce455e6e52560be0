/**
 * The decision arithmetic of the Artemis bridge's Aave v3 liquidation
 * strategy (`AaveLiquidationStrategy`): which positions are worth watching,
 * when a position yields a liquidation opportunity and what that
 * opportunity says, and how the executor picks an intent and builds a
 * receipt. Chain reads (account data, the block number) and the UUID
 * generator are inputs.
 */
module AaveStrategy {
  import opened Wrappers
  import opened Amounts
  import opened Json
  import opened Messages
  import opened Ethers

  /** A health factor of 1.0 in 18-decimal fixed point; below it a position can be liquidated. */
  const LIQUIDATION_THRESHOLD: nat := 1_000_000_000_000_000_000
  /** The placeholder debt asset every opportunity names. */
  const REPAY_ASSET: string := "0x" + "A0b86a33E6D66c9e4A2a1B7d4c5a5e1d4b7b14e7"
  /** The placeholder collateral asset (WETH) every opportunity names. */
  const SEIZE_ASSET: string := "0xC02aaA39b223FE8D0A0e5C4F27eAD9083C756Cc2"
  const ZERO_ADDRESS: string := "0x0000000000000000000000000000000000000000"
  const LIQUIDATION_BONUS_BPS: U16 := 500
  /** How many blocks an opportunity stays valid after the block it was found in. */
  const DEADLINE_BLOCKS: nat := 5

  /** The simulated execution result: the transaction hash `0x{:064x}` of 0x1234567890abcdef. */
  const SIMULATED_TX_HASH: string :=
    "0x" + "000000000000000000000000000000000000000000000000" + "1234567890abcdef"
  const SIMULATED_PROFIT_SHARE: string := "1000000000000000000"
  const SIMULATED_TOTAL_PROCEEDS: string := "2000000000000000000"
  const SIMULATED_GAS_USDC: string := "50000000"

  /** The fields of `getUserAccountData` the strategy reads. */
  datatype AccountData = AccountData(totalCollateral: nat, totalDebt: nat, healthFactor: nat)

  datatype UserPosition = UserPosition(
    user: string,
    collateralAsset: string,
    debtAsset: string,
    collateralAmount: nat,
    debtAmount: nat,
    healthFactor: nat,
    lastUpdatedBlock: U64)

  // ---------------------------------------------------------------------------
  // sync_unhealthy_positions

  /** The monitoring filter: a live position below twice the liquidation threshold. */
  predicate WorthMonitoring(healthFactor: nat) {
    0 < healthFactor < LIQUIDATION_THRESHOLD * 2
  }

  /** One user of the scan with the account data read for it, or `None` when the read failed. */
  datatype Reading = Reading(user: string, account: Option<AccountData>)

  function PositionOf(user: string, a: AccountData, block: U64): UserPosition {
    UserPosition(user, ZERO_ADDRESS, ZERO_ADDRESS, a.totalCollateral, a.totalDebt, a.healthFactor, block)
  }

  /** The reading adds or refreshes a monitored position. */
  predicate Admits(rd: Reading) {
    rd.account.Some? && WorthMonitoring(rd.account.value.healthFactor)
  }

  predicate DistinctUsers(readings: seq<Reading>) {
    forall i, j :: 0 <= i < j < |readings| ==> readings[i].user != readings[j].user
  }

  /**
   * The update loop of `sync_unhealthy_positions` over the distinct users
   * the scan found: an admitted reading stores a fresh position, anything
   * else leaves the user's entry as it was. Nothing is ever removed.
   */
  function SyncPositions(monitored: map<string, UserPosition>, readings: seq<Reading>, block: U64)
    : (r: map<string, UserPosition>)
    requires DistinctUsers(readings)
    ensures monitored.Keys <= r.Keys
    ensures forall i :: 0 <= i < |readings| && Admits(readings[i]) ==>
              readings[i].user in r
              && r[readings[i].user] == PositionOf(readings[i].user, readings[i].account.value, block)
    ensures forall u :: u in r && (u !in monitored || r[u] != monitored[u]) ==>
              WorthMonitoring(r[u].healthFactor) && r[u].user == u && r[u].lastUpdatedBlock == block
    ensures forall u :: (forall i :: 0 <= i < |readings| && Admits(readings[i]) ==> readings[i].user != u) ==>
              (u in r <==> u in monitored) && (u in monitored ==> r[u] == monitored[u])
    decreases |readings|
  {
    if |readings| == 0 then monitored
    else
      var rd := readings[0];
      var next := if Admits(rd) then monitored[rd.user := PositionOf(rd.user, rd.account.value, block)] else monitored;
      var r := SyncPositions(next, readings[1..], block);
      assert forall i :: 1 <= i < |readings| ==> readings[i] == readings[1..][i - 1];
      r
  }

  // ---------------------------------------------------------------------------
  // check_liquidation_opportunity

  /** `(total_debt / 2) / 20` is `total_debt / 40`. */
  lemma HalfThenTwentieth(d: nat)
    ensures d / 2 / 20 == d / 40
  {
    var q, r := d / 40, d % 40;
    assert d == 40 * q + r;
    assert d / 2 == 20 * q + r / 2;
  }

  /**
   * `check_liquidation_opportunity` for an account already read at block
   * `block`: a liquidatable account whose estimated profit reaches
   * `minProfit` yields an opportunity with id `oppId` for victim `victim`.
   */
  function CheckLiquidation(oppId: string, victim: string, account: AccountData, minProfit: nat, block: U64)
    : (r: Option<AaveOpportunity>)
    requires block + DEADLINE_BLOCKS < U64_LIMIT
    ensures account.healthFactor >= LIQUIDATION_THRESHOLD ==> r == None
    ensures r.Some? <==> account.healthFactor < LIQUIDATION_THRESHOLD && account.totalDebt / 40 >= minProfit
    ensures r.Some? ==>
              var o := r.value;
              && o.oppId == oppId && o.victimAddress == victim
              && o.repayAsset == REPAY_ASSET && o.seizeAsset == SEIZE_ASSET
              && ParseU256(o.maxRepayAmount) == Some(account.totalDebt / 2)
              && ParseU256(o.estimatedProfitUsd) == Some(account.totalDebt / 40)
              && minProfit <= ParseOrZero(o.estimatedProfitUsd) <= ParseOrZero(o.maxRepayAmount)
              && ParseU256(o.healthFactor) == Some(account.healthFactor)
              && o.minBonusBps == LIQUIDATION_BONUS_BPS
              && o.deadlineBlock == block + DEADLINE_BLOCKS > block
  {
    if account.healthFactor >= LIQUIDATION_THRESHOLD then None
    else
      var maxLiquidation := account.totalDebt / 2;
      var estimatedProfit := maxLiquidation / 20;
      HalfThenTwentieth(account.totalDebt);
      if estimatedProfit < minProfit then None
      else
        ParseToDecimal(maxLiquidation);
        ParseToDecimal(estimatedProfit);
        ParseToDecimal(account.healthFactor);
        Some(AaveOpportunity(
          oppId,
          victim,
          REPAY_ASSET,
          SEIZE_ASSET,
          ToDecimal(maxLiquidation),
          LIQUIDATION_BONUS_BPS,
          ToDecimal(account.healthFactor),
          block + DEADLINE_BLOCKS,
          ToDecimal(estimatedProfit)))
  }

  // ---------------------------------------------------------------------------
  // process_new_block

  /**
   * One monitored user as `process_new_block` checks it: the id the UUID
   * generator gives, the formatted address, the account data read (`None`
   * when a chain read fails), and the block number read.
   */
  datatype BlockCheck = BlockCheck(oppId: string, victim: string, account: Option<AccountData>, block: U64)

  predicate DeadlinesFit(checks: seq<BlockCheck>) {
    forall i :: 0 <= i < |checks| ==> checks[i].block + DEADLINE_BLOCKS < U64_LIMIT
  }

  /** What `check_liquidation_opportunity` returns for a user whose reads succeeded. */
  function Found(ch: BlockCheck, minProfit: nat): Option<AaveOpportunity>
    requires ch.account.Some? && ch.block + DEADLINE_BLOCKS < U64_LIMIT
  {
    CheckLiquidation(ch.oppId, ch.victim, ch.account.value, minProfit, ch.block)
  }

  /** The outcome of checking one user: `None` when a read failed (`?`), else what the check returned. */
  type Outcome = Option<Option<AaveOpportunity>>

  function OutcomeOf(ch: BlockCheck, minProfit: nat): Outcome
    requires ch.block + DEADLINE_BLOCKS < U64_LIMIT
  {
    if ch.account.None? then None else Some(Found(ch, minProfit))
  }

  /** How many users are checked before the first failed read ends the scan. */
  function Scanned(outcomes: seq<Outcome>): (n: nat)
    ensures n <= |outcomes|
    ensures forall i :: 0 <= i < n ==> outcomes[i].Some?
    ensures n < |outcomes| ==> outcomes[n].None?
  {
    if |outcomes| == 0 || outcomes[0].None? then 0
    else
      var n := 1 + Scanned(outcomes[1..]);
      assert forall i :: 1 <= i < |outcomes| ==> outcomes[i] == outcomes[1..][i - 1];
      n
  }

  /**
   * What the scan puts on the broadcast channel, in order: for each user up
   * to the first failed read, what the check found, sent once from inside
   * `check_liquidation_opportunity` and once more from the loop.
   */
  function ChannelSends(outcomes: seq<Outcome>): (sent: seq<AaveOpportunity>)
    ensures |sent| % 2 == 0 && |sent| <= 2 * Scanned(outcomes)
  {
    if |outcomes| == 0 || outcomes[0].None? then []
    else
      var head := if outcomes[0].value.Some? then [outcomes[0].value.value, outcomes[0].value.value] else [];
      head + ChannelSends(outcomes[1..])
  }

  function Outcomes(checks: seq<BlockCheck>, minProfit: nat): (r: seq<Outcome>)
    requires DeadlinesFit(checks)
    ensures |r| == |checks|
    ensures forall i :: 0 <= i < |checks| ==> r[i] == OutcomeOf(checks[i], minProfit)
  {
    seq(|checks|, i requires 0 <= i < |checks| => OutcomeOf(checks[i], minProfit))
  }

  /** `process_new_block` over the monitored users in the order the map yields them. */
  function ProcessNewBlock(checks: seq<BlockCheck>, minProfit: nat): seq<AaveOpportunity>
    requires DeadlinesFit(checks)
  {
    ChannelSends(Outcomes(checks, minProfit))
  }

  /** The sequence is a run of pairs of equal elements. */
  predicate Paired<T(==)>(s: seq<T>)
    decreases |s|
  {
    |s| == 0 || (|s| >= 2 && s[0] == s[1] && Paired(s[2..]))
  }

  /** Every opportunity is sent twice in a row. */
  lemma {:induction false} EachFindSentTwice(outcomes: seq<Outcome>)
    ensures Paired(ChannelSends(outcomes))
  {
    if |outcomes| > 0 && outcomes[0].Some? {
      EachFindSentTwice(outcomes[1..]);
      var rest := ChannelSends(outcomes[1..]);
      var sent := ChannelSends(outcomes);
      if outcomes[0].value.Some? {
        assert sent[2..] == rest;
      } else {
        assert sent == rest;
      }
    }
  }

  /**
   * Exactly the opportunities found before the first failed read are sent:
   * each of them is sent, and everything sent is one of them.
   */
  lemma {:induction false} SendsExactlyTheFinds(outcomes: seq<Outcome>)
    ensures var sent := ChannelSends(outcomes);
            && (forall k :: 0 <= k < Scanned(outcomes) && outcomes[k].value.Some? ==> outcomes[k].value.value in sent)
            && (forall j :: 0 <= j < |sent| ==>
                  exists k :: 0 <= k < Scanned(outcomes) && outcomes[k] == Some(Some(sent[j])))
  {
    if |outcomes| > 0 && outcomes[0].Some? {
      var tail := outcomes[1..];
      assert forall i :: 0 <= i < |tail| ==> tail[i] == outcomes[i + 1];
      SendsExactlyTheFinds(tail);
      var rest := ChannelSends(tail);
      var sent := ChannelSends(outcomes);
      var h := |sent| - |rest|;
      assert sent == sent[..h] + rest;
      assert Scanned(outcomes) == 1 + Scanned(tail);
      forall j | 0 <= j < |sent|
        ensures exists k :: 0 <= k < Scanned(outcomes) && outcomes[k] == Some(Some(sent[j]))
      {
        if j < h {
          assert outcomes[0] == Some(Some(sent[j]));
        } else {
          assert sent[j] == rest[j - h];
          var k :| 0 <= k < Scanned(tail) && tail[k] == Some(Some(rest[j - h]));
          assert outcomes[k + 1] == Some(Some(sent[j]));
        }
      }
    }
  }

  /**
   * In terms of the users checked: every liquidation opportunity found for a
   * user checked before the first failed read goes out twice in a row, and
   * nothing else goes out.
   */
  lemma ProcessNewBlockSendsEachFindTwice(checks: seq<BlockCheck>, minProfit: nat)
    requires DeadlinesFit(checks)
    ensures var sent := ProcessNewBlock(checks, minProfit);
            var n := Scanned(Outcomes(checks, minProfit));
            && Paired(sent)
            && (forall k :: 0 <= k < n ==> checks[k].account.Some?)
            && (n < |checks| ==> checks[n].account.None?)
            && (forall k :: 0 <= k < n && Found(checks[k], minProfit).Some? ==> Found(checks[k], minProfit).value in sent)
            && (forall j :: 0 <= j < |sent| ==> exists k :: 0 <= k < n && Found(checks[k], minProfit) == Some(sent[j]))
  {
    var outcomes := Outcomes(checks, minProfit);
    EachFindSentTwice(outcomes);
    SendsExactlyTheFinds(outcomes);
  }

  // ---------------------------------------------------------------------------
  // execute_with_intents

  /** The key intents are ranked by: `max_amount` read as an ethers `U256`, zero when that fails. */
  function AmountKey(i: IntentData): nat {
    ParseHexOrZero(i.maxAmount)
  }

  /**
   * `Iterator::max_by_key` over keys: the index of a largest key, the last
   * one when several tie.
   */
  function LastMaxIndex(keys: seq<nat>): (k: nat)
    requires |keys| > 0
    ensures k < |keys|
    ensures forall j :: 0 <= j < |keys| ==> keys[j] <= keys[k]
    ensures forall j :: k < j < |keys| ==> keys[j] < keys[k]
  {
    if |keys| == 1 then 0
    else
      var n := |keys| - 1;
      var init := keys[..n];
      var k := LastMaxIndex(init);
      assert forall j :: 0 <= j < n ==> init[j] == keys[j];
      if keys[n] >= init[k] then n else k
  }

  function AmountKeys(intents: seq<IntentData>): (keys: seq<nat>)
    ensures |keys| == |intents|
    ensures forall j :: 0 <= j < |intents| ==> keys[j] == AmountKey(intents[j])
  {
    seq(|intents|, j requires 0 <= j < |intents| => AmountKey(intents[j]))
  }

  /**
   * `max_by_key(AmountKey)`: the index of an intent with the largest key,
   * the last one when several tie.
   */
  function BestIntent(intents: seq<IntentData>): (k: nat)
    requires |intents| > 0
    ensures k < |intents|
    ensures forall j :: 0 <= j < |intents| ==> AmountKey(intents[j]) <= AmountKey(intents[k])
    ensures forall j :: k < j < |intents| ==> AmountKey(intents[j]) < AmountKey(intents[k])
  {
    LastMaxIndex(AmountKeys(intents))
  }

  /** Amounts the way the node writes them: at most 64 decimal digits. */
  predicate DecimalAmount(s: string) {
    AllDigits(s) && |s| <= MAX_HEX_DIGITS
  }

  /**
   * When every `max_amount` is a decimal amount, the hexadecimal ranking
   * still selects an intent with the largest decimal amount.
   */
  lemma BestIntentHasLargestDecimalAmount(intents: seq<IntentData>)
    requires |intents| > 0
    requires forall j :: 0 <= j < |intents| ==> DecimalAmount(intents[j].maxAmount)
    ensures forall j :: 0 <= j < |intents| ==>
              ParseOrZero(intents[j].maxAmount) <= ParseOrZero(intents[BestIntent(intents)].maxAmount)
  {
    var k := BestIntent(intents);
    forall j | 0 <= j < |intents|
      ensures ParseOrZero(intents[j].maxAmount) <= ParseOrZero(intents[k].maxAmount)
    {
      HexKeyOrdersDecimals(intents[k].maxAmount, intents[j].maxAmount);
    }
  }

  datatype ExecError = InvalidIntentJson | InvalidUserAddress | InvalidDebtAsset | InvalidDebtAmount

  /** The receipt of the simulated execution of `intent`, submitted by `submitter`. */
  function SimulatedReceipt(oppId: string, block: U64, submitter: string, intent: AaveIntent): AaveReceipt {
    AaveReceipt(
      oppId,
      ExecutionStatus.Success,
      block,
      SIMULATED_TX_HASH,
      [CapitalUsage(submitter, intent.asset, intent.maxAmount, SIMULATED_PROFIT_SHARE)],
      SIMULATED_TOTAL_PROCEEDS,
      SIMULATED_GAS_USDC)
  }

  /** The selected intent passes the checks `execute_with_intents` makes before it executes. */
  predicate Executable(i: AaveIntent) {
    IsAddress(i.oppId) && IsAddress(i.asset) && ParseHexU256(i.maxAmount).Some?
  }

  /**
   * `execute_with_intents` with the current block number `block`: no
   * receipt for an empty list; otherwise the best intent is decoded and
   * checked, and a simulated receipt is built from it.
   */
  function ExecuteWithIntents(c: Codec, oppId: string, intents: seq<IntentData>, block: U64)
    : (r: Result<Option<AaveReceipt>, ExecError>)
    ensures |intents| == 0 <==> r == Result.Success(None)
    ensures |intents| > 0 ==>
              var best := intents[BestIntent(intents)];
              match DecodeIntent(c, best.intent)
              case None => r == Failure(InvalidIntentJson)
              case Some(i) =>
                && (!IsAddress(i.oppId) ==> r == Failure(InvalidUserAddress))
                && (IsAddress(i.oppId) && !IsAddress(i.asset) ==> r == Failure(InvalidDebtAsset))
                && (IsAddress(i.oppId) && IsAddress(i.asset) && ParseHexU256(i.maxAmount).None? ==>
                      r == Failure(InvalidDebtAmount))
                && (Executable(i) <==> r.Success?)
    ensures r.Success? && r.value.Some? ==>
              var receipt := r.value.value;
              var best := intents[BestIntent(intents)];
              && receipt.oppId == oppId
              && receipt.status == ExecutionStatus.Success
              && receipt.blockNumber == block
              && |receipt.usedAmounts| == 1
              && receipt.usedAmounts[0].nodeId == best.submitterNode
              && DecodeIntent(c, best.intent).Some?
              && receipt.usedAmounts[0].amountUsed == DecodeIntent(c, best.intent).value.maxAmount
              && receipt.usedAmounts[0].asset == DecodeIntent(c, best.intent).value.asset
              && ParseHexU256(receipt.usedAmounts[0].amountUsed).Some?
  {
    if |intents| == 0 then Result.Success(None)
    else
      var best := intents[BestIntent(intents)];
      match DecodeIntent(c, best.intent)
      case None => Failure(InvalidIntentJson)
      case Some(i) =>
        if !IsAddress(i.oppId) then Failure(InvalidUserAddress)
        else if !IsAddress(i.asset) then Failure(InvalidDebtAsset)
        else if ParseHexU256(i.maxAmount).None? then Failure(InvalidDebtAmount)
        else Result.Success(Some(SimulatedReceipt(oppId, block, best.submitterNode, i)))
  }

  /**
   * Opportunity ids are hyphenated UUIDs, 36 characters long, and the
   * executor checks the intent's id as an account address: an intent that
   * decodes and carries such an id is always refused.
   */
  lemma UuidIntentsAreRefused(c: Codec, oppId: string, intents: seq<IntentData>, block: U64)
    requires |intents| > 0
    requires DecodeIntent(c, intents[BestIntent(intents)].intent).Some?
    requires |DecodeIntent(c, intents[BestIntent(intents)].intent).value.oppId| == 36
    ensures ExecuteWithIntents(c, oppId, intents, block) == Failure(InvalidUserAddress)
  {
    UuidLengthIsNotAddress(DecodeIntent(c, intents[BestIntent(intents)].intent).value.oppId);
  }
}
