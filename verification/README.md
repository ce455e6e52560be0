# Hyper-MEV P2P pool: a Dafny model of the node state and the Aave decision logic

Hyper-MEV is a peer-to-peer pool of Hyperware nodes that share MEV opportunities.
A node can play three roles:

- a **finder** reports opportunities;
- a **capital provider** answers with an intent to lend;
- an **executor** hands the collected intents to an off-chain bot.

The bot is Artemis, connected over a WebSocket. It executes the liquidation and reports a receipt.
This project models two parts of the system.

1. **The per-node state of `HyperMevApp` and its handlers** (`hyper-mev/src/lib.rs`).
   - The state is one immutable `Node.NodeState`: the configuration, the peer set, the opportunity, intent and receipt stores, and the per-asset balances.
   - Every handler is a pure function (one is a method) from a state to a `Node.Step`, which holds the next state, the reply (`Done` or `Rejected(error)`) and the messages handed to the transport.
   - The HTTP endpoints are in module `Api`, the remote (P2P) handlers in `P2p`, and the WebSocket handler for the Artemis bot in `Artemis`.
2. **The decision arithmetic of the Aave v3 liquidation strategy** (`artemis-bridge/src/aave_strategy.rs`), in module `AaveStrategy`:
   - the health-factor filter that decides which positions are monitored;
   - the rule that turns an account into a liquidation opportunity;
   - the per-block scan that sends the opportunities it finds on the broadcast channel;
   - the choice of the best intent and the receipt the executor builds.

Supporting modules:

- `Wrappers` holds `Option` and `Result`.
- `Amounts` holds the decimal amount strings. Parsing an amount (`ParseU256`) and rendering one (`ToDecimal`) are proved inverse.
- `Json` holds a `serde_json::Value`-shaped datatype. Text ↔ value conversion is an opaque `Codec`. The only thing assumed of it, and only where a lemma says so, is `Lossless`: parsing what was rendered gives the value back.
- `Messages` holds the shared records and their derive-style JSON shape. A derived decoder reads a struct from an object or from an array of its fields in declaration order, and a unit variant from its name or from `{"Name": null}`. Each `...ToJson` is proved to decode back to its input.
- `Ethers` holds the ethers `U256`, which parses hexadecimal.
- `ProcessAddress` holds the Hyperware process address `node@process:package:publisher`, which `add_capital` requires of an asset.
- `Flows` holds lemmas about messages crossing from one handler to another.

Some plain facts about what the code does, each stated by a contract below:

- Evaluating an opportunity reserves no capital. `committed_amounts` is never read or written.
- Every intent submission is appended, repeats included.
- No handler compares a deadline or an expiry block with the current block.
- Fee updates are stored as given, whatever their size.
- A node receiving a receipt records half of the reported net profit, rounded down, as its share.
- Each delivery of an opportunity is evaluated again, and a qualifying one sends a fresh intent.
- Among intents with equal keys, `max_by_key` returns the last one.
- `initialize` runs on the saved state as well, so a restart keeps peers and stores but sets the USDC balance back to 10,000.
- `add_capital` accepts only assets written as Hyperware process addresses (`node@process:package:publisher`).
- Request bodies may also be JSON arrays of the fields in order: `["alice.os@hyper-mev:hyper-mev:skeleton.os", "5"]` adds 5, and seven nulls are a configuration update that changes nothing.
- The bridge sends each liquidation opportunity it finds twice on its broadcast channel.

Several behaviours of the code, each proved in the model:

- **Payloads are double-encoded.** A sender puts JSON text into a JSON string. The receiver stores `Value::to_string()` of that string, which is the text wrapped in quotes. So:
  - a peer can never decode an opportunity forwarded from the bot (`Flows.ForwardedOpportunityIsUnreadableAtPeers`);
  - an executor stores every submitted intent in a form the bridge cannot decode (`Flows.SubmittedIntentIsStoredQuoted`, `Flows.QuotedIntentsNeverExecute`).
- **Intent ids fail the address check.** The bridge checks the intent's opportunity id as an account address. Ids are 36-character UUIDs, so a decodable intent would still be refused (`AaveStrategy.UuidIntentsAreRefused`).
- **The bridge reads amounts as hexadecimal.** It parses the node's decimal amount strings with ethers' hexadecimal `U256::from_str`. For strings of at most 64 decimal digits this still ranks them in decimal order (`Ethers.HexKeyOrdersDecimals`, `AaveStrategy.BestIntentHasLargestDecimalAmount`).
- **Fresh nodes never qualify for what `check_liquidation_opportunity` finds.** Those opportunities name a placeholder repay asset, "0xA0b86a33…". A freshly started node holds only mainnet USDC, "0xA0b86991…". So it never qualifies for them (`Flows.FreshNodeNeverQualifiesForFoundOpportunity`).
- **The simulated opportunities are decided by the profit threshold.** The bridge's main loop also sends a simulated opportunity every 15 seconds. It asks for at most 3,000 of mainnet USDC, the asset a node is credited with, and estimates a profit of at most 180,000,000. For such an opportunity the node qualifies exactly when the profit reaches its threshold (`Flows.ThresholdDecidesUsdcOpportunity`). The default threshold is 10^19, so a fresh node turns them all down (`Flows.FreshNodeRefusesSimulatedOpportunity`). Once `update_node_config` lowers it far enough, the node qualifies (`Flows.LoweredThresholdQualifies`).
- **Capital cannot be added for a token.** `add_capital` parses the asset as a Hyperware process address. An ERC-20 address such as the repay asset has no '@', so it is refused, and capital added over HTTP never funds an opportunity (`Api.AddCapitalNeverCreditsTokenAddress`, `Flows.HttpCapitalNeverFundsFoundOpportunity`).

Inputs the code obtains itself become parameters:

- `our().node` → `ourNode`;
- `source().node` → `sender`;
- `current_timestamp()` → `now` / `later`;
- the current block number → `block`;
- `getUserAccountData` results → `AccountData` / `Reading`;
- the freshly generated UUID → `oppId`;
- the formatted victim address → `victim`.

## Model

| member | source | states |
|---|---|---|
| Node.Initialize | hyper-mev/src/lib.rs:242-257 | Applied to the default or a restored state, it sets the node name and the active strategy "aave-liquidation" and sets the mainnet USDC balance to "10000000000"; every other balance, the peers, the stores and the rest of the configuration are kept |
| Node.FirstStart | hyper-mev/src/lib.rs:123-150 | Starting from the derived default state, the node has no peers, empty opportunity, intent and receipt stores, and a single balance of 10,000 USDC at the mainnet USDC address; the default fees are within 10000 bps |
| Node.RestartResetsUsdc | hyper-mev/src/lib.rs:237 | On a restart from a saved state the USDC balance reads 10,000 USDC again whatever it was, and initializing twice equals initializing once |
| Node.InitialUsdcAmount | hyper-mev/src/lib.rs:253-256 | The start-up credit "10000000000" is 10,000 USDC in 6-decimal units |
| Node.GetEnabledRoles | hyper-mev/src/lib.rs:775-787 | Each role appears exactly when its flag is set, at most once, in the order Finder, CapitalProvider, Executor |
| Api.ApplyConfigUpdate | hyper-mev/src/lib.rs:313-339 | Present flags and fees are stored verbatim, absent ones keep their value; the update succeeds exactly when every present threshold parses; a bad minimum profit leaves both thresholds, a bad gas price keeps the minimum profit applied before it; node id, publisher, strategies and pool address never change; parseable thresholds stay parseable |
| Api.UpdateNodeConfig | hyper-mev/src/lib.rs:298-339 | Only the configuration changes and nothing is sent; a body that is neither an object nor an array of the seven fields, or has a mistyped field, is rejected with the state unchanged; a decoded update is applied as `Api.ApplyConfigUpdate` describes, with its outcome as the reply |
| Api.ConfigUpdateAsArray | hyper-mev/src/lib.rs:299-311 | The update written as the array of its seven fields in declaration order, absent ones as null, decodes back to it |
| Api.NullArrayUpdateIsAccepted | hyper-mev/src/lib.rs:310-339 | A body of seven nulls is accepted with the state unchanged |
| Api.ApplyConfigUpdateIdempotent | hyper-mev/src/lib.rs:313-339 | Applying the same update twice gives the configuration and reply of applying it once |
| Api.FeesAreNotRangeChecked | hyper-mev/src/lib.rs:322-327 | Any two u16 fees, far above 10000 bps included, are accepted and stored as given |
| Api.EmptyThresholdIsStored | hyper-mev/src/lib.rs:328-333 | An empty minimum-profit threshold parses as zero, so the update succeeds and stores the empty text |
| Api.FloatFeeIsRefused | hyper-mev/src/lib.rs:310-311 | A fee written as a JSON float, even an integral one, makes the body fail to decode, so the request is rejected with nothing changed |
| Api.ApplyCapitalAddition | hyper-mev/src/lib.rs:354-365 | Succeeds exactly when the asset parses as a Hyperware process address and the amount as a number (with the matching error otherwise, state unchanged); on success the asset's stored balance parses to the old balance (missing or unparseable counts as 0) plus the amount; every other asset's entry is unchanged and nothing but balances changes |
| Api.AddCapital | hyper-mev/src/lib.rs:345-366 | A body that is neither an object with string `asset` and `amount` nor a two-string array is rejected and changes nothing; a decoded one is applied as `Api.ApplyCapitalAddition` describes; only balances change, no entry is removed and at most one asset is added |
| Api.CapitalAdditionAsArray | hyper-mev/src/lib.rs:346-353 | The array `[asset, amount]` decodes to the addition |
| Api.ArrayBodyCreditsCapital | hyper-mev/src/lib.rs:351-365 | A body `[asset, amount]` with a process-address asset and a numeric amount adds the amount to the asset's balance |
| Api.CapitalAdditionsAccumulate | hyper-mev/src/lib.rs:356-365 | Two additions of numbers to one process-address asset both succeed and leave the balance at the old value plus both amounts |
| Api.EmptyAmountCreditsNothing | hyper-mev/src/lib.rs:359-365 | An empty amount parses as zero: the addition succeeds, the balance keeps its value, and the entry is rewritten as canonical decimal text |
| Api.AddCapitalNeverCreditsTokenAddress | hyper-mev/src/lib.rs:356-357 | No request changes the stored balance of an ERC-20 token address (40 hex digits, optionally after "0x") |
| ProcessAddress.JoinSplit | hyper-mev/src/lib.rs:356 | Splitting a text on a separator and joining the pieces with it gives the text back |
| ProcessAddress.FormattedAddressParses | hyper-mev/src/lib.rs:631 | The `node@process:package:publisher` form of an address, as `Address::new` builds it, parses as an address when the parts contain no separators |
| ProcessAddress.NodeProcessIsAddress | hyper-mev/src/lib.rs:356 | "alice.os@hyper-mev:hyper-mev:skeleton.os" parses as an address |
| ProcessAddress.TokenAddressIsNoProcessAddress | hyper-mev/src/lib.rs:356 | A 40-hex-digit token address never parses as a process address |
| Api.ConnectToPeer | hyper-mev/src/lib.rs:371-385 | A body that is not a JSON string is rejected; our own name is rejected with the peer set unchanged; any other peer is added to the peer set (old ∪ {peer}) and sent our announcement; only the peer set changes, and this call never adds our own name to it |
| Api.ConnectToPeerIdempotent | hyper-mev/src/lib.rs:375-383 | Connecting to the same peer twice gives the same state, reply and messages as connecting once |
| P2p.ReceiveNodeAnnouncement | hyper-mev/src/lib.rs:487-509 | Unparseable text or an undecodable node info is rejected with the state unchanged; another message type is acknowledged and ignored; otherwise the announcing node joins the peer set (even our own name) and is sent our announcement |
| P2p.Evaluate | hyper-mev/src/lib.rs:645-683 | Errors exactly when the id is unknown or an Aave opportunity's text does not decode; another strategy yields no intent; an intent is built exactly when available capital ≥ max repay and profit ≥ the minimum; that intent's amount is the canonical decimal text of the max repay (the minimum of the two), is covered by the balance, and it copies the asset, bonus and deadline as expiry |
| P2p.SubmitIntent | hyper-mev/src/lib.rs:644-687 | Evaluation changes no state (no balance is reserved); it fails exactly when the evaluation errors, and sends at most one intent message, to all known peers, exactly when an intent was built; that message carries the intent the evaluation built |
| P2p.ReceiveOpportunityBroadcast | hyper-mev/src/lib.rs:512-537 | Unparseable text is rejected and other types ignored, state unchanged; otherwise the entry under the id is replaced by the received one (last write wins, other ids untouched), and the node evaluates it exactly when it provides capital and the strategy is "aave-liquidation", with an evaluation error becoming the reply while the stored entry stays |
| P2p.RepeatedOpportunityDelivery | hyper-mev/src/lib.rs:521-532 | The same broadcast delivered twice leaves one entry under its id, the later one, and the second delivery replies and sends exactly what the first did |
| P2p.EvaluateIgnoresProvenance | hyper-mev/src/lib.rs:645-683 | Evaluation depends only on configuration, balances, peers and the stored opportunity's text and strategy, not on its sender or arrival time |
| P2p.IntentEntry | hyper-mev/src/lib.rs:545-558 | The stored intent records the sender and time, the intent member's JSON text, max_amount when it is a string and "0" otherwise, and expires_block when it is a u64 and 0 otherwise |
| P2p.FloatExpiryIsStoredAsZero | hyper-mev/src/lib.rs:548 | An expiry written as a JSON float, even an integral one, is not read as a u64 and is stored as 0 |
| P2p.RecordIntent | hyper-mev/src/lib.rs:545-559 | Exactly one entry is appended to the list for the id, earlier entries kept in order; lists of other ids are unchanged and nothing but the intent store changes |
| P2p.RepeatedIntentsAccumulate | hyper-mev/src/lib.rs:550-559 | The same submission from the same sender recorded twice yields two new entries after the earlier ones: no de-duplication |
| P2p.PlanAndExecute | hyper-mev/src/lib.rs:720-742 | An opportunity is forwarded exactly when its intent list is non-empty, it is stored and its strategy is "aave-liquidation"; each forwarded collection carries that id's whole intent list, each id once, and no state changes |
| P2p.ReceiveIntentSubmission | hyper-mev/src/lib.rs:540-572 | Unparseable text is rejected and other types ignored, state unchanged; otherwise the state becomes the one with the intent appended, and an executor then forwards exactly the forwardable opportunities of that state, a non-executor nothing |
| P2p.ProceedsShare | hyper-mev/src/lib.rs:745-750 | The share is a decimal number with 2·share ≤ net profit ≤ 2·share + 1, i.e. floor(net/2); an unparseable net profit gives "0" |
| P2p.ReceiveExecutionReceipt | hyper-mev/src/lib.rs:575-607 | Unparseable text is rejected and other types ignored, state unchanged; otherwise the entry under the id is replaced (other ids untouched) by one recording the sender, time, receipt text, and a share that is the canonical decimal text of floor(net/2) of the reported net profit, "0" when the breakdown does not decode |
| P2p.RepeatedReceiptDelivery | hyper-mev/src/lib.rs:595-600 | The same receipt delivered twice leaves one entry under its id: the later delivery's, with the same share |
| Artemis.ForwardedProceeds | hyper-mev/src/lib.rs:893-900 | The breakdown forwarded with a bot receipt reports the whole total as net profit, both fees "0", and the bot's gas cost |
| Artemis.GasUsed | hyper-mev/src/lib.rs:892 | The forwarded gas figure reads back as the receipt's gas cost when that is a u64, and is "0" otherwise |
| Artemis.HandleArtemisMessage | hyper-mev/src/lib.rs:818-930 | Unparseable text is rejected; an opportunity is stored under its own id as found by "artemis-bot" with strategy "aave-liquidation" (last write wins) and forwarded to all peers without being evaluated here; a receipt is stored with our proceeds equal to its total and forwarded to all peers; an undecodable payload is rejected with the state unchanged; any other type changes nothing |
| Artemis.ArtemisOpportunityDecodesLocally | hyper-mev/src/lib.rs:833-838 | An opportunity stored from the bot decodes back to exactly that opportunity |
| Messages.OpportunityToJson | artemis-bridge/src/types.rs:5-16 | The JSON form of an opportunity decodes back to it |
| Messages.IntentToJson | artemis-bridge/src/types.rs:18-25 | The JSON form of an intent decodes back to it |
| Messages.StatusToJson | artemis-bridge/src/types.rs:38-43 | The externally tagged form of an execution status decodes back to it |
| Messages.ReceiptToJson | artemis-bridge/src/types.rs:27-36 | The JSON form of a receipt, with its list of capital usages, decodes back to it |
| Messages.ProceedsToJson | hyper-mev/src/lib.rs:63-71 | The JSON form of a proceeds breakdown decodes back to it |
| Amounts.ToDecimal | hyper-mev/src/lib.rs:362-365 | Renders an amount as a non-empty digit string with no leading zero |
| Amounts.ParseToDecimal | hyper-mev/src/lib.rs:362-365 | Parsing the rendering of an amount gives the amount back |
| Amounts.ToDecimalInjective | hyper-mev/src/lib.rs:362-365 | Distinct amounts render differently |
| Amounts.ParseU64ToDecimal | hyper-mev/src/lib.rs:892 | An amount below 2^64 reads back through the u64 parser |
| Ethers.ParseHexU256 | artemis-bridge/src/aave_strategy.rs:188 | Succeeds exactly when the text after an optional "0x" is at most 64 hex digits, and the value is then below 2^256 |
| Ethers.HexKeyOrdersDecimals | artemis-bridge/src/aave_strategy.rs:188 | For strings of at most 64 decimal digits, comparing their hexadecimal readings agrees with comparing their decimal values |
| AaveStrategy.SyncPositions | artemis-bridge/src/aave_strategy.rs:104-124 | An account read with 0 < health factor < 2·10^18 is stored as a fresh position at the scan block; a failed read or any other health factor leaves the user's entry as it was; no position is ever removed |
| AaveStrategy.CheckLiquidation | artemis-bridge/src/aave_strategy.rs:131-173 | No opportunity when the health factor is ≥ 10^18; otherwise one exactly when total_debt/40 ≥ the minimum profit; it names the placeholder assets, a 500 bps bonus, max repay total_debt/2, profit (total_debt/2)/20 = total_debt/40 with minimum ≤ profit ≤ max repay, the health factor, and deadline block + 5 > block |
| AaveStrategy.EachFindSentTwice | artemis-bridge/src/aave_strategy.rs:167-170 | The scan's channel output is a run of equal pairs: each opportunity found goes out twice in a row |
| AaveStrategy.SendsExactlyTheFinds | artemis-bridge/src/aave_strategy.rs:243-256 | Every opportunity found before the first failed read is sent, and everything sent is such an opportunity |
| AaveStrategy.ProcessNewBlockSendsEachFindTwice | artemis-bridge/src/aave_strategy.rs:243-256 | For the monitored users in iteration order, the scan stops at the first failed read, sends each liquidation opportunity `check_liquidation_opportunity` finds before that twice in a row, and sends nothing else |
| AaveStrategy.HalfThenTwentieth | artemis-bridge/src/aave_strategy.rs:141-149 | Halving the debt and then taking a twentieth is taking a fortieth |
| AaveStrategy.LastMaxIndex | artemis-bridge/src/aave_strategy.rs:187-189 | The index chosen holds a largest key, and every later key is strictly smaller, so ties go to the last |
| AaveStrategy.BestIntent | artemis-bridge/src/aave_strategy.rs:187-189 | Selects an intent whose parsed max_amount (unparseable as 0) is ≥ every other's, and every later intent's is strictly smaller: ties go to the last |
| AaveStrategy.BestIntentHasLargestDecimalAmount | artemis-bridge/src/aave_strategy.rs:187-189 | When all amounts are decimal strings of at most 64 digits, the selected intent has the largest decimal amount |
| AaveStrategy.ExecuteWithIntents | artemis-bridge/src/aave_strategy.rs:176-216 | No receipt exactly for an empty list; otherwise the best intent must decode, its id and asset be addresses and its amount a U256, with the matching error for the first check that fails; a receipt carries the input id, status Success, the block, and one capital usage naming the best intent's submitter, asset and amount |
| AaveStrategy.UuidIntentsAreRefused | artemis-bridge/src/aave_strategy.rs:194 | A decodable best intent whose id is a 36-character UUID is refused as an invalid user address |
| Flows.ForwardedOpportunityIsUnreadableAtPeers | hyper-mev/src/lib.rs:519-527 | A peer stores a bot opportunity forwarded to it in a form that does not decode, so a capital-providing peer replies OpportunityUnparseable and sends nothing |
| Flows.SubmittedIntentIsStoredQuoted | hyper-mev/src/lib.rs:546 | The executor stores a broadcast intent with the right amount, expiry and submitter, but as quoted text that does not decode to an intent |
| Flows.QuotedIntentsNeverExecute | artemis-bridge/src/aave_strategy.rs:192 | A list of intents all stored as quoted text fails execution with InvalidIntentJson |
| Flows.PeerReceivesForwardedReceipt | hyper-mev/src/lib.rs:581-600 | A peer receiving a forwarded bot receipt records floor(total/2) as its share and the receipt as quoted text |
| Flows.ForwardedReceiptHalvesAtPeers | hyper-mev/src/lib.rs:878 | The node talking to the bot records the whole total as its proceeds while each peer records floor(total/2), and the peer's stored receipt does not decode |
| Flows.FreshNodeNeverQualifiesForFoundOpportunity | hyper-mev/src/lib.rs:254-257 | A freshly started node never qualifies for an opportunity `check_liquidation_opportunity` returns, whose repay asset is not the USDC it was credited with |
| Flows.FreshNodeThresholdValue | hyper-mev/src/lib.rs:179 | The default minimum profit "10000000000000000000" is at least 10^19 |
| Flows.ThresholdDecidesUsdcOpportunity | artemis-bridge/src/main.rs:136-163 | After start-up and any `update_node_config` request, an opportunity for at most 10,000 mainnet USDC qualifies exactly when its estimated profit reaches the configured threshold |
| Flows.FreshNodeRefusesSimulatedOpportunity | artemis-bridge/src/main.rs:138-142 | A freshly started node turns down every opportunity whose estimated profit is at most 180,000,000 |
| Flows.LoweredThresholdQualifies | hyper-mev/src/lib.rs:328-333 | After an update setting the threshold to at most the estimated profit, a freshly started node qualifies for a mainnet-USDC opportunity of at most 10,000 USDC |
| Flows.RepayAssetIsNotUsdc | artemis-bridge/src/aave_strategy.rs:158 | The placeholder repay asset differs from the mainnet USDC address |
| Flows.RepayAssetIsTokenAddress | artemis-bridge/src/aave_strategy.rs:158 | The placeholder repay asset is a well-formed ERC-20 address |
| Flows.HttpCapitalNeverFundsFoundOpportunity | hyper-mev/src/lib.rs:356-357 | After any `add_capital` request a freshly started node's balance of a found opportunity's repay asset is unchanged, and it still does not qualify for it |

## Left out

- Outbound requests, WebSocket pushes, the HTTP server, homepage registration and the WebSocket open and close handling are I/O. They appear only as the `Outbound` messages a step returns. Sending never fails in the model.
- The `Result` of `announce_to_peer` and `broadcast_intent` is not modelled. They can only fail when the process id built from the publisher does not parse, and the publisher is fixed at "skeleton.os".
- `broadcast_intent` is present only as the shape of the message it sends (`P2p.IntentMessage`).
- The HTTP getters (`get_node_status`, `get_opportunities`, `get_execution_receipts`, `get_node_config`) only read state.
- The `capabilities` list read from an announcement is only printed.
- `aave_strategy_config` is written at start-up and never read. The model does not carry it.
- `artemis_channel_id` and `http_server` are transport handles. When no bot is connected a message to the bot is dropped; the model does not track the connection.
- Timestamps, the block number, account data, log decoding, UUID generation and the formatting of the victim address are inputs.
- The tokio event loop and message dispatch of `artemis-bridge/src/main.rs` are not part of this model. Its forwarding of what the broadcast channel receives to the node is not modelled either, so that every find reaches the node twice is stated only as the channel output of `AaveStrategy.ProcessNewBlock`.
- The simulated opportunities of that loop, one of three scenarios picked by the clock every 15 seconds, are not built by the model. The `Flows` lemmas about them hold for any opportunity with their repay asset and within their bounds (repay at most 3,000,000,000, profit at most 180,000,000).
- AaveStrategy.CheckLiquidation: the send on the broadcast channel inside it is modelled in `AaveStrategy.ChannelSends`, not in `CheckLiquidation` itself, which returns only the opportunity.
- AaveStrategy.ProcessNewBlock: a failed chain read is an input (`BlockCheck.account` is `None`); the returned `Ok(vec![])` and the discarded error carry nothing, so only the channel output is modelled. The iteration order of the monitored-positions map is the order of the input.
- The look-back window `current_block - 1000` of the position scan is left out, because it only shapes the provider query.
- `serde_json` text parsing and printing are kept opaque as `Json.Codec`. An object with a repeated member, which a derived decoder refuses, has no `Json.JObject` value; whether such text parses is left to the codec. That `serde_json::to_string` of a struct equals printing its derived JSON value is taken as the meaning of `Messages.*ToJson`.
- Amounts.ParseU256: hyper-mev's `U256` is ruint's `Uint`, whose parser is not part of this model. It is modelled as a run of decimal digits with no upper bound; the run may be empty, since an empty run folds to zero. The 2^256 limit, radix prefixes and digit separators that the library also handles are left out.
- Json.JNumber: an integer outside the 64-bit range is a float in `serde_json`. The model keeps it as an integer; every reader in the node refuses it either way.
- Api.ApplyCapitalAddition: `U256` overflow of the sum is not modelled. Amounts are unbounded.
- Ethers.ParseHexU256: follows the `FromStr` of the ethers `U256` type, which is not part of this model; the empty string reads as zero.
- Amounts.IsAddress: the ethers `Address` parser of the bridge is modelled as "40 hex digits, optionally after 0x". Checksums are not checked, which matches plain `parse`.
- ProcessAddress.IsProcessAddress: follows the `FromStr` of `hyperware_process_lib::Address`, which is not part of this model: split on '@', then the second piece must split on ':' into exactly three segments. The library's own checks on the characters of a name, if any, are not modelled.
- AaveStrategy.CheckLiquidation: requires block + 5 < 2^64. The source's u64 addition would overflow beyond that.
- AaveStrategy.SyncPositions: requires the scanned users to be distinct. The source collects them into a `HashSet` first.
- P2p.PlanAndExecute: the map's iteration order is unspecified. The contract fixes which messages are sent, each id once, but not their order.
