# Verified model of the agent-based trading infrastructure

Four tokio agents share one broadcast bus: market data turns mempool transactions into signals,
strategies turn signals into trade intents, risk turns intents into validated trades, execution
turns validated trades into transactions. This project models that pipeline, the bus, the circuit
breaker, the retry loop and the calldata parser in Dafny 4.11, and proves what they keep.
`dafny verify dfyconfig.toml` checks all of it.

## What is modelled

**The pipeline** (`Pipeline.dfy` and the seven files beside it). The three agents run as a
transition system over one channel: a step is one receive, one skip over lost messages, one read or
update of shared state or one publish, and every interleaving is a run. The risk agent reads the
tracker in four separate steps, two for the rules and two for the score, as its locks allow. Agents
read their own output. They subscribe and leave in any order, lag, and can be cancelled at any
moment; monitors come and go; the exposure tracker can be settled, charged with losses and reset
from outside.

- *Capital* (`CapitalSafety`, `CapitalConservation`): tracked exposure is always the sum of the
  validated amounts plus the approval in flight minus what was settled, and everything ever
  executed stays within the position limit.
- *Limits in time* (`LossLimitStopsApprovals`, `QuietTradesScoreBelowOne`, `LateLossScoresOne`): once
  the day's losses reach their limit at most the trade already past that rule is still approved. With
  positive limits a score is always in (0, 1], and below 1 unless a loss is recorded while the trade
  is decided.
- *Provenance and nonces* (`Provenance`, `NonceDiscipline`, `NoncesDistinct`): every approval has one
  chain back to its intent, signal and strategy, every execution one approval, all in order, and the
  n-th execution carries nonce initial + n, modulo the 64-bit counter.
- *Scheduling independence* (`EachFollowsItsDeliveries`, `SchedulingIndependence`, `LargeRingNeverLags`):
  with any lag and at any moment of cancellation, each agent's output is a prefix of what the messages
  delivered to it determine. Without lag the bus at all times shows prefixes of three sequences
  computed from the signals sent since the strategy agent subscribed, and equals them at rest. Agents
  may subscribe at any time, the risk and execution agents before the first intent and approval. The
  absence of lag need not be assumed when the ring has n + 3nk slots.
- *Delivery* (`DeliveriesAreInOrder`): whatever is lost, what an agent is given is in order and without
  repetition, and every loss is counted.
- *When a pipeline can trade at all* (`CanTradeExactly`): exactly when some strategy answers some signal
  with an intent that passes every rule on an empty tracker.
- *Termination despite feedback* (`EveryScheduleComesToRest`): a weighted count of unread messages
  and pending work falls with every agent step.
- *Live endpoints* (`RunningAgentOnlyStopsByCancellation`, `AgentPublishesNeverFail`).

`Agents.dfy` has the same three agents as classes with their `start` loops, run on the bounded
ring of `Bus.dfy`. Each loop is proved equal to `LoopOf` of `AgentLoop.dfy` for the agent's reaction,
which fixes the log, the deliveries and the agent's state for any traffic; that function is proved to
compute `Reference.dfy`, the functions the scheduling theorem is about, and to leave nothing unread
when the traffic pauses. `Simulation.dfy` proves that the ring's operations are steps of the pipeline
and that a turn of each loop is a run of that agent's steps.

**The circuit breaker, twice.** `Breaker.dfy` is the class used by one task, with the clock passed
in. `BreakerTasks.dfy` is any number of tasks, each lock acquisition, access, release and atomic
operation being a step of its own. There the textbook diagram holds exactly when at most one task uses
the breaker (`DiagramHoldsIffAlone`); the surviving invariants, deadlock freedom and a step bound are
proved for all interleavings, and an operation nobody interleaves with is the sequential one
(`AloneIsSequential`).

**The calldata parser.** `Abi.dfy` is an argument decoder and encoder after the Solidity Contract
ABI Specification; `Parser.dfy` proves the fixed-offset parser refines the decoder when the path
stands directly after the heads, and with any other path offset does not.

**Arithmetic and history.** `Retry.dfy`, `Exposure.dfy`, `Rules.dfy`, `Arbitrage.dfy`,
`MarketData.dfy`, `Nonce.dfy` and `Hex.dfy`.

## Where the code and its documentation differ

The model follows the code.

- The arbitrage strategy names the zero address as both tokens
  (`crates/strategy-agent/src/strategies/arbitrage.rs:56-57`) and the sanity rule rejects equal
  tokens (`crates/risk-agent/src/rules.rs:94`). The orchestrator registers no other strategy, so its
  pipeline never validates or executes anything: `Arbitrage.ShippedPipelineNeverTrades`, a case of
  `PipelineTheorems.CanTradeExactly`. The other theorems hold for every list of deterministic strategies.
- `README.md:133` says agents drain their inbox before exiting. The loops break at the `select!`
  and leave unread messages unread, for good: `PipelineTheorems.StopDrainsNothing`,
  `StoppedReadsNothing` and `InboxIsNotDrained`.
- The comment on the half-open state promises one probe request
  (`crates/messaging/src/circuit_breaker.rs:69-72`). Every request is admitted there:
  `Breaker.HalfOpenAdmitsAll`.
- The parser assumes the path directly after the heads and never reads the path offset. Of all
  offsets, aligned or not, it agrees with the ABI on every call only at that one:
  `Parser.AgreesExactlyAtCanonicalOffset`.
- `from_hex` accepts a plus sign as the first character of a byte, because the standard library's
  radix parser does (`Hex.PlusSignsAreRead`). `Hex.DisplayOfFromHex` says for exactly which texts the
  round trip holds.
- The first backoff is not limited by `max_backoff` (`crates/messaging/src/retry.rs:46`).
  `Retry.SleepsWithinCapExactly` says when the sleeps stay within it.

## Reading choices

A float is an exact real, so an amount in ether is a real and an amount string is the integer it
parses to (0 when it does not parse, as in the source). Message ids, timestamps and logging are
erased. Counters wrap at their machine width. Fields named as history in `Pipeline.dfy` (`source`,
`released`, `at`, `missed`, `heard`, `since`) record what happened and are never read by a step.

## Model

| member | source | states |
|---|---|---|
| Bus.MessageBus.Publish | crates/messaging/src/bus.rs:31-38 | accepted into the log exactly when a receiver is alive, with the receiver count; the ring goes on holding the last capacity messages of the log |
| Bus.MessageBus.Subscribe | crates/messaging/src/bus.rs:41-45 | a new subscriber starts at the end of the log and has missed nothing |
| Bus.BusSubscriber.Recv | crates/messaging/src/bus.rs:60-73 | delivers the next message, after skipping exactly the overwritten ones; nothing is missed while the backlog fits; order, no duplicates and delivered + missed = cursor - subscription point are kept |
| Agents.RiskAgent.Handle | crates/risk-agent/src/agent.rs:61-104 | an intent is admitted against the tracked exposure, tracked and published, or leaves no trace on the bus or the tracker |
| Agents.RiskAgent.Start | crates/risk-agent/src/agent.rs:42-118 | for any traffic, lag and closing of the channel, the log, the deliveries and the tracked exposure are exactly those of the loop function |
| Agents.ExecutionAgent.Execute | crates/execution-agent/src/agent.rs:116-172 | one nonce is consumed whatever happens; signing, the dry-run switch and broadcasting decide the outcome, which reports the price and gas limit used |
| Agents.ExecutionAgent.Handle | crates/execution-agent/src/agent.rs:78-99 | exactly one result is published for a validated trade |
| Agents.ExecutionAgent.Start | crates/execution-agent/src/agent.rs:60-113 | the same, with the nonce counter |
| Agents.StrategyAgent.Handle | crates/strategy-agent/src/agent.rs:50-73 | a signal fans out to all strategies in list order |
| Agents.StrategyAgent.Start | crates/strategy-agent/src/agent.rs:33-87 | the same, with every strategy's answer published in list order |
| AgentLoop.DeliveriesCount | crates/messaging/src/bus.rs:60-73 | a loop delivers one message for every turn that finds one unread |
| AgentLoop.LoopCatchesUp | crates/risk-agent/src/agent.rs:53-115 | after any traffic enough quiet turns leave nothing unread, for every agent whose answers weigh less than what they answer |
| Agents.RiskLoopComputes | crates/risk-agent/src/agent.rs:53-115 | the loop computes the fold of the rules over the intents delivered |
| Agents.ExecutionLoopComputes | crates/execution-agent/src/agent.rs:70-110 | the loop executes the delivered trades in order under consecutive nonces |
| Agents.StrategyLoopComputes | crates/strategy-agent/src/agent.rs:42-84 | the loop publishes the strategies' answers to the delivered signals in order |
| Agents.RiskTrafficIsPublished | crates/messaging/src/bus.rs:31-38 | what the others publish is on the bus in full and in order, between the agent's approvals |
| Agents.ExecutionTrafficIsPublished | crates/messaging/src/bus.rs:31-38 | the same around the execution agent's results |
| Agents.StrategyTrafficIsPublished | crates/messaging/src/bus.rs:31-38 | the same around the strategy agent's intents |
| Agents.RiskCatchesUp | crates/risk-agent/src/agent.rs:53-115 | left alone the risk agent reads everything, its own approvals included |
| Agents.ExecutionCatchesUp | crates/execution-agent/src/agent.rs:70-110 | the same for the execution agent and its results |
| Agents.StrategyCatchesUp | crates/strategy-agent/src/agent.rs:42-84 | the same for the strategy agent and its intents |
| Simulation.PublishIsSend | crates/messaging/src/bus.rs:31-38 | publishing on the ring is sending in the pipeline |
| Simulation.SubscribeIsStep | crates/messaging/src/bus.rs:41-45 | subscribing on the ring is the pipeline's step |
| Simulation.PollIsStep | crates/messaging/src/bus.rs:60-73 | lag, message and closing are answered exactly when the pipeline's step is enabled, and the reader ends where the step leads |
| Simulation.RemoveExposureIsSettle | crates/risk-agent/src/state.rs:27-30 | removing exposure is the environment's settling step |
| Simulation.RecordLossIsStep | crates/risk-agent/src/state.rs:38-41 | recording a loss is its step |
| Simulation.ResetDailyIsStep | crates/risk-agent/src/state.rs:49-52 | and so is the daily reset |
| Simulation.RiskTurnIsRun | crates/risk-agent/src/agent.rs:53-115 | a turn of the risk agent's loop is a run of its steps |
| Simulation.ExecutionTurnIsRun | crates/execution-agent/src/agent.rs:70-110 | the same for the execution agent |
| Simulation.StrategyTurnIsRun | crates/strategy-agent/src/agent.rs:42-84 | the same for the strategy agent |
| Nonce.NonceManager.Next | crates/execution-agent/src/nonce.rs:20-22 | returns the counter and advances it at 64-bit width |
| Nonce.NonceManager.Sync | crates/execution-agent/src/nonce.rs:30-32 | sets the counter |
| Reference.NonceClosedForm | crates/execution-agent/src/nonce.rs:20-22 | after k trades the counter is initial + k modulo 2^64 |
| Reference.NoncesDistinct | crates/execution-agent/src/nonce.rs:3-6 | two trades share a nonce exactly when a multiple of 2^64 trades lies between them |
| Reference.OutcomeExactly | crates/execution-agent/src/agent.rs:128-166 | each kind of outcome happens exactly when signing, the dry-run switch and broadcasting make it happen, at the intent's own price or 30 gwei |
| Reference.DryRunNeverBroadcasts | crates/execution-agent/src/agent.rs:148-157 | a dry run never reports a broadcast, and the broadcaster's answer makes no difference to it |
| Reference.LiveRunBroadcasts | crates/execution-agent/src/agent.rs:159-171 | a live run never reports a dry run and succeeds with a hash exactly when signing and sending do |
| Reference.FireHasEveryAnswer | crates/strategy-agent/src/agent.rs:50-73 | every strategy that answers is heard, in list order, and nobody else |
| Exposure.ExposureTracker.AddExposure | crates/risk-agent/src/state.rs:21-24 | adds to the exposure |
| Exposure.ExposureTracker.RemoveExposure | crates/risk-agent/src/state.rs:27-30 | removes from the exposure, floored at zero |
| Exposure.TrackedIsReflectedWalk | crates/risk-agent/src/state.rs:21-35 | after any movements the exposure is the running balance minus its lowest point so far; never negative, never below the balance |
| Rules.SlippageRuleExact | crates/risk-agent/src/rules.rs:33-49 | the slippage rule without division or rounding: it accepts exactly when 10000 (in - out) < (max + 1) in |
| Rules.ValidateExact | crates/risk-agent/src/agent.rs:121-128 | an intent passes exactly when all five inequalities hold |
| Rules.ScoreRange | crates/risk-agent/src/agent.rs:131-146 | under any loss reading the score of an intent that fits the limits is in (0, 1], below 1 exactly when the weighted average is |
| Rules.ScoreOfValidatedIsRaw | crates/risk-agent/src/agent.rs:131-146 | for an intent that passes, the weighted average is already in (0, 1) and the clamp does nothing |
| Rules.ScoreMonotone | crates/risk-agent/src/agent.rs:131-146 | more exposure, gas or loss never lowers the score |
| Rules.ScoreWeights | crates/risk-agent/src/agent.rs:143-145 | each factor at its limit contributes its documented weight, together 1 |
| Rules.ScoreValue | crates/risk-agent/src/agent.rs:131-146 | every value of the score, with the denominators multiplied out: four, three and three parts of ten, and 1 when they come to more |
| Rules.ScoreIsAffine | crates/risk-agent/src/agent.rs:131-146 | on intents that pass, the score is affine in exposure, gas and loss with slopes 0.4, 0.3 and 0.3 over the limits |
| Rules.FirstBrokenRuleSpeaks | crates/risk-agent/src/agent.rs:121-128 | the first broken rule in the order of the checks rejects, with its own figures |
| Rules.EtherIsWei | crates/risk-agent/src/rules.rs:105-108 | an ether is 10^18 wei |
| PipelineSafety.InvStep | crates/risk-agent/src/agent.rs:53-115 | every step of every agent and of the environment keeps the whole invariant |
| PipelineTheorems.CapitalConservation | crates/risk-agent/src/agent.rs:69-95 | in every reachable state tracked exposure is validated plus in flight minus settled, and within the limit |
| PipelineTheorems.CapitalSafety | crates/risk-agent/src/rules.rs:7-22 | without settlements the total ever executed is at most the total validated, which is at most the position limit |
| PipelineTheorems.CapitalSafetyWithSettlement | crates/risk-agent/src/state.rs:21-30 | with settlements the limit is exceeded by no more than what they released |
| PipelineTheorems.EveryValidatedTradePassed | crates/risk-agent/src/agent.rs:69-92 | every validated trade on the bus would pass all five rules on an empty tracker and carries a score in (0, 1], whatever happened to the tracker meanwhile |
| PipelineLimits.LossLimitStopsApprovals | crates/risk-agent/src/rules.rs:65-74 | once the day's losses reach the limit nothing is approved until they are reset, except a trade already past that rule |
| PipelineLimits.ScoreOfNextTrade | crates/risk-agent/src/agent.rs:131-146 | the score about to be published is below 1 exactly when the average of what was read is; a loss below its limit suffices, four times the limit excludes it |
| PipelineLimits.QuietTradesScoreBelowOne | crates/risk-agent/src/agent.rs:69-83 | trades decided while no loss is recorded score strictly between 0 and 1 |
| PipelineLimits.LateLossScoresOne | crates/risk-agent/src/agent.rs:69-83 | under every configuration a loss recorded between rule and score takes an admissible intent's score to 1 |
| PipelineTheorems.Provenance | crates/execution-agent/src/agent.rs:78-99 | one chain (signal, strategy, intent) for every approval and one approval for every execution, as strictly increasing sequences |
| PipelineTheorems.NonceDiscipline | crates/execution-agent/src/agent.rs:121-134 | the k-th result was built under nonce initial + k, and the counter counts results plus the one in flight |
| PipelineTheorems.ExecutedOutcomes | crates/execution-agent/src/agent.rs:128-171 | every result on the bus reports what signing, the dry-run switch and broadcasting made of its trade under its nonce |
| PipelineTheorems.RunningAgentOnlyStopsByCancellation | crates/messaging/src/bus.rs:60-73 | a running agent's own endpoints keep the channel alive, so it never sees it closed and stops only by cancellation |
| PipelineTheorems.AgentPublishesNeverFail | crates/risk-agent/src/agent.rs:94-97 | no publish of an agent is lost, whoever else leaves |
| PipelineTheorems.StopDrainsNothing | crates/execution-agent/src/agent.rs:72-75 | stopping leaves exactly what was unread unread, and nothing only when the agent had read to the end |
| PipelineTheorems.StoppedReadsNothing | crates/execution-agent/src/agent.rs:72-75 | what an agent has not read when it stops it never reads |
| PipelineTheorems.InboxIsNotDrained | crates/execution-agent/src/agent.rs:72-75 | any agent can stop with any number of messages unread |
| PipelineTheorems.CanTradeExactly | crates/risk-agent/src/agent.rs:121-128 | something can be validated, and something executed, exactly when some strategy's answer passes every rule on an empty tracker |
| PipelineTheorems.SameTokenNeverTrades | crates/risk-agent/src/rules.rs:94-98 | so strategies that trade a token for itself never get anything validated or executed |
| PipelineTermination.StepDecreases | crates/execution-agent/src/agent.rs:70-110 | every agent step, lag skips included, lowers the weighted backlog |
| PipelineTermination.BoundedWork | crates/risk-agent/src/agent.rs:53-115 | no run of agent steps is longer than the backlog it starts with |
| PipelineTermination.StuckIffQuiescent | crates/strategy-agent/src/agent.rs:42-84 | no agent can step exactly when each has stopped or has read and answered everything |
| PipelineTermination.RunToQuiescence | crates/strategy-agent/src/agent.rs:42-84 | from every state the agents can come to rest |
| PipelineTermination.EveryScheduleComesToRest | crates/execution-agent/src/agent.rs:70-110 | from any reachable state every schedule of the agents is bounded, and ends at rest |
| PipelineDelivery.DeliveriesAreInOrder | crates/messaging/src/bus.rs:60-73 | in every reachable state an agent was given messages at strictly increasing positions since its subscription, and delivered plus missed is the way its cursor went |
| PipelineDelivery.HeardAllFromInit | crates/messaging/src/bus.rs:60-73 | without lag it was given every message up to its cursor |
| PipelineDeterminism.FollowStep | crates/risk-agent/src/agent.rs:61-104 | every step in which nobody else moves the tracker keeps what is written equal to what the messages heard so far determine, lag and cancellation included |
| PipelineDeterminism.EachFollowsItsDeliveries | crates/risk-agent/src/agent.rs:61-104 | with any lag and cancellation, each agent's output is a prefix of what its deliveries determine, and between two messages all of it |
| PipelineDeterminism.EachFollowsItsInput | crates/risk-agent/src/agent.rs:61-104 | without lag each agent's output is a prefix of what was sent since it subscribed determines, cancelled or not, and at rest all of it |
| PipelineDeterminism.SchedulingIndependence | crates/execution-agent/src/agent.rs:78-99 | intents, approvals and executions are prefixes of what the signals since the strategy agent's subscription determine, cancelled or not, and all of it at rest |
| PipelineDeterminism.SubscribedFirstIsInTime | crates/messaging/src/bus.rs:41-45 | subscribing before anything is published is in time, and then every signal counts |
| PipelineDeterminism.SameSignalsSameExecutions | crates/execution-agent/src/agent.rs:78-99 | two schedules that sent the strategies the same signals end with the same executions, exposure and nonce |
| PipelineDeterminism.LargeRingNeverLags | crates/messaging/src/bus.rs:19-24 | with n signals and k strategies a ring of n + 3nk slots never lags, whenever the agents subscribe |
| Breaker.CircuitBreaker.AllowRequest | crates/messaging/src/circuit_breaker.rs:47-74 | admits in Closed and HalfOpen, and in Open exactly from the timeout after the failure on, moving to HalfOpen then |
| Breaker.CircuitBreaker.RecordSuccess | crates/messaging/src/circuit_breaker.rs:77-87 | closes and clears the count only from HalfOpen |
| Breaker.CircuitBreaker.RecordFailure | crates/messaging/src/circuit_breaker.rs:90-116 | counts, stamps, and opens from HalfOpen or at the threshold |
| Breaker.CircuitBreaker.Reset | crates/messaging/src/circuit_breaker.rs:131-135 | closes and clears the count |
| Breaker.CallsChangeExactly | crates/messaging/src/circuit_breaker.rs:47-135 | for every call, exactly which of state, counters and failure time change, when and to what |
| Breaker.OpenAnswersExactly | crates/messaging/src/circuit_breaker.rs:51-67 | an Open breaker admits exactly from failure + timeout on, at once when the timeout is zero, and never without a failure |
| Breaker.ClosedCountsFailures | crates/messaging/src/circuit_breaker.rs:90-116 | Closed means the count is the failures since the last closing, below the threshold |
| Breaker.TripsExactlyAtThreshold | crates/messaging/src/circuit_breaker.rs:104-106 | a failure trips Closed exactly when it is the threshold-th since the last closing |
| Breaker.AmortisedTrips | crates/messaging/src/circuit_breaker.rs:96-113 | failures pay for trips: threshold for each from Closed, one for each from HalfOpen |
| Breaker.TripsAreCounted | crates/messaging/src/circuit_breaker.rs:101-107 | the trip counter is the number of trips, and the failure time that of the latest failure |
| Breaker.BookCounts | crates/messaging/src/circuit_breaker.rs:90-116 | the failures and trips of the accounting are the numbers of failing calls and of calls that open the breaker from either side |
| Breaker.OpenRefusesUntilTimeout | crates/messaging/src/circuit_breaker.rs:51-67 | Open stays Open while requests come less than the timeout after the latest failure before them, and then admits exactly from the timeout after the latest failure of all |
| Breaker.OpenProbesAfterTimeout | crates/messaging/src/circuit_breaker.rs:51-67 | in any history an Open breaker admits exactly from the timeout after the latest failure on |
| Breaker.ZeroTimeoutNeverRefuses | crates/messaging/src/circuit_breaker.rs:51-67 | with a timeout of zero no request is ever refused |
| Breaker.HalfOpenAdmitsAll | crates/messaging/src/circuit_breaker.rs:69-72 | HalfOpen admits every request, however many |
| BreakerTasks.InvStep | crates/messaging/src/circuit_breaker.rs:47-135 | every step of any task keeps the surviving invariants |
| BreakerTasks.NotClosedHasFailureTime | crates/messaging/src/circuit_breaker.rs:92-107 | a breaker that is not Closed has a failure time |
| BreakerTasks.NeverTripsEarly | crates/messaging/src/circuit_breaker.rs:90-107 | Closed is never left before the threshold of failures was recorded |
| BreakerTasks.NeverRefusesEarly | crates/messaging/src/circuit_breaker.rs:47-74 | and no request is refused before that |
| BreakerTasks.TimeReadDecides | crates/messaging/src/circuit_breaker.rs:51-67 | in any interleaving a request that saw Open is refused exactly within the timeout of the failure time it then reads |
| BreakerTasks.TripsCountOpens | crates/messaging/src/circuit_breaker.rs:99-107 | the trip counter counts the writes of Open whenever the state lock is free of writers |
| BreakerTasks.HistoriesCount | crates/messaging/src/circuit_breaker.rs:90-116 | the recorded failures and writes of Open are counted one by one as they happen |
| BreakerTasks.LocksExactly | crates/messaging/src/circuit_breaker.rs:48-60 | a lock is granted for reading exactly while nobody writes, and for writing exactly while nobody holds it |
| BreakerTasks.DeadlockFree | crates/messaging/src/circuit_breaker.rs:48-60 | some task can step, under any order of granting the locks |
| BreakerTasks.OperationsEnd | crates/messaging/src/circuit_breaker.rs:47-135 | the operations under way end within a bounded number of steps |
| BreakerTasks.AloneIsSequential | crates/messaging/src/circuit_breaker.rs:47-135 | an operation nobody interleaves with has the effect and the answer of the sequential one |
| BreakerTasks.ClosedCanBecomeHalfOpen | crates/messaging/src/circuit_breaker.rs:48-60 | under every policy, as soon as there are two tasks, a stale read lets one write HalfOpen over a closed breaker |
| BreakerTasks.DiagramHoldsIffAlone | crates/messaging/src/circuit_breaker.rs:47-135 | under every policy the textbook diagram holds in every interleaving exactly when there is at most one task |
| Abi.BytesRoundTrip | crates/market-data-agent/src/parser.rs:158-163 | reading a big-endian number back |
| Abi.DecodeInvertsEncode | crates/market-data-agent/src/parser.rs:71-82 | decoding inverts encoding for every argument list, ignoring trailing bytes |
| Parser.LowHalf | crates/market-data-agent/src/parser.rs:158-163 | the parsed amount is the word modulo 2^128 |
| Parser.CleanAddress | crates/market-data-agent/src/parser.rs:150-154 | the parsed address is the word, when its high bytes are clean |
| Parser.V2ParserRefinesAbi | crates/market-data-agent/src/parser.rs:83-115 | a swap in clean words is found exactly when the ABI decodes a path of two or more, with the same ends and amount |
| Parser.V2ParseInvertsEncode | crates/market-data-agent/src/parser.rs:83-115 | parsing inverts encoding for every path length and any trailing bytes |
| Parser.LaterPathIsMissed | crates/market-data-agent/src/parser.rs:93-102 | with any path offset behind the heads a well-formed call is missed |
| Parser.EarlierPathIsInvented | crates/market-data-agent/src/parser.rs:93-115 | with any path offset inside the heads a swap is found where the ABI decodes no path |
| Parser.AgreesExactlyAtCanonicalOffset | crates/market-data-agent/src/parser.rs:83-115 | of all path offsets, parser and decoder agree on every call exactly at 0xa0 |
| Parser.V3ParserRefinesAbi | crates/market-data-agent/src/parser.rs:128-146 | the same for the static tuple of exactInputSingle |
| Parser.OnlyKnownSelectorsAreSwaps | crates/market-data-agent/src/parser.rs:61-68 | nothing is a swap but calldata of at least 260 bytes behind one of the three selectors, each with its exchange |
| Parser.OverflowsExactly | crates/market-data-agent/src/parser.rs:93-105 | the last offset leaves the machine's range exactly when 196 + 32 times the length's low 64 bits does |
| Parser.TypeRanges | crates/market-data-agent/src/parser.rs:150-154 | an address holds 160 bits and a number 256 |
| Retry.RetryWithBackoff | crates/messaging/src/retry.rs:37-80 | calls 0, 1, ..., up to the first success or the last retry, returns that outcome, sleeps by the recurrence; the final unwrap never fails |
| Retry.LastAttemptExact | crates/messaging/src/retry.rs:49-79 | there is one last attempt: the first success if the retries reach it, and otherwise the last retry |
| Retry.SleepClosedForm | crates/messaging/src/retry.rs:66-70 | the first sleep is the initial one, the k-th is min(initial m^k, max) |
| Retry.SleepExactly | crates/messaging/src/retry.rs:66-70 | the grown sleep while it is at most the cap, and the cap otherwise |
| Retry.WaitAtMostGeometric | crates/messaging/src/retry.rs:66-70 | with doubling, n sleeps wait at most initial (2^n - 1) |
| Retry.WaitIsGeometricBelowCap | crates/messaging/src/retry.rs:66-70 | while the cap is not reached the geometric bound is the exact wait |
| Retry.SleepsAddUp | crates/messaging/src/retry.rs:61-70 | the wait is the sum of the sleeps the loop makes |
| Retry.WaitAtMostCapped | crates/messaging/src/retry.rs:66-70 | and n + 1 sleeps at most initial + n max |
| Retry.SleepsWithinCapExactly | crates/messaging/src/retry.rs:46-70 | the sleeps stay within the cap exactly when there are none or the initial one does |
| MarketData.PriceTracker.UpdatePrice | crates/market-data-agent/src/price_tracker.rs:21-24 | inserts the quote under its pair |
| MarketData.PriceTracker.DetectDivergence | crates/market-data-agent/src/price_tracker.rs:39-77 | an answer exactly when both quotes are there and positive and lie more than the threshold apart, and then their spread |
| MarketData.DivergenceExactly | crates/market-data-agent/src/price_tracker.rs:39-77 | the same of the function, without division |
| MarketData.LookupFindsLastQuote | crates/market-data-agent/src/price_tracker.rs:21-30 | after any updates a lookup finds the last quote for that key |
| MarketData.DivergenceSymmetric | crates/market-data-agent/src/price_tracker.rs:39-77 | divergence does not depend on the order of the exchanges |
| MarketData.GrowthCompounds | crates/market-data-agent/src/price_tracker.rs:69-70 | of three prices the largest ratio is the product of the other two |
| MarketData.WideSpreadShowsTwice | crates/market-data-agent/src/price_tracker.rs:69-76 | a spread above 2t + t²/10000 forces two pairs above t |
| MarketData.WideQuotesAreReportedTwice | crates/market-data-agent/src/agent.rs:120-161 | quotes that stay the same during the three lookups and spread by more than 100.25 bps give at least two divergences |
| MarketData.SteadyQuotesAreReportedExactly | crates/market-data-agent/src/agent.rs:120-161 | steady quotes are reported exactly pair by pair: every pair more than 50 bps apart, in order, with its exchanges and spread |
| MarketData.CloseQuotesGoUnreported | crates/market-data-agent/src/agent.rs:120-161 | nothing is reported exactly when all three pairs are within 50 bps |
| MarketData.ChangingQuotesGoUnreported | crates/market-data-agent/src/agent.rs:133-139 | with updates between the lookups, quotes that are wide at every one of them can give none |
| MarketData.MarketDataAgent.ProcessTransaction | crates/market-data-agent/src/agent.rs:89-118 | publishes the swap and then its divergences, each seen by its own lookup, or nothing |
| MarketData.TransactionSignals | crates/market-data-agent/src/agent.rs:89-161 | at most four messages per transaction, all of them signals |
| MarketData.TransactionSignalsExactly | crates/market-data-agent/src/agent.rs:89-118 | nothing for other selectors; for a swap its exchange, its value in ether and its transaction, and then the divergences of its token pair |
| Arbitrage.RoundingsAgree | crates/strategy-agent/src/strategies/arbitrage.rs:49-52 | the risk agent recomputes exactly the integer spread the strategy put into the minimum output |
| Arbitrage.EvaluatesExactly | crates/strategy-agent/src/strategies/arbitrage.rs:32-73 | the strategy answers exactly divergences of at least the minimum profit, and with which intent |
| Arbitrage.AmountWeiExactly | crates/strategy-agent/src/strategies/arbitrage.rs:47-48 | the amount is the configured ether in wei, rounded down and kept in range |
| Arbitrage.MinOutRoundsDown | crates/strategy-agent/src/strategies/arbitrage.rs:49-52 | for any spread the minimum output is the rest of the amount, rounded down and never negative |
| Arbitrage.SlippageRuleSeesSpread | crates/risk-agent/src/rules.rs:33-49 | so a divergence intent passes the slippage rule exactly when its spread is within the limit |
| Arbitrage.ShippedPipelineNeverTrades | crates/orchestrator/src/main.rs:129-132 | with the registered strategy nothing is ever validated or executed |
| Hex.Display | crates/common/src/types.rs:8-16 | the prefix and two lower-case digits per byte |
| Hex.FromHexOfDisplay | crates/common/src/types.rs:23-32 | reading what was displayed gives the value back, with or without the prefix |
| Hex.DisplayOfFromHex | crates/common/src/types.rs:49-59 | displaying what was read gives the text back exactly for prefixed lower-case text of the right length |
| Hex.FailuresExactly | crates/common/src/types.rs:23-32 | reading fails for the wrong length, and else exactly for a pair that stands for no byte |
| Hex.PlusSignsAreRead | crates/common/src/types.rs:104-112 | texts of plus signs and digits are read though nothing is displayed like that |
| Hex.DigitsMean | crates/common/src/types.rs:104-112 | the digits and their values, in either case |
| Hex.DecodeReadsPairs | crates/common/src/types.rs:104-112 | text is read exactly when every pair of characters is, the first digit of each being the high one |

## Left out

- Floating-point rounding, NaN and infinity: every float is an exact real, and a zero limit in the risk score, which divides by zero in the source, scores 0.
- Amount strings beyond decimal integers (exponents, fractions): an amount is the integer it parses to.
- Tokio internals: the broadcast channel is its documented contract with the capacity it was really given, and waiting is a step that is not enabled.
- Messages other than signals published from outside the agents: only the agents publish intents, approvals and executions in `Pipeline.dfy`.
- PipelineDeterminism.SchedulingIndependence: composes the three agents when the risk agent subscribes before the first intent and the execution agent before the first approval; an agent that comes later hears less, and `EachFollowsItsInput` says what it makes of that. That all of it is published at rest is said of runs nobody cancelled.
- Agents.RiskAgent.Start: the other tasks' publications are a parameter, one batch before each turn, and nobody else moves the tracker; true interleaving is in `Pipeline.dfy`.
- Exposure added to the tracker from outside through `tracker()` (`crates/risk-agent/src/agent.rs:36`): the environment settles, records losses and resets, and only the risk agent adds.
- PipelineTheorems.EveryValidatedTradePassed: the exposure and daily loss rules depend on the tracker at the moment they are asked; over a run they are stated as `CapitalSafety` and `LossLimitStopsApprovals`.
- Nonce synchronisation during a run: `Nonce.NonceManager.Sync` exists but no pipeline step calls it.
- Weak memory: the relaxed atomics of the breaker are interleaved sequentially.
- Parser.V2ParserRefinesAbi: assumes the canonical layout (path offset 0xa0, length word below 2^58); above that machine offsets are not mathematical ones, and the outcome `Overflow` stands for the panic or wrap-around of the build.
- Nested ABI types, fixed-size arrays and byte strings: `Abi.dfy` has words and dynamic arrays of words, which the router calls use.
- Retry.SleepClosedForm: needs a multiplier of at least 1, which the constructors fix at 2; the recurrence itself is proved for every multiplier.
- Non-ASCII text in `from_hex`: slicing inside a character panics in the source.
- Transaction JSON, gas estimation, signing and broadcasting: abstract deterministic functions; that a dry run still hands the transaction to its broadcaster, for the log, is not visible.
- RPC clients, configuration loading, logging, ids and timestamps, and the orchestrator's wiring beyond its strategy list.
- Price staleness and a production price oracle: the source has neither.
