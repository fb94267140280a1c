/**
  What a reader of the bus can rely on in every reachable state of the pipeline.
 */
module PipelineTheorems {
  import opened Types
  import opened Log
  import opened Rules
  import opened Reference
  import opened Pipeline
  import opened PipelineSafety
  import opened PipelineDelivery
  import opened PipelineReach

  // --- capital ---

  /** Tracked exposure is exactly what was validated, plus the approval in flight, minus what was settled. */
  lemma CapitalConservation(sys: System, s: State)
    requires Reachable(sys, s)
    ensures TotalEth(Project(AsValidated, s.log)) + InFlightEth(s.risk.pc) == s.risk.exposure + s.risk.released
    ensures 0.0 <= s.risk.exposure <= ExposureCap(sys.config.risk)
  {
    InvReachable(sys, s);
  }

  lemma {:induction false} UnsettledRun(sys: System, s: State, steps: seq<Step>, t: State)
    requires Run(sys, s, steps, t) && forall i :: 0 <= i < |steps| ==> !steps[i].Settle?
    ensures t.risk.released == s.risk.released
    decreases |steps|
  {
    if steps != [] {
      assert Apply(sys, s, steps[0]).risk.released == s.risk.released;
      UnsettledRun(sys, Apply(sys, s, steps[0]), steps[1..], t);
    }
  }

  lemma ExecutedAtMostValidated(sys: System, s: State)
    requires ExecutedWithinValidated(s.log, s.execution) && TradesOk(sys.config.risk, s.log)
    requires !s.execution.pc.ExecutionIdle? ==> AmountEth(s.execution.pc.trade.intent) > 0.0
    ensures TotalExecutedEth(Project(AsExecuted, s.log)) <= TotalEth(Project(AsValidated, s.log))
  {
    SkippingValidatedOnlyAdds(sys.config.risk, s.log, s.execution.ep.cursor, |s.log|);
    assert s.log[..|s.log|] == s.log;
    if !s.execution.pc.ExecutionIdle? {
      TotalEthNext([], s.execution.pc.trade);
    }
  }

  /** What was executed, what was validated, and the settled exposure: the limit holds up to what was released. */
  lemma CapitalSafetyWithSettlement(sys: System, s: State)
    requires Reachable(sys, s)
    ensures TotalExecutedEth(Project(AsExecuted, s.log)) <= TotalEth(Project(AsValidated, s.log))
    ensures TotalEth(Project(AsValidated, s.log)) + InFlightEth(s.risk.pc) <= ExposureCap(sys.config.risk) + s.risk.released
    ensures InFlightEth(s.risk.pc) >= 0.0
  {
    InvReachable(sys, s);
    if !s.execution.pc.ExecutionIdle? {
      assert s.log[s.execution.source[|s.execution.source| - 1]] == Validated(s.execution.pc.trade);
    }
    ExecutedAtMostValidated(sys, s);
  }

  /** Without settlements, all the trades ever executed together stay within the position limit. */
  lemma CapitalSafety(sys: System, handles: nat, steps: seq<Step>, s: State)
    requires Run(sys, Init(sys, handles), steps, s)
    requires forall i :: 0 <= i < |steps| ==> !steps[i].Settle?
    requires sys.config.risk.maxPositionSizeEth >= 0.0
    ensures TotalExecutedEth(Project(AsExecuted, s.log)) <= TotalEth(Project(AsValidated, s.log))
            <= sys.config.risk.maxPositionSizeEth
  {
    UnsettledRun(sys, Init(sys, handles), steps, s);
    CapitalSafetyWithSettlement(sys, s);
  }

  /**
    Every trade on the bus would pass all five rules on an empty tracker, and with positive limits its
    score is positive and at most 1, whatever was recorded while it was decided. What the exposure and
    loss rules amount to over a run is `CapitalSafety` and, in `PipelineLimits.dfy`, `LossLimitStopsApprovals`.
   */
  lemma EveryValidatedTradePassed(sys: System, s: State, p: nat)
    requires Reachable(sys, s) && p < |s.log| && s.log[p].Validated?
    ensures TradeOk(sys.config.risk, s.log[p].trade)
  {
    InvReachable(sys, s);
  }

  // --- provenance ---

  /** How one approval came about: which strategy answered which signal, and the intent that was approved. */
  datatype Chain = Chain(origin: Origin, intentAt: nat, validatedAt: nat)

  ghost predicate Caused(sys: System, log: seq<Message>, c: Chain) {
    Approves(log, c.intentAt, c.validatedAt) && Produced(sys, log, c.origin, c.intentAt)
  }

  /** The execution at `p` is of the trade approved at the end of the chain. */
  ghost predicate Explains(log: seq<Message>, c: Chain, p: nat) {
    c.validatedAt < p < |log| && log[p].Executed? && log[c.validatedAt] == Validated(log[p].result.trade)
  }

  ghost predicate Follows(c: Chain, d: Chain) {
    Before(c.origin, d.origin) && c.intentAt < d.intentAt && c.validatedAt < d.validatedAt
  }

  ghost predicate ProducedAt(s: State, n: nat, c: Chain) {
    && n < |Positions(AsIntent, s.log)| && n < |s.strategy.source|
    && Positions(AsIntent, s.log)[n] == c.intentAt && s.strategy.source[n] == c.origin
  }

  /** The chain that the recorded sources give for the m-th approval. */
  ghost predicate Recorded(s: State, m: nat, c: Chain) {
    && m < |Positions(AsValidated, s.log)| && m < |s.risk.source|
    && c.validatedAt == Positions(AsValidated, s.log)[m] && c.intentAt == s.risk.source[m]
    && exists n: nat :: ProducedAt(s, n, c)
  }

  lemma ChainExists(sys: System, s: State, m: nat) returns (c: Chain)
    requires Inv(sys, s) && m < |Positions(AsValidated, s.log)|
    ensures Recorded(s, m, c) && Caused(sys, s.log, c)
  {
    var intents := Positions(AsIntent, s.log);
    ProjectReads(AsIntent, s.log);
    var i, v := s.risk.source[m], Positions(AsValidated, s.log)[m];
    assert Approves(s.log, i, v);
    assert AsIntent(s.log[i]).Some?;
    var n: nat :| n < |intents| && intents[n] == i;
    c := Chain(s.strategy.source[n], i, v);
    assert ProducedAt(s, n, c);
  }

  lemma IndexOrder(at: seq<nat>, m: nat, m': nat)
    requires Increasing(at) && m < |at| && m' < |at| && at[m] < at[m']
    ensures m < m'
  {}

  lemma OriginsOrdered(sys: System, log: seq<Message>, agent: StrategyState, n: nat, n': nat)
    requires StrategyOk(sys, log, agent) && n < |Positions(AsIntent, log)| && n' < |Positions(AsIntent, log)|
    requires Positions(AsIntent, log)[n] < Positions(AsIntent, log)[n']
    ensures Before(agent.source[n], agent.source[n'])
  {
    ProjectReads(AsIntent, log);
    IndexOrder(Positions(AsIntent, log), n, n');
  }

  lemma ChainsOrdered(sys: System, s: State, m: nat, m': nat, c: Chain, d: Chain)
    requires Increasing(s.risk.source) && StrategyOk(sys, s.log, s.strategy)
    requires m < m' && Recorded(s, m, c) && Recorded(s, m', d)
    ensures Follows(c, d)
  {
    ProjectReads(AsValidated, s.log);
    var n: nat :| ProducedAt(s, n, c);
    var n': nat :| ProducedAt(s, n', d);
    OriginsOrdered(sys, s.log, s.strategy, n, n');
  }

  lemma {:induction false} ChainsExist(sys: System, s: State, count: nat) returns (chains: seq<Chain>)
    requires Inv(sys, s) && count <= |Positions(AsValidated, s.log)|
    ensures |chains| == count
    ensures forall m :: 0 <= m < count ==> Recorded(s, m, chains[m]) && Caused(sys, s.log, chains[m])
  {
    if count == 0 {
      chains := [];
    } else {
      var front := ChainsExist(sys, s, count - 1);
      var last := ChainExists(sys, s, count - 1);
      chains := front + [last];
    }
  }

  /** Where the elements of one increasing sequence stand in another. */
  lemma {:induction false} PlacesOf(source: seq<nat>, at: seq<nat>, count: nat) returns (places: seq<nat>)
    requires Increasing(source) && Increasing(at) && count <= |source|
    requires forall k :: 0 <= k < count ==> source[k] in at
    ensures |places| == count && Increasing(places)
    ensures forall k :: 0 <= k < count ==> places[k] < |at| && at[places[k]] == source[k]
  {
    if count == 0 {
      places := [];
    } else {
      var front := PlacesOf(source, at, count - 1);
      var last: nat :| last < |at| && at[last] == source[count - 1];
      forall k | 0 <= k < count - 1 ensures front[k] < last {
        IndexOrder(at, front[k], last);
      }
      places := front + [last];
    }
  }

  /** Every execution's recorded source is an approval. */
  lemma SourceIsApproval(sys: System, s: State, k: nat)
    requires Inv(sys, s) && k < |Positions(AsExecuted, s.log)|
    ensures k < |s.execution.source| && s.execution.source[k] in Positions(AsValidated, s.log)
    ensures Executes(sys, s.log, s.execution.source[k], Positions(AsExecuted, s.log)[k], k)
  {
    assert Executes(sys, s.log, s.execution.source[k], Positions(AsExecuted, s.log)[k], k);
    assert AsValidated(s.log[s.execution.source[k]]).Some?;
    ProjectReads(AsValidated, s.log);
  }

  lemma ApprovalsTaken(sys: System, s: State) returns (taken: seq<nat>)
    requires Inv(sys, s)
    ensures |taken| == |Positions(AsExecuted, s.log)| <= |s.execution.source| && Increasing(taken)
    ensures forall k :: 0 <= k < |taken| ==>
                          && taken[k] < |Positions(AsValidated, s.log)|
                          && Positions(AsValidated, s.log)[taken[k]] == s.execution.source[k]
  {
    var executed, validated := Positions(AsExecuted, s.log), Positions(AsValidated, s.log);
    ProjectReads(AsValidated, s.log);
    forall k | 0 <= k < |executed| ensures s.execution.source[k] in validated {
      SourceIsApproval(sys, s, k);
    }
    taken := PlacesOf(s.execution.source, validated, |executed|);
  }

  lemma TakenExplains(sys: System, s: State, chains: seq<Chain>, taken: seq<nat>, k: nat)
    requires Inv(sys, s) && k < |taken| && taken[k] < |chains|
    requires k < |Positions(AsExecuted, s.log)| && k < |s.execution.source|
    requires chains[taken[k]].validatedAt == s.execution.source[k]
    ensures Explains(s.log, chains[taken[k]], Positions(AsExecuted, s.log)[k])
  {
    SourceIsApproval(sys, s, k);
  }

  /**
    One chain for every approval on the bus, executed or not, each link of a later chain strictly
    later; and one approval for every execution, in order, so nothing is approved or executed twice.
   */
  lemma Provenance(sys: System, s: State) returns (chains: seq<Chain>, taken: seq<nat>)
    requires Reachable(sys, s)
    ensures |chains| == |Positions(AsValidated, s.log)|
    ensures forall m :: 0 <= m < |chains| ==>
                          Caused(sys, s.log, chains[m]) && chains[m].validatedAt == Positions(AsValidated, s.log)[m]
    ensures forall m, m' :: 0 <= m < m' < |chains| ==> Follows(chains[m], chains[m'])
    ensures |taken| == |Positions(AsExecuted, s.log)| && Increasing(taken)
    ensures forall k :: 0 <= k < |taken| ==>
                          && taken[k] < |chains|
                          && Explains(s.log, chains[taken[k]], Positions(AsExecuted, s.log)[k])
  {
    InvReachable(sys, s);
    chains := ChainsExist(sys, s, |Positions(AsValidated, s.log)|);
    forall m, m' | 0 <= m < m' < |chains| ensures Follows(chains[m], chains[m']) {
      ChainsOrdered(sys, s, m, m', chains[m], chains[m']);
    }
    taken := ApprovalsTaken(sys, s);
    forall k | 0 <= k < |taken| ensures Explains(s.log, chains[taken[k]], Positions(AsExecuted, s.log)[k]) {
      TakenExplains(sys, s, chains, taken, k);
    }
  }

  ghost predicate UnderNonce(sys: System, result: ExecutionResult, k: nat) {
    result.outcome == ExecuteTrade(sys.config.execution, result.trade, NonceAt(sys.initialNonce, k))
  }

  lemma ResultsRead(sys: System, log: seq<Message>, agent: ExecutionState)
    requires ExecutionsOk(sys, log, agent)
    ensures |Project(AsExecuted, log)| == |Positions(AsExecuted, log)|
    ensures forall k :: 0 <= k < |Project(AsExecuted, log)| ==> UnderNonce(sys, Project(AsExecuted, log)[k], k)
  {
    ProjectReads(AsExecuted, log);
    forall k | 0 <= k < |Project(AsExecuted, log)| ensures UnderNonce(sys, Project(AsExecuted, log)[k], k) {
      assert Executes(sys, log, agent.source[k], Positions(AsExecuted, log)[k], k);
    }
  }

  /** The k-th result was built under nonce initial + k, and the counter is one ahead of what is built so far. */
  lemma NonceDiscipline(sys: System, s: State)
    requires Reachable(sys, s)
    ensures forall k :: 0 <= k < |Project(AsExecuted, s.log)| ==> UnderNonce(sys, Project(AsExecuted, s.log)[k], k)
    ensures s.execution.nonce ==
            NonceAt(sys.initialNonce, |Project(AsExecuted, s.log)| + Indicator(s.execution.pc.Numbered?))
  {
    ReachableExecutions(sys, s);
    ResultsRead(sys, s.log, s.execution);
  }

  /** Every result on the bus reports what signing, the dry-run switch and broadcasting made of its trade. */
  lemma ExecutedOutcomes(sys: System, s: State, k: nat)
    requires Reachable(sys, s) && k < |Project(AsExecuted, s.log)|
    ensures var result := Project(AsExecuted, s.log)[k];
            IsOutcome(sys.config.execution, result.trade, NonceAt(sys.initialNonce, k), result.outcome)
  {
    NonceDiscipline(sys, s);
    assert UnderNonce(sys, Project(AsExecuted, s.log)[k], k);
  }

  // --- endpoints ---

  lemma StopNeedsCancellation(sys: System, s: State, step: Step, role: Role)
    requires EndpointsOk(s) && Enabled(sys, s, step) && Ep(s, role).phase == Running
    ensures Ep(Apply(sys, s, step), role).phase != Running ==> step == Stop(role) && s.cancelled
    ensures s.receivers >= 1 && s.senders >= 1
  {
    if EnvironmentStep(step) {
      EnvironmentKeepsEndpoints(sys, s, step, role);
    } else if IsLoopStep(step) {
      if step.role != role {
        OthersKeepEndpoint(sys, s, step, role);
      }
    } else {
      HandlersKeepEndpoints(sys, s, step, role);
    }
  }

  /** While an agent runs, the channel it holds open never fails it: it leaves its loop by cancellation only. */
  lemma RunningAgentOnlyStopsByCancellation(sys: System, s: State, step: Step, role: Role)
    requires Reachable(sys, s) && Enabled(sys, s, step) && Ep(s, role).phase == Running
    ensures s.receivers >= 1 && s.senders >= 1
    ensures Ep(Apply(sys, s, step), role).phase != Running ==> step == Stop(role) && s.cancelled
    ensures !Enabled(sys, s, StopOnClosed(role))
  {
    ReachableEndpoints(sys, s);
    StopNeedsCancellation(sys, s, step, role);
  }

  /** No publish of an agent is ever lost: each appends its message whoever else came or went. */
  lemma AgentPublishesNeverFail(sys: System, s: State, step: Step)
    requires Reachable(sys, s) && Enabled(sys, s, step)
    ensures step.EmitIntent? ==> Apply(sys, s, step).log == s.log + [Intent(s.strategy.pc.intent)]
    ensures step.EmitValidated? ==> Apply(sys, s, step).log == s.log + [Validated(s.risk.pc.trade)]
    ensures step.EmitExecuted? ==> Apply(sys, s, step).log == s.log + [Executed(ResultOf(sys, s.execution.pc))]
  {
    ReachableEndpoints(sys, s);
  }

  // --- shutdown ---

  /** What an agent has not read when it stops it never reads: its endpoint is the same for the rest of any run. */
  lemma {:induction false} StoppedReadsNothing(sys: System, s: State, steps: seq<Step>, t: State, role: Role)
    requires Inv(sys, s) && Ep(s, role).phase == Stopped && Run(sys, s, steps, t)
    ensures Ep(t, role) == Ep(s, role) && s.log <= t.log
    decreases |steps|
  {
    if steps != [] {
      StoppedStays(sys, s, steps[0], role);
      InvStep(sys, s, steps[0]);
      StoppedReadsNothing(sys, Apply(sys, s, steps[0]), steps[1..], t, role);
    }
  }

  lemma StoppedStays(sys: System, s: State, step: Step, role: Role)
    requires EndpointsOk(s) && Ep(s, role).phase == Stopped && Enabled(sys, s, step)
    ensures Ep(Apply(sys, s, step), role) == Ep(s, role) && s.log <= Apply(sys, s, step).log
  {
    if EnvironmentStep(step) {
      EnvironmentKeepsEndpoints(sys, s, step, role);
    } else if IsLoopStep(step) {
      assert step.role != role;
      OthersKeepEndpoint(sys, s, step, role);
    } else {
      HandlersKeepEndpoints(sys, s, step, role);
    }
  }

  function UnreadCount(s: State, role: Role): int {
    |s.log| - Ep(s, role).cursor
  }

  /** Stopping reads nothing more: the inbox is empty afterwards exactly when the agent had read to the end before. */
  lemma StopDrainsNothing(sys: System, s: State, role: Role)
    requires Enabled(sys, s, Stop(role))
    ensures UnreadCount(Apply(sys, s, Stop(role)), role) == UnreadCount(s, role)
    ensures UnreadCount(Apply(sys, s, Stop(role)), role) == 0 <==> Ep(s, role).cursor == |s.log|
  {}

  lemma {:induction false} PublishMany(sys: System, s: State, signal: MarketSignal, n: nat) returns (t: State)
    requires Reachable(sys, s) && s.handles > 0 && s.receivers > 0
    ensures Reachable(sys, t) && |t.log| == |s.log| + n && t == s.(log := t.log)
    decreases n
  {
    if n == 0 {
      t := s;
    } else {
      ReachableExtends(sys, s, PublishSignal(signal));
      t := PublishMany(sys, Apply(sys, s, PublishSignal(signal)), signal, n - 1);
    }
  }

  /** Any number of messages can be left unread, by any agent. */
  lemma InboxIsNotDrained(sys: System, role: Role, signal: MarketSignal, n: nat) returns (s: State)
    ensures Reachable(sys, s) && Ep(s, role).phase == Stopped && UnreadCount(s, role) == n
  {
    var start := Init(sys, 1);
    InitReachable(sys, 1);
    ReachableExtends(sys, start, Subscribe(role));
    var listening := Apply(sys, start, Subscribe(role));
    var full := PublishMany(sys, listening, signal, n);
    ReachableExtends(sys, full, Cancel);
    var cancelled := Apply(sys, full, Cancel);
    ReachableExtends(sys, cancelled, Stop(role));
    s := Apply(sys, cancelled, Stop(role));
  }

  // --- the shipped strategy list ---

  lemma ApprovalOf(log: seq<Message>, agent: RiskState, p: nat) returns (i: nat)
    requires ApprovalsOk(log, agent) && p < |log| && log[p].Validated?
    ensures Approves(log, i, p)
  {
    ProjectReads(AsValidated, log);
    assert AsValidated(log[p]).Some?;
    var k: nat :| k < |Positions(AsValidated, log)| && Positions(AsValidated, log)[k] == p;
    i := agent.source[k];
  }

  lemma OriginOf(sys: System, log: seq<Message>, agent: StrategyState, p: nat) returns (o: Origin)
    requires StrategyOk(sys, log, agent) && p < |log| && log[p].Intent?
    ensures Produced(sys, log, o, p)
  {
    ProjectReads(AsIntent, log);
    assert AsIntent(log[p]).Some?;
    var k: nat :| k < |Positions(AsIntent, log)| && Positions(AsIntent, log)[k] == p;
    o := agent.source[k];
  }

  lemma SourceOf(sys: System, log: seq<Message>, agent: ExecutionState, p: nat) returns (v: nat)
    requires ExecutionsOk(sys, log, agent) && p < |log| && log[p].Executed?
    ensures v < p && log[v].Validated?
  {
    ProjectReads(AsExecuted, log);
    assert AsExecuted(log[p]).Some?;
    var k: nat :| k < |Positions(AsExecuted, log)| && Positions(AsExecuted, log)[k] == p;
    v := agent.source[k];
    assert Executes(sys, log, v, p, k);
  }

  ghost predicate CanValidate(sys: System) {
    exists s, p :: Reachable(sys, s) && 0 <= p < |s.log| && s.log[p].Validated?
  }

  ghost predicate CanExecute(sys: System) {
    exists s, p :: Reachable(sys, s) && 0 <= p < |s.log| && s.log[p].Executed?
  }

  /** Some strategy answers some signal with an intent that passes every rule while nothing is tracked. */
  ghost predicate HasAdmissibleAnswer(sys: System) {
    exists i: nat, signal, intent :: AnswersWith(sys, i, signal, intent) && Validate(sys.config.risk, 0.0, 0.0, intent) == Pass
  }

  lemma ValidatedHasAdmissibleAnswer(sys: System, s: State, p: nat)
    requires Reachable(sys, s) && p < |s.log| && s.log[p].Validated?
    ensures HasAdmissibleAnswer(sys)
  {
    InvReachable(sys, s);
    assert TradeOk(sys.config.risk, s.log[p].trade);
    var at := ApprovalOf(s.log, s.risk, p);
    var o := OriginOf(sys, s.log, s.strategy, at);
    assert AnswersWith(sys, o.index, s.log[o.at].signal, s.log[p].trade.intent);
  }

  lemma ExecutedWasValidated(sys: System, s: State, p: nat)
    requires Reachable(sys, s) && p < |s.log| && s.log[p].Executed?
    ensures CanValidate(sys)
  {
    InvReachable(sys, s);
    var v := SourceOf(sys, s.log, s.execution, p);
    assert Reachable(sys, s) && s.log[v].Validated?;
  }

  lemma AdmissibleAnswerSuffices(sys: System)
    requires HasAdmissibleAnswer(sys)
    ensures CanValidate(sys) && CanExecute(sys)
  {
    var i: nat, signal, intent :| AnswersWith(sys, i, signal, intent) && Validate(sys.config.risk, 0.0, 0.0, intent) == Pass;
    var validated, executed := AdmissibleIsExecuted(sys, i, signal, intent);
    assert validated.log[|validated.log| - 1].Validated?;
    assert executed.log[|executed.log| - 1].Executed?;
  }

  /**
    When a pipeline can trade at all: something can be validated, and something can be executed, exactly
    when some strategy answers some signal with an intent that passes every rule on an empty tracker.
   */
  lemma CanTradeExactly(sys: System)
    ensures CanValidate(sys) <==> HasAdmissibleAnswer(sys)
    ensures CanExecute(sys) <==> HasAdmissibleAnswer(sys)
  {
    if HasAdmissibleAnswer(sys) {
      AdmissibleAnswerSuffices(sys);
    }
    if CanExecute(sys) {
      var s, p :| Reachable(sys, s) && 0 <= p < |s.log| && s.log[p].Executed?;
      ExecutedWasValidated(sys, s, p);
    }
    if CanValidate(sys) {
      var s, p :| Reachable(sys, s) && 0 <= p < |s.log| && s.log[p].Validated?;
      ValidatedHasAdmissibleAnswer(sys, s, p);
    }
  }

  ghost predicate SameTokenOnly(strategies: seq<Strategy>) {
    forall i, signal :: 0 <= i < |strategies| && strategies[i](signal).Some? ==>
                          strategies[i](signal).value.tokenIn == strategies[i](signal).value.tokenOut
  }

  /** Strategies that only trade a token for itself never get anything validated or executed, in any run. */
  lemma SameTokenNeverTrades(sys: System, s: State, p: nat)
    requires Reachable(sys, s) && SameTokenOnly(sys.config.strategies) && p < |s.log|
    ensures !s.log[p].Validated? && !s.log[p].Executed?
  {
    assert !HasAdmissibleAnswer(sys);
    CanTradeExactly(sys);
  }
}
