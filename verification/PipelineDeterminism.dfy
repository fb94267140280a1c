/**
  Scheduling does not matter. As long as nobody else moves the tracker, what each agent has published is
  determined by what it was given, with any lag and at any moment of cancellation. Without lag the
  intents, approvals and executions on the bus are at all times prefixes of three sequences computed
  from the signals sent since the strategy agent subscribed, and once the agents are at rest they are
  those sequences. Agents may subscribe at any moment of the run.
 */
module PipelineDeterminism {
  import opened Types
  import opened Log
  import opened Rules
  import opened Reference
  import opened Pipeline
  import opened PipelineSafety
  import opened PipelineTermination
  import opened PipelineDelivery

  /** Nobody but the risk agent moves the tracker. Signals, monitors, handles, lag and cancellation come as they may. */
  predicate Undisturbed(step: Step) {
    !step.Settle? && !step.RecordLoss? && !step.ResetDaily?
  }

  ghost predicate UndisturbedRun(steps: seq<Step>) {
    forall i :: 0 <= i < |steps| ==> Undisturbed(steps[i])
  }

  /** And nobody misses a message. */
  predicate Faithful(step: Step) {
    Undisturbed(step) && !step.SkipLag?
  }

  ghost predicate FaithfulRun(steps: seq<Step>) {
    forall i :: 0 <= i < |steps| ==> Faithful(steps[i])
  }

  // --- what has been heard determines what has been written, plus what is in flight ---

  function PendingIntents(sys: System, pc: StrategyPc): seq<TradeIntent> {
    var strategies := sys.config.strategies;
    match pc
    case StrategyIdle => []
    case Scanning(_, signal, next) => if next <= |strategies| then Fire(strategies, signal, next) else []
    case Emitting(_, signal, next, _) => if next <= |strategies| then Fire(strategies, signal, next) else []
  }

  /** What is written and what is pending is what the signals read determine. */
  ghost predicate Answers(sys: System, written: seq<TradeIntent>, pc: StrategyPc, read: seq<MarketSignal>) {
    && (pc.Scanning? ==> pc.next <= |sys.config.strategies|)
    && (pc.Emitting? ==>
          && pc.next < |sys.config.strategies|
          && sys.config.strategies[pc.next](pc.signal) == Some(pc.intent))
    && written + PendingIntents(sys, pc) == StrategyOutput(sys.config.strategies, read)
  }

  ghost predicate StrategyFollows(sys: System, written: seq<TradeIntent>, agent: StrategyState) {
    Answers(sys, written, agent.pc, Project(AsSignal, agent.ep.heard))
  }

  /** The tracker and the approvals as they will stand once the intent at hand is dealt with. */
  function Outlook(config: RiskConfig, agent: RiskState, trades: seq<ValidatedTrade>): RiskRun {
    var now := RiskRun(agent.exposure, trades);
    match agent.pc
    case RiskIdle => now
    case Checking(_, intent) => Admit(config, now, 0.0, intent)
    case Fitting(_, intent) => Admit(config, now, 0.0, intent)
    case Passed(_, intent) => Admit(config, now, 0.0, intent)
    case Scoring(_, intent, _) => Admit(config, now, 0.0, intent)
    case Approved(trade) => RiskRun(agent.exposure + AmountEth(trade.intent), trades + [trade])
    case Tracked(trade) => RiskRun(agent.exposure, trades + [trade])
  }

  /** Nobody else moves the tracker, so what the rules said of the intent at hand is still so. */
  ghost predicate VerdictHolds(config: RiskConfig, agent: RiskState) {
    match agent.pc
    case Fitting(_, intent) =>
      && CheckSanity(intent) == Pass
      && CheckExposureLimit(intent, agent.exposure, config.maxPositionSizeEth) == Pass
    case Passed(_, intent) => Validate(config, agent.exposure, 0.0, intent) == Pass
    case Scoring(_, intent, exposure) =>
      Validate(config, agent.exposure, 0.0, intent) == Pass && exposure == agent.exposure
    case _ => true
  }

  ghost predicate RiskFollows(config: RiskConfig, written: seq<ValidatedTrade>, agent: RiskState) {
    && agent.dailyLoss == 0.0
    && VerdictHolds(config, agent)
    && RiskOutput(config, 0.0, 0.0, Project(AsIntent, agent.ep.heard)) == Outlook(config, agent, written)
  }

  function PendingResults(sys: System, agent: ExecutionState): seq<ExecutionResult> {
    match agent.pc
    case ExecutionIdle => []
    case Taken(trade) => [ExecutionResult(trade, ExecuteTrade(sys.config.execution, trade, agent.nonce))]
    case Numbered(trade, nonce) => [ExecutionResult(trade, ExecuteTrade(sys.config.execution, trade, nonce))]
  }

  /** What is written and what is pending is what the trades read determine. */
  ghost predicate ExecutesAll(sys: System, written: seq<ExecutionResult>, agent: ExecutionState, read: seq<ValidatedTrade>) {
    && agent.nonce == NonceAt(sys.initialNonce, |written| + Indicator(agent.pc.Numbered?))
    && written + PendingResults(sys, agent) == ExecutionOutput(sys.config.execution, sys.initialNonce, read)
  }

  ghost predicate ExecutionFollows(sys: System, written: seq<ExecutionResult>, agent: ExecutionState) {
    ExecutesAll(sys, written, agent, Project(AsValidated, agent.ep.heard))
  }

  ghost predicate AllFollow(sys: System, s: State) {
    && StrategyFollows(sys, Project(AsIntent, s.log), s.strategy)
    && RiskFollows(sys.config.risk, Project(AsValidated, s.log), s.risk)
    && ExecutionFollows(sys, Project(AsExecuted, s.log), s.execution)
  }

  // --- strategy ---

  lemma HearingAnswers(sys: System, written: seq<TradeIntent>, agent: StrategyState, m: Message,
                       read: seq<MarketSignal>, read': seq<MarketSignal>)
    requires Answers(sys, written, agent.pc, read) && agent.pc.StrategyIdle?
    requires read' == if m.Signal? then read + [m.signal] else read
    ensures Answers(sys, written, StrategyHears(agent, m).pc, read')
  {
    assert written + [] == written;
    if m.Signal? {
      StrategyOutputNext(sys.config.strategies, read, m.signal);
    }
  }

  lemma StrategyFollowsReceive(sys: System, written: seq<TradeIntent>, agent: StrategyState, m: Message)
    requires StrategyFollows(sys, written, agent) && agent.pc.StrategyIdle?
    ensures StrategyFollows(sys, written, StrategyHears(agent, m))
  {
    ProjectAppend(AsSignal, agent.ep.heard, m);
    HearingAnswers(sys, written, agent, m, Project(AsSignal, agent.ep.heard), Project(AsSignal, agent.ep.heard + [m]));
  }

  lemma StrategyFollowsEvaluate(sys: System, written: seq<TradeIntent>, s: State)
    requires StrategyFollows(sys, written, s.strategy) && s.strategy.pc.Scanning?
    ensures StrategyFollows(sys, written, EvaluateNext(sys, s).strategy)
  {}

  lemma EmittingAnswers(sys: System, written: seq<TradeIntent>, agent: StrategyState, read: seq<MarketSignal>)
    requires Answers(sys, written, agent.pc, read) && agent.pc.Emitting?
    ensures Answers(sys, written + [agent.pc.intent], AfterEmit(agent).pc, read)
  {
    var rest := PendingIntents(sys, AfterEmit(agent).pc);
    AppendAssociates(written, agent.pc.intent, rest);
    assert PendingIntents(sys, agent.pc) == [agent.pc.intent] + rest;
  }

  // --- risk ---

  lemma RiskFollowsReceive(config: RiskConfig, written: seq<ValidatedTrade>, agent: RiskState, m: Message)
    requires RiskFollows(config, written, agent) && agent.pc.RiskIdle?
    ensures RiskFollows(config, written, RiskHears(agent, m))
  {
    ProjectAppend(AsIntent, agent.ep.heard, m);
    if m.Intent? {
      RiskOutputNext(config, 0.0, 0.0, Project(AsIntent, agent.ep.heard), m.intent);
    }
  }

  lemma OutlookDecided(sys: System, s: State, step: Step, written: seq<ValidatedTrade>)
    requires Enabled(sys, s, step) && RiskDecides(step)
    requires VerdictHolds(sys.config.risk, s.risk) && s.risk.dailyLoss == 0.0
    ensures var config, risk := sys.config.risk, Apply(sys, s, step).risk;
            && VerdictHolds(config, risk) && risk.dailyLoss == 0.0 && risk.ep == s.risk.ep
            && Outlook(config, risk, written) == Outlook(config, s.risk, written)
  {}

  // --- execution ---

  lemma HearingExecutes(sys: System, written: seq<ExecutionResult>, agent: ExecutionState, m: Message,
                        read: seq<ValidatedTrade>, read': seq<ValidatedTrade>)
    requires ExecutesAll(sys, written, agent, read) && agent.pc.ExecutionIdle?
    requires read' == if m.Validated? then read + [m.trade] else read
    ensures ExecutesAll(sys, written, ExecutionHears(agent, m), read')
  {
    assert written + [] == written;
    if m.Validated? {
      ExecutionOutputNext(sys.config.execution, sys.initialNonce, read, m.trade);
    }
  }

  lemma ExecutionFollowsReceive(sys: System, written: seq<ExecutionResult>, agent: ExecutionState, m: Message)
    requires ExecutionFollows(sys, written, agent) && agent.pc.ExecutionIdle?
    ensures ExecutionFollows(sys, written, ExecutionHears(agent, m))
  {
    ProjectAppend(AsValidated, agent.ep.heard, m);
    HearingExecutes(sys, written, agent, m, Project(AsValidated, agent.ep.heard), Project(AsValidated, agent.ep.heard + [m]));
  }

  lemma NumberingExecutes(sys: System, written: seq<ExecutionResult>, agent: ExecutionState, read: seq<ValidatedTrade>)
    requires ExecutesAll(sys, written, agent, read) && agent.pc.Taken?
    ensures ExecutesAll(sys, written, agent.(pc := Numbered(agent.pc.trade, agent.nonce), nonce := NextNonce(agent.nonce)), read)
  {}

  lemma EmittingExecutes(sys: System, written: seq<ExecutionResult>, agent: ExecutionState, read: seq<ValidatedTrade>)
    requires ExecutesAll(sys, written, agent, read) && agent.pc.Numbered?
    ensures ExecutesAll(sys, written + [ResultOf(sys, agent.pc)], agent.(pc := ExecutionIdle), read)
  {
    var written' := written + [ResultOf(sys, agent.pc)];
    assert written' + [] == written';
  }

  // --- every undisturbed step ---

  lemma SentProjects(s: State, m: Message)
    requires s.receivers > 0
    ensures Project(AsIntent, Send(s, m).log) ==
            if m.Intent? then Project(AsIntent, s.log) + [m.intent] else Project(AsIntent, s.log)
    ensures Project(AsValidated, Send(s, m).log) ==
            if m.Validated? then Project(AsValidated, s.log) + [m.trade] else Project(AsValidated, s.log)
    ensures Project(AsExecuted, Send(s, m).log) ==
            if m.Executed? then Project(AsExecuted, s.log) + [m.result] else Project(AsExecuted, s.log)
  {
    ProjectAppend(AsIntent, s.log, m);
    ProjectAppend(AsValidated, s.log, m);
    ProjectAppend(AsExecuted, s.log, m);
  }

  lemma FollowEnvironment(sys: System, s: State, step: Step)
    requires AllFollow(sys, s) && Enabled(sys, s, step) && Undisturbed(step) && EnvironmentStep(step)
    ensures AllFollow(sys, Apply(sys, s, step))
  {
    if step.PublishSignal? && s.receivers > 0 {
      SentProjects(s, Signal(step.signal));
    }
  }

  lemma FollowReceive(sys: System, s: State, role: Role)
    requires AllFollow(sys, s) && Enabled(sys, s, Receive(role))
    ensures AllFollow(sys, Apply(sys, s, Receive(role)))
  {
    var m := s.log[Ep(s, role).cursor];
    match role
    case StrategyRole => StrategyFollowsReceive(sys, Project(AsIntent, s.log), s.strategy, m);
    case RiskRole => RiskFollowsReceive(sys.config.risk, Project(AsValidated, s.log), s.risk, m);
    case ExecutionRole => ExecutionFollowsReceive(sys, Project(AsExecuted, s.log), s.execution, m);
  }

  /** The state but for the agents' endpoints, and what those have heard. */
  ghost predicate SameButMoves(s: State, t: State) {
    && t.log == s.log
    && t.strategy == s.strategy.(ep := t.strategy.ep) && t.strategy.ep.heard == s.strategy.ep.heard
    && t.risk == s.risk.(ep := t.risk.ep) && t.risk.ep.heard == s.risk.ep.heard
    && t.execution == s.execution.(ep := t.execution.ep) && t.execution.ep.heard == s.execution.ep.heard
  }

  lemma LoopControlMoves(sys: System, s: State, step: Step)
    requires EndpointsOk(s) && Enabled(sys, s, step)
    requires step.Subscribe? || step.Stop? || step.StopOnClosed? || step.SkipLag?
    ensures SameButMoves(s, Apply(sys, s, step))
  {
    match step.role
    case StrategyRole =>
    case RiskRole =>
    case ExecutionRole =>
  }

  lemma FollowMoves(sys: System, s: State, t: State)
    requires AllFollow(sys, s) && SameButMoves(s, t)
    ensures AllFollow(sys, t)
  {}

  /** Subscribing, skipping and leaving change neither what was heard nor what was written. */
  lemma FollowLoopControl(sys: System, s: State, step: Step)
    requires EndpointsOk(s) && AllFollow(sys, s) && Enabled(sys, s, step)
    requires step.Subscribe? || step.Stop? || step.StopOnClosed? || step.SkipLag?
    ensures AllFollow(sys, Apply(sys, s, step))
  {
    LoopControlMoves(sys, s, step);
    FollowMoves(sys, s, Apply(sys, s, step));
  }

  lemma FollowEmitIntent(sys: System, s: State)
    requires AllFollow(sys, s) && s.strategy.pc.Emitting? && s.receivers > 0
    ensures AllFollow(sys, PublishIntent(s))
  {
    SentProjects(s, Intent(s.strategy.pc.intent));
    EmittingAnswers(sys, Project(AsIntent, s.log), s.strategy, Project(AsSignal, s.strategy.ep.heard));
  }

  lemma FollowEmitValidated(sys: System, s: State)
    requires AllFollow(sys, s) && s.risk.pc.Tracked? && s.receivers > 0
    ensures AllFollow(sys, PublishValidated(s))
  {
    SentProjects(s, Validated(s.risk.pc.trade));
  }

  lemma FollowEmitExecuted(sys: System, s: State)
    requires AllFollow(sys, s) && s.execution.pc.Numbered? && s.receivers > 0
    ensures AllFollow(sys, PublishExecuted(sys, s))
  {
    SentProjects(s, Executed(ResultOf(sys, s.execution.pc)));
    EmittingExecutes(sys, Project(AsExecuted, s.log), s.execution, Project(AsValidated, s.execution.ep.heard));
  }

  lemma FollowEmit(sys: System, s: State, step: Step)
    requires EndpointsOk(s) && AllFollow(sys, s) && Enabled(sys, s, step)
    requires step.EmitIntent? || step.EmitValidated? || step.EmitExecuted?
    ensures AllFollow(sys, Apply(sys, s, step))
  {
    match step
    case EmitIntent => FollowEmitIntent(sys, s);
    case EmitValidated => FollowEmitValidated(sys, s);
    case EmitExecuted => FollowEmitExecuted(sys, s);
  }

  lemma FollowDecide(sys: System, s: State, step: Step)
    requires AllFollow(sys, s) && Enabled(sys, s, step) && RiskDecides(step)
    ensures AllFollow(sys, Apply(sys, s, step))
  {
    OutlookDecided(sys, s, step, Project(AsValidated, s.log));
  }

  lemma FollowEvaluate(sys: System, s: State)
    requires AllFollow(sys, s) && Enabled(sys, s, Evaluate)
    ensures AllFollow(sys, Apply(sys, s, Evaluate))
  {
    StrategyFollowsEvaluate(sys, Project(AsIntent, s.log), s);
  }

  lemma FollowNumber(sys: System, s: State)
    requires AllFollow(sys, s) && Enabled(sys, s, TakeNonce)
    ensures AllFollow(sys, Apply(sys, s, TakeNonce))
  {
    NumberingExecutes(sys, Project(AsExecuted, s.log), s.execution, Project(AsValidated, s.execution.ep.heard));
  }

  lemma FollowStep(sys: System, s: State, step: Step)
    requires EndpointsOk(s) && AllFollow(sys, s) && Enabled(sys, s, step) && Undisturbed(step)
    ensures AllFollow(sys, Apply(sys, s, step))
  {
    if EnvironmentStep(step) {
      FollowEnvironment(sys, s, step);
    } else if step.Receive? {
      FollowReceive(sys, s, step.role);
    } else if step.EmitIntent? || step.EmitValidated? || step.EmitExecuted? {
      FollowEmit(sys, s, step);
    } else if RiskDecides(step) {
      FollowDecide(sys, s, step);
    } else if step.Evaluate? {
      FollowEvaluate(sys, s);
    } else if step.TakeNonce? {
      FollowNumber(sys, s);
    } else {
      FollowLoopControl(sys, s, step);
    }
  }

  lemma {:induction false} FollowRun(sys: System, s: State, steps: seq<Step>, t: State)
    requires EndpointsOk(s) && AllFollow(sys, s) && Run(sys, s, steps, t) && UndisturbedRun(steps)
    ensures EndpointsOk(t) && AllFollow(sys, t)
    decreases |steps|
  {
    if steps != [] {
      EndpointsStep(sys, s, steps[0]);
      FollowStep(sys, s, steps[0]);
      FollowRun(sys, Apply(sys, s, steps[0]), steps[1..], t);
    }
  }

  lemma InitFollows(sys: System, handles: nat)
    ensures EndpointsOk(Init(sys, handles)) && AllFollow(sys, Init(sys, handles))
  {}

  lemma FollowFromInit(sys: System, handles: nat, steps: seq<Step>, s: State)
    requires Run(sys, Init(sys, handles), steps, s) && UndisturbedRun(steps)
    ensures EndpointsOk(s) && AllFollow(sys, s)
  {
    InitFollows(sys, handles);
    FollowRun(sys, Init(sys, handles), steps, s);
  }

  // --- each agent by itself, with any lag ---

  lemma AnswersArePrefix(sys: System, written: seq<TradeIntent>, pc: StrategyPc, read: seq<MarketSignal>)
    requires Answers(sys, written, pc, read)
    ensures written <= AllIntents(sys, read)
    ensures pc.StrategyIdle? ==> written == AllIntents(sys, read)
  {
    assert written + [] == written;
  }

  lemma OutlookExtends(config: RiskConfig, agent: RiskState, trades: seq<ValidatedTrade>)
    ensures trades <= Outlook(config, agent, trades).trades
  {}

  lemma ResultsArePrefix(sys: System, written: seq<ExecutionResult>, agent: ExecutionState, read: seq<ValidatedTrade>)
    requires ExecutesAll(sys, written, agent, read)
    ensures written <= ExecutionOutput(sys.config.execution, sys.initialNonce, read)
    ensures agent.pc.ExecutionIdle? ==> written == ExecutionOutput(sys.config.execution, sys.initialNonce, read)
  {
    assert written + [] == written;
  }

  /** Published so far is a prefix of what was heard determines, and between two messages all of it. */
  ghost predicate EachFollows(sys: System, s: State) {
    var intents, trades, results := Project(AsIntent, s.log), Project(AsValidated, s.log), Project(AsExecuted, s.log);
    var signals, proposed, approved :=
      Project(AsSignal, s.strategy.ep.heard), Project(AsIntent, s.risk.ep.heard), Project(AsValidated, s.execution.ep.heard);
    var run := RiskOutput(sys.config.risk, 0.0, 0.0, proposed);
    && intents <= AllIntents(sys, signals)
    && trades <= run.trades
    && results <= ExecutionOutput(sys.config.execution, sys.initialNonce, approved)
    && (s.strategy.pc.StrategyIdle? ==> intents == AllIntents(sys, signals))
    && (s.risk.pc.RiskIdle? ==> run == RiskRun(s.risk.exposure, trades))
    && (s.execution.pc.ExecutionIdle? ==>
          && results == ExecutionOutput(sys.config.execution, sys.initialNonce, approved)
          && s.execution.nonce == NonceAt(sys.initialNonce, |results|))
  }

  lemma FollowingGivesEach(sys: System, s: State)
    requires AllFollow(sys, s)
    ensures EachFollows(sys, s)
  {
    AnswersArePrefix(sys, Project(AsIntent, s.log), s.strategy.pc, Project(AsSignal, s.strategy.ep.heard));
    OutlookExtends(sys.config.risk, s.risk, Project(AsValidated, s.log));
    ResultsArePrefix(sys, Project(AsExecuted, s.log), s.execution, Project(AsValidated, s.execution.ep.heard));
  }

  /** In every run in which nobody else moves the tracker, with any lag and at any moment of cancellation. */
  lemma EachFollowsItsDeliveries(sys: System, handles: nat, steps: seq<Step>, s: State)
    requires Run(sys, Init(sys, handles), steps, s) && UndisturbedRun(steps)
    ensures EachFollows(sys, s)
  {
    FollowFromInit(sys, handles, steps, s);
    FollowingGivesEach(sys, s);
  }

  // --- the three sequences ---

  function AllIntents(sys: System, signals: seq<MarketSignal>): seq<TradeIntent> {
    StrategyOutput(sys.config.strategies, signals)
  }

  function AllValidated(sys: System, signals: seq<MarketSignal>): seq<ValidatedTrade> {
    RiskOutput(sys.config.risk, 0.0, 0.0, AllIntents(sys, signals)).trades
  }

  function AllExecuted(sys: System, signals: seq<MarketSignal>): seq<ExecutionResult> {
    ExecutionOutput(sys.config.execution, sys.initialNonce, AllValidated(sys, signals))
  }

  function From(log: seq<Message>, since: nat): seq<Message> {
    if since <= |log| then log[since..] else []
  }

  function UpTo(log: seq<Message>, since: nat): seq<Message> {
    if since <= |log| then log[..since] else log
  }

  /** What was published on the bus since the agent subscribed. */
  function SignalsSent(s: State): seq<MarketSignal> {
    Project(AsSignal, From(s.log, s.strategy.ep.since))
  }

  function IntentsSent(s: State): seq<TradeIntent> {
    Project(AsIntent, From(s.log, s.risk.ep.since))
  }

  function TradesSent(s: State): seq<ValidatedTrade> {
    Project(AsValidated, From(s.log, s.execution.ep.since))
  }

  lemma HeardIsPrefixOfSent<T>(pick: Message -> Option<T>, log: seq<Message>, ep: Endpoint)
    requires HeardAll(log, ep)
    ensures Project(pick, ep.heard) <= Project(pick, From(log, ep.since))
    ensures ep.cursor == |log| ==> Project(pick, ep.heard) == Project(pick, From(log, ep.since))
  {
    var sent, n := log[ep.since..], ep.cursor - ep.since;
    ProjectPrefix(pick, sent, n);
    assert sent[..n] == log[ep.since..ep.cursor];
    if ep.cursor == |log| {
      assert sent == log[ep.since..ep.cursor];
    }
  }

  lemma ExecutionOutputPrefix(config: ExecutionConfig, initial: U64, some: seq<ValidatedTrade>, all: seq<ValidatedTrade>)
    requires some <= all
    ensures ExecutionOutput(config, initial, some) <= ExecutionOutput(config, initial, all)
  {
    assert forall k :: 0 <= k < |some| ==> ResultAt(config, initial, some, k) == ResultAt(config, initial, all, k);
  }

  /** The same against what was sent: prefixes at all times, and all of it once the agents are at rest. */
  ghost predicate EachFollowsSent(sys: System, s: State) {
    && Project(AsIntent, s.log) <= AllIntents(sys, SignalsSent(s))
    && Project(AsValidated, s.log) <= RiskOutput(sys.config.risk, 0.0, 0.0, IntentsSent(s)).trades
    && Project(AsExecuted, s.log) <= ExecutionOutput(sys.config.execution, sys.initialNonce, TradesSent(s))
  }

  lemma PrefixesOfSent(sys: System, s: State)
    requires EachFollows(sys, s) && AllHeardAll(s)
    ensures EachFollowsSent(sys, s)
  {
    HeardIsPrefixOfSent(AsSignal, s.log, s.strategy.ep);
    HeardIsPrefixOfSent(AsIntent, s.log, s.risk.ep);
    HeardIsPrefixOfSent(AsValidated, s.log, s.execution.ep);
    StrategyOutputPrefix(sys.config.strategies, Project(AsSignal, s.strategy.ep.heard), SignalsSent(s));
    RiskOutputPrefix(sys.config.risk, 0.0, 0.0, Project(AsIntent, s.risk.ep.heard), IntentsSent(s));
    ExecutionOutputPrefix(sys.config.execution, sys.initialNonce, Project(AsValidated, s.execution.ep.heard), TradesSent(s));
  }

  /** All three agents run, have read everything, and are between two messages. */
  ghost predicate AllReadUp(s: State) {
    && s.strategy.pc.StrategyIdle? && s.strategy.ep.cursor == |s.log|
    && s.risk.pc.RiskIdle? && s.risk.ep.cursor == |s.log|
    && s.execution.pc.ExecutionIdle? && s.execution.ep.cursor == |s.log|
  }

  lemma RestIsReadUp(s: State)
    requires Quiescent(s) && StoppedOnlyByCancellation(s) && !s.cancelled
    ensures AllReadUp(s)
  {}

  lemma AllOfSent(sys: System, s: State)
    requires EachFollows(sys, s) && AllHeardAll(s) && AllReadUp(s)
    ensures Project(AsIntent, s.log) == AllIntents(sys, SignalsSent(s))
    ensures RiskOutput(sys.config.risk, 0.0, 0.0, IntentsSent(s)) == RiskRun(s.risk.exposure, Project(AsValidated, s.log))
    ensures Project(AsExecuted, s.log) == ExecutionOutput(sys.config.execution, sys.initialNonce, TradesSent(s))
    ensures s.execution.nonce == NonceAt(sys.initialNonce, |Project(AsExecuted, s.log)|)
  {
    HeardIsPrefixOfSent(AsSignal, s.log, s.strategy.ep);
    HeardIsPrefixOfSent(AsIntent, s.log, s.risk.ep);
    HeardIsPrefixOfSent(AsValidated, s.log, s.execution.ep);
  }

  lemma FaithfulFromInit(sys: System, handles: nat, steps: seq<Step>, s: State)
    requires Run(sys, Init(sys, handles), steps, s) && FaithfulRun(steps)
    ensures EachFollows(sys, s) && AllHeardAll(s) && StoppedOnlyByCancellation(s)
  {
    EachFollowsItsDeliveries(sys, handles, steps, s);
    HeardAllFromInit(sys, handles, steps, s);
    ReachableStops(sys, handles, steps, s);
  }

  /**
    Each agent by itself, whenever it subscribed: its output is at all times a prefix of what the
    messages sent since then determine, and at rest, if nobody cancelled, all of it.
   */
  lemma EachFollowsItsInput(sys: System, handles: nat, steps: seq<Step>, s: State)
    requires Run(sys, Init(sys, handles), steps, s) && FaithfulRun(steps)
    ensures EachFollowsSent(sys, s)
    ensures Quiescent(s) && !s.cancelled ==>
              && Project(AsIntent, s.log) == AllIntents(sys, SignalsSent(s))
              && Project(AsValidated, s.log) == RiskOutput(sys.config.risk, 0.0, 0.0, IntentsSent(s)).trades
              && Project(AsExecuted, s.log) == ExecutionOutput(sys.config.execution, sys.initialNonce, TradesSent(s))
  {
    FaithfulFromInit(sys, handles, steps, s);
    PrefixesOfSent(sys, s);
    if Quiescent(s) && !s.cancelled {
      RestIsReadUp(s);
      AllOfSent(sys, s);
    }
  }

  /** The risk agent subscribed before the first intent, and the execution agent before the first approval. */
  ghost predicate InTime(s: State) {
    && Project(AsIntent, UpTo(s.log, s.risk.ep.since)) == []
    && Project(AsValidated, UpTo(s.log, s.execution.ep.since)) == []
  }

  lemma NothingBefore<T>(pick: Message -> Option<T>, log: seq<Message>, since: nat)
    requires since <= |log| && Project(pick, UpTo(log, since)) == []
    ensures Project(pick, From(log, since)) == Project(pick, log)
  {
    ProjectConcat(pick, log[..since], log[since..]);
    assert log[..since] + log[since..] == log;
  }

  lemma InTimeHearsAll(s: State)
    requires InTime(s) && AllHeardAll(s)
    ensures IntentsSent(s) == Project(AsIntent, s.log) && TradesSent(s) == Project(AsValidated, s.log)
  {
    NothingBefore(AsIntent, s.log, s.risk.ep.since);
    NothingBefore(AsValidated, s.log, s.execution.ep.since);
  }

  /** Subscribing before anything is published is in time, and then every signal counts. */
  lemma SubscribedFirstIsInTime(s: State)
    requires s.strategy.ep.since == s.risk.ep.since == s.execution.ep.since == 0
    ensures InTime(s) && SignalsSent(s) == Project(AsSignal, s.log)
  {
    assert s.log[..0] == [] && s.log[0..] == s.log;
  }

  lemma PrefixesCompose(sys: System, s: State)
    requires EachFollowsSent(sys, s) && AllHeardAll(s) && InTime(s)
    ensures var signals := SignalsSent(s);
            && Project(AsIntent, s.log) <= AllIntents(sys, signals)
            && Project(AsValidated, s.log) <= AllValidated(sys, signals)
            && Project(AsExecuted, s.log) <= AllExecuted(sys, signals)
  {
    InTimeHearsAll(s);
    RiskOutputPrefix(sys.config.risk, 0.0, 0.0, Project(AsIntent, s.log), AllIntents(sys, SignalsSent(s)));
    ExecutionOutputPrefix(sys.config.execution, sys.initialNonce, Project(AsValidated, s.log), AllValidated(sys, SignalsSent(s)));
  }

  lemma FinalState(sys: System, handles: nat, steps: seq<Step>, s: State)
    requires Run(sys, Init(sys, handles), steps, s) && FaithfulRun(steps)
    requires InTime(s) && Quiescent(s) && !s.cancelled
    ensures Project(AsIntent, s.log) == AllIntents(sys, SignalsSent(s))
    ensures Project(AsValidated, s.log) == AllValidated(sys, SignalsSent(s))
    ensures Project(AsExecuted, s.log) == AllExecuted(sys, SignalsSent(s))
    ensures s.risk.exposure == RiskOutput(sys.config.risk, 0.0, 0.0, AllIntents(sys, SignalsSent(s))).exposure
    ensures s.execution.nonce == NonceAt(sys.initialNonce, |AllExecuted(sys, SignalsSent(s))|)
  {
    FaithfulFromInit(sys, handles, steps, s);
    InTimeHearsAll(s);
    RestIsReadUp(s);
    AllOfSent(sys, s);
  }

  /**
    Whatever the interleaving, the bus only ever shows prefixes of what the signals determine, even
    when agents are cancelled; and at rest, if nobody was, all of it.
   */
  lemma SchedulingIndependence(sys: System, handles: nat, steps: seq<Step>, s: State)
    requires Run(sys, Init(sys, handles), steps, s) && FaithfulRun(steps) && InTime(s)
    ensures var signals := SignalsSent(s);
            && Project(AsIntent, s.log) <= AllIntents(sys, signals)
            && Project(AsValidated, s.log) <= AllValidated(sys, signals)
            && Project(AsExecuted, s.log) <= AllExecuted(sys, signals)
            && (Quiescent(s) && !s.cancelled ==>
                  && Project(AsIntent, s.log) == AllIntents(sys, signals)
                  && Project(AsValidated, s.log) == AllValidated(sys, signals)
                  && Project(AsExecuted, s.log) == AllExecuted(sys, signals))
  {
    FaithfulFromInit(sys, handles, steps, s);
    PrefixesOfSent(sys, s);
    PrefixesCompose(sys, s);
    if Quiescent(s) && !s.cancelled {
      FinalState(sys, handles, steps, s);
    }
  }

  /** Two schedules that sent the strategies the same signals end with the same trades under the same nonces. */
  lemma SameSignalsSameExecutions(sys: System, handles: nat, handles': nat, steps: seq<Step>, steps': seq<Step>, s: State, s': State)
    requires Run(sys, Init(sys, handles), steps, s) && FaithfulRun(steps) && InTime(s) && Quiescent(s) && !s.cancelled
    requires Run(sys, Init(sys, handles'), steps', s') && FaithfulRun(steps') && InTime(s') && Quiescent(s') && !s'.cancelled
    requires SignalsSent(s) == SignalsSent(s')
    ensures Project(AsExecuted, s.log) == Project(AsExecuted, s'.log)
    ensures s.risk.exposure == s'.risk.exposure && s.execution.nonce == s'.execution.nonce
  {
    FinalState(sys, handles, steps, s);
    FinalState(sys, handles', steps', s');
  }

  // --- a ring that holds one run's messages never lags ---

  lemma {:induction false} LogIsItsKinds(log: seq<Message>)
    ensures |log| == |Project(AsSignal, log)| + |Project(AsIntent, log)| + |Project(AsValidated, log)| + |Project(AsExecuted, log)|
  {
    if log != [] {
      LogIsItsKinds(log[..|log| - 1]);
    }
  }

  lemma {:induction false} FireIsShort(strategies: seq<Strategy>, signal: MarketSignal, from: nat)
    requires from <= |strategies|
    ensures |Fire(strategies, signal, from)| <= |strategies| - from
    decreases |strategies| - from
  {
    if from < |strategies| {
      FireIsShort(strategies, signal, from + 1);
    }
  }

  lemma {:induction false} StrategyOutputIsShort(strategies: seq<Strategy>, signals: seq<MarketSignal>)
    ensures |StrategyOutput(strategies, signals)| <= |signals| * |strategies|
  {
    if signals != [] {
      StrategyOutputIsShort(strategies, signals[..|signals| - 1]);
      FireIsShort(strategies, signals[|signals| - 1], 0);
      assert |signals| * |strategies| == (|signals| - 1) * |strategies| + |strategies|;
    }
  }

  lemma {:induction false} RiskOutputIsShort(config: RiskConfig, exposure: real, dailyLoss: real, intents: seq<TradeIntent>)
    ensures |RiskOutput(config, exposure, dailyLoss, intents).trades| <= |intents|
  {
    if intents != [] {
      RiskOutputIsShort(config, exposure, dailyLoss, intents[..|intents| - 1]);
    }
  }

  /** Each signal causes at most three messages per strategy. */
  function Traffic(sys: System, signals: nat): nat {
    signals + 3 * (signals * |sys.config.strategies|)
  }

  lemma SentIsShort<T>(pick: Message -> Option<T>, log: seq<Message>, since: nat)
    ensures |Project(pick, From(log, since))| <= |Project(pick, log)|
  {
    if since <= |log| {
      ProjectConcat(pick, log[..since], log[since..]);
      assert log[..since] + log[since..] == log;
    }
  }

  lemma FewerSignalsLess(sys: System, few: nat, many: nat)
    requires few <= many
    ensures few * |sys.config.strategies| <= many * |sys.config.strategies|
  {}

  lemma LogIsShort(sys: System, s: State)
    requires EachFollowsSent(sys, s)
    ensures |s.log| <= Traffic(sys, |Project(AsSignal, s.log)|)
  {
    LogIsItsKinds(s.log);
    StrategyOutputIsShort(sys.config.strategies, SignalsSent(s));
    RiskOutputIsShort(sys.config.risk, 0.0, 0.0, IntentsSent(s));
    SentIsShort(AsSignal, s.log, s.strategy.ep.since);
    SentIsShort(AsIntent, s.log, s.risk.ep.since);
    SentIsShort(AsValidated, s.log, s.execution.ep.since);
    FewerSignalsLess(sys, |SignalsSent(s)|, |Project(AsSignal, s.log)|);
  }

  lemma {:induction false} LogOnlyGrows(sys: System, s: State, steps: seq<Step>, t: State)
    requires Run(sys, s, steps, t)
    ensures s.log <= t.log
    decreases |steps|
  {
    if steps != [] {
      LogOnlyGrows(sys, Apply(sys, s, steps[0]), steps[1..], t);
    }
  }

  /** One more signal adds itself and three messages for each strategy, so n signals make n + 3nk messages. */
  lemma TrafficGrows(sys: System, signals: nat)
    ensures Traffic(sys, 0) == 0
    ensures Traffic(sys, signals + 1) == Traffic(sys, signals) + 1 + 3 * |sys.config.strategies|
  {
    assert (signals + 1) * |sys.config.strategies| == signals * |sys.config.strategies| + |sys.config.strategies|;
  }

  lemma TrafficMonotone(sys: System, few: nat, many: nat)
    requires few <= many
    ensures Traffic(sys, few) <= Traffic(sys, many)
  {
    FewerSignalsLess(sys, few, many);
  }

  lemma SignalsOnlyGrow(log: seq<Message>, log': seq<Message>)
    requires log <= log'
    ensures |Project(AsSignal, log)| <= |Project(AsSignal, log')|
  {
    ProjectPrefix(AsSignal, log', |log|);
    assert log'[..|log|] == log;
  }

  /** What a run without lag keeps. */
  ghost predicate OnTrack(sys: System, s: State) {
    EndpointsOk(s) && AllFollow(sys, s) && AllHeardAll(s)
  }

  lemma NoLagNow(sys: System, s: State, step: Step, signals: nat)
    requires OnTrack(sys, s) && Enabled(sys, s, step) && |Project(AsSignal, s.log)| <= signals
    requires sys.capacity >= Traffic(sys, signals)
    ensures !step.SkipLag?
  {
    FollowingGivesEach(sys, s);
    PrefixesOfSent(sys, s);
    LogIsShort(sys, s);
    TrafficMonotone(sys, |Project(AsSignal, s.log)|, signals);
  }

  lemma OnTrackStep(sys: System, s: State, step: Step)
    requires OnTrack(sys, s) && Enabled(sys, s, step) && Faithful(step)
    ensures OnTrack(sys, Apply(sys, s, step))
  {
    EndpointsStep(sys, s, step);
    FollowStep(sys, s, step);
    HeardAllStep(sys, s, step);
  }

  lemma NoLagFirst(sys: System, s: State, steps: seq<Step>, t: State)
    requires OnTrack(sys, s) && Run(sys, s, steps, t) && UndisturbedRun(steps) && steps != []
    requires sys.capacity >= Traffic(sys, |Project(AsSignal, t.log)|)
    ensures Faithful(steps[0])
    ensures var next := Apply(sys, s, steps[0]);
            OnTrack(sys, next) && Run(sys, next, steps[1..], t) && UndisturbedRun(steps[1..])
  {
    LogOnlyGrows(sys, s, steps, t);
    SignalsOnlyGrow(s.log, t.log);
    NoLagNow(sys, s, steps[0], |Project(AsSignal, t.log)|);
    OnTrackStep(sys, s, steps[0]);
  }

  lemma FaithfulPrepend(steps: seq<Step>)
    requires steps != [] && Faithful(steps[0]) && FaithfulRun(steps[1..])
    ensures FaithfulRun(steps)
  {
    assert forall i :: 1 <= i < |steps| ==> steps[i] == steps[1..][i - 1];
  }

  lemma {:induction false} NoLagRun(sys: System, s: State, steps: seq<Step>, t: State)
    requires OnTrack(sys, s) && Run(sys, s, steps, t) && UndisturbedRun(steps)
    requires sys.capacity >= Traffic(sys, |Project(AsSignal, t.log)|)
    ensures FaithfulRun(steps)
    decreases |steps|
  {
    if steps != [] {
      NoLagFirst(sys, s, steps, t);
      NoLagRun(sys, Apply(sys, s, steps[0]), steps[1..], t);
      FaithfulPrepend(steps);
    }
  }

  /**
    No lag has to be assumed when the ring is large enough: with n signals and k strategies, n + 3nk
    slots make every undisturbed schedule a faithful one, whatever the relative speeds of the agents.
   */
  lemma LargeRingNeverLags(sys: System, handles: nat, steps: seq<Step>, s: State)
    requires Run(sys, Init(sys, handles), steps, s) && UndisturbedRun(steps)
    requires sys.capacity >= Traffic(sys, |Project(AsSignal, s.log)|)
    ensures FaithfulRun(steps)
  {
    InitFollows(sys, handles);
    NoLagRun(sys, Init(sys, handles), steps, s);
  }
}
