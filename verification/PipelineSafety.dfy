/**
  What every interleaving of the pipeline keeps, with any amount of lag, at any moment of
  cancellation, and with monitors and agents coming and going in any order.
 */
module PipelineSafety {
  import opened Types
  import opened Log
  import opened Rules
  import opened Reference
  import opened Pipeline

  // ---------------------------------------------------------------------------------------------
  // Endpoints: a running agent keeps its own channel alive
  // ---------------------------------------------------------------------------------------------

  function RunningAgents(s: State): nat {
    Indicator(s.strategy.ep.phase == Running) + Indicator(s.risk.ep.phase == Running) + Indicator(s.execution.ep.phase == Running)
  }

  function LiveAgents(s: State): nat {
    Indicator(s.strategy.ep.phase != Stopped) + Indicator(s.risk.ep.phase != Stopped) + Indicator(s.execution.ep.phase != Stopped)
  }

  ghost predicate EndpointOk(s: State, role: Role) {
    var ep := Ep(s, role);
    && ep.since + ep.missed <= ep.cursor <= |s.log|
    && (ep.phase == Ready ==> ep.cursor == 0 && ep.heard == [])
    && (!Idle(s, role) ==> ep.phase == Running)
  }

  ghost predicate EndpointsOk(s: State) {
    && s.receivers == s.monitors + RunningAgents(s)
    && s.senders == s.handles + LiveAgents(s)
    && EndpointOk(s, StrategyRole) && EndpointOk(s, RiskRole) && EndpointOk(s, ExecutionRole)
  }

  lemma EndpointsArrive(sys: System, s: State, role: Role)
    requires EndpointsOk(s) && Enabled(sys, s, Subscribe(role))
    ensures EndpointsOk(Apply(sys, s, Subscribe(role)))
  {}

  lemma EndpointsLeave(s: State, role: Role)
    requires EndpointsOk(s) && Ep(s, role).phase == Running && Idle(s, role)
    ensures EndpointsOk(Leave(s, role))
  {}

  lemma EndpointsSkip(sys: System, s: State, role: Role)
    requires EndpointsOk(s) && Enabled(sys, s, SkipLag(role))
    ensures EndpointsOk(Apply(sys, s, SkipLag(role)))
  {}

  lemma EndpointsReceive(sys: System, s: State, role: Role)
    requires EndpointsOk(s) && Enabled(sys, s, Receive(role))
    ensures EndpointsOk(Apply(sys, s, Receive(role)))
  {}

  predicate EnvironmentStep(step: Step) {
    || step.PublishSignal? || step.Cancel? || step.OpenMonitor? || step.CloseMonitor? || step.CloneHandle?
    || step.DropHandle? || step.Settle? || step.RecordLoss? || step.ResetDaily?
  }

  predicate RiskDecides(step: Step) {
    step.CheckExposure? || step.CheckLoss? || step.ReadExposure? || step.ReadLoss? || step.AddExposure?
  }

  lemma EndpointsEnvironment(sys: System, s: State, step: Step)
    requires EndpointsOk(s) && Enabled(sys, s, step) && EnvironmentStep(step)
    ensures EndpointsOk(Apply(sys, s, step))
  {}

  lemma EndpointsEmit(sys: System, s: State, step: Step)
    requires EndpointsOk(s) && Enabled(sys, s, step) && (step.EmitIntent? || step.EmitValidated? || step.EmitExecuted?)
    ensures EndpointsOk(Apply(sys, s, step))
  {}

  lemma EndpointsDecide(sys: System, s: State, step: Step)
    requires EndpointsOk(s) && Enabled(sys, s, step) && RiskDecides(step)
    ensures EndpointsOk(Apply(sys, s, step))
  {
    var risk := Apply(sys, s, step).risk;
    assert Apply(sys, s, step) == s.(risk := risk) && risk.ep == s.risk.ep;
  }

  lemma EndpointsEvaluate(sys: System, s: State)
    requires EndpointsOk(s) && Enabled(sys, s, Evaluate)
    ensures EndpointsOk(Apply(sys, s, Evaluate))
  {}

  lemma EndpointsNumber(sys: System, s: State)
    requires EndpointsOk(s) && Enabled(sys, s, TakeNonce)
    ensures EndpointsOk(Apply(sys, s, TakeNonce))
  {}

  lemma EndpointsStep(sys: System, s: State, step: Step)
    requires EndpointsOk(s) && Enabled(sys, s, step)
    ensures EndpointsOk(Apply(sys, s, step))
  {
    if EnvironmentStep(step) {
      EndpointsEnvironment(sys, s, step);
    } else {
      match step
      case Subscribe(role) => EndpointsArrive(sys, s, role);
      case Stop(role) => EndpointsLeave(s, role);
      case StopOnClosed(role) => EndpointsLeave(s, role);
      case SkipLag(role) => EndpointsSkip(sys, s, role);
      case Receive(role) => EndpointsReceive(sys, s, role);
      case EmitIntent => EndpointsEmit(sys, s, step);
      case EmitValidated => EndpointsEmit(sys, s, step);
      case EmitExecuted => EndpointsEmit(sys, s, step);
      case Evaluate => EndpointsEvaluate(sys, s);
      case TakeNonce => EndpointsNumber(sys, s);
      case _ => EndpointsDecide(sys, s, step);
    }
  }

  // ---------------------------------------------------------------------------------------------
  // Strategy agent: every intent on the bus is one strategy's answer to one earlier signal
  // ---------------------------------------------------------------------------------------------

  ghost predicate Before(a: Origin, b: Origin) {
    a.at < b.at || (a.at == b.at && a.index < b.index)
  }

  /** The next (signal, strategy) pair the agent may still answer. */
  function NextOrigin(agent: StrategyState): Origin {
    match agent.pc
    case StrategyIdle => Origin(agent.ep.cursor, 0)
    case Scanning(at, _, next) => Origin(at, next)
    case Emitting(at, _, next, _) => Origin(at, next)
  }

  /** The intent at position `p` is the answer of strategy `o.index` to the signal at `o.at`. */
  ghost predicate Produced(sys: System, log: seq<Message>, o: Origin, p: nat) {
    && o.at < p < |log|
    && log[o.at].Signal?
    && log[p].Intent?
    && o.index < |sys.config.strategies|
    && sys.config.strategies[o.index](log[o.at].signal) == Some(log[p].intent)
  }

  ghost predicate AllProduced(sys: System, log: seq<Message>, source: seq<Origin>, at: seq<nat>) {
    |source| == |at| && forall k :: 0 <= k < |at| ==> Produced(sys, log, source[k], at[k])
  }

  /** The origins so far, in order and before the next one. */
  ghost predicate OriginsOk(source: seq<Origin>, next: Origin) {
    && (forall i, j :: 0 <= i < j < |source| ==> Before(source[i], source[j]))
    && (forall k :: 0 <= k < |source| ==> Before(source[k], next))
  }

  ghost predicate StrategyOk(sys: System, log: seq<Message>, agent: StrategyState) {
    && agent.ep.cursor <= |log|
    && (!agent.pc.StrategyIdle? ==> agent.pc.at < agent.ep.cursor && log[agent.pc.at] == Signal(agent.pc.signal))
    && (agent.pc.Emitting? ==>
          && agent.pc.next < |sys.config.strategies|
          && sys.config.strategies[agent.pc.next](agent.pc.signal) == Some(agent.pc.intent))
    && OriginsOk(agent.source, NextOrigin(agent))
    && AllProduced(sys, log, agent.source, Positions(AsIntent, log))
  }

  lemma AllStillProduced(sys: System, log: seq<Message>, m: Message, source: seq<Origin>, at: seq<nat>)
    requires AllProduced(sys, log, source, at)
    ensures AllProduced(sys, log + [m], source, at)
  {
    forall k | 0 <= k < |at| ensures Produced(sys, log + [m], source[k], at[k]) {
      assert Produced(sys, log, source[k], at[k]);
    }
  }

  lemma OneMoreProduced(sys: System, log: seq<Message>, source: seq<Origin>, at: seq<nat>, o: Origin, p: nat)
    requires AllProduced(sys, log, source, at) && Produced(sys, log, o, p)
    ensures AllProduced(sys, log, source + [o], at + [p])
  {}

  lemma OriginsNext(source: seq<Origin>, o: Origin, next: Origin)
    requires OriginsOk(source, o) && Before(o, next)
    ensures OriginsOk(source + [o], next)
  {}

  lemma OriginsWait(source: seq<Origin>, o: Origin, next: Origin)
    requires OriginsOk(source, o) && (o == next || Before(o, next))
    ensures OriginsOk(source, next)
  {}

  lemma StrategyAppend(sys: System, log: seq<Message>, agent: StrategyState, m: Message)
    requires StrategyOk(sys, log, agent) && !m.Intent?
    ensures StrategyOk(sys, log + [m], agent)
  {
    ProjectAppend(AsIntent, log, m);
    AllStillProduced(sys, log, m, agent.source, Positions(AsIntent, log));
  }

  lemma StrategyHearsOk(sys: System, log: seq<Message>, agent: StrategyState)
    requires StrategyOk(sys, log, agent) && agent.pc.StrategyIdle? && agent.ep.cursor < |log|
    ensures StrategyOk(sys, log, StrategyHears(agent, log[agent.ep.cursor]))
  {
    OriginsWait(agent.source, NextOrigin(agent), NextOrigin(StrategyHears(agent, log[agent.ep.cursor])));
  }

  lemma StrategyEmitsOk(sys: System, log: seq<Message>, agent: StrategyState)
    requires StrategyOk(sys, log, agent) && agent.pc.Emitting?
    ensures StrategyOk(sys, log + [Intent(agent.pc.intent)], AfterEmit(agent))
  {
    var m, at, o := Intent(agent.pc.intent), Positions(AsIntent, log), NextOrigin(agent);
    ProjectAppend(AsIntent, log, m);
    AllStillProduced(sys, log, m, agent.source, at);
    OneMoreProduced(sys, log + [m], agent.source, at, o, |log|);
    OriginsNext(agent.source, o, NextOrigin(AfterEmit(agent)));
  }

  // ---------------------------------------------------------------------------------------------
  // Risk agent: capital
  // ---------------------------------------------------------------------------------------------

  function TotalEth(trades: seq<ValidatedTrade>): real {
    if trades == [] then 0.0 else TotalEth(trades[..|trades| - 1]) + AmountEth(trades[|trades| - 1].intent)
  }

  lemma TotalEthNext(trades: seq<ValidatedTrade>, trade: ValidatedTrade)
    ensures TotalEth(trades + [trade]) == TotalEth(trades) + AmountEth(trade.intent)
  {
    assert (trades + [trade])[..|trades|] == trades;
  }

  /** The intent passes every rule while nothing is tracked and nothing is lost. */
  ghost predicate IntentOk(config: RiskConfig, intent: TradeIntent) {
    AmountEth(intent) > 0.0 && Validate(config, 0.0, 0.0, intent) == Pass
  }

  /** What holds of every trade the risk agent lets through, whatever the tracker read and whatever was recorded meanwhile. */
  ghost predicate TradeOk(config: RiskConfig, trade: ValidatedTrade) {
    IntentOk(config, trade.intent) && (Scorable(config, trade.intent) ==> 0.0 < trade.riskScore <= 1.0)
  }

  ghost predicate Scorable(config: RiskConfig, intent: TradeIntent) {
    PositiveLimits(config) && GasOf(intent) >= 0.0
  }

  /** The approved trade that is not on the bus yet. */
  function RiskPending(pc: RiskPc): seq<ValidatedTrade> {
    if pc.Approved? || pc.Tracked? then [pc.trade] else []
  }

  /** The intent that has passed the exposure rule and is not tracked yet. */
  function Candidate(pc: RiskPc): Option<TradeIntent> {
    match pc
    case Fitting(_, intent) => Some(intent)
    case Passed(_, intent) => Some(intent)
    case Scoring(_, intent, _) => Some(intent)
    case Approved(trade) => Some(trade.intent)
    case _ => None
  }

  /** Exposure already tracked for a trade that is not on the bus yet. */
  function InFlightEth(pc: RiskPc): real {
    if pc.Tracked? then AmountEth(pc.trade.intent) else 0.0
  }

  function ExposureCap(config: RiskConfig): real {
    if config.maxPositionSizeEth < 0.0 then 0.0 else config.maxPositionSizeEth
  }

  /** The validated trade at `p` approves the intent at `i`. */
  ghost predicate Approves(log: seq<Message>, i: nat, p: nat) {
    i < p < |log| && log[i].Intent? && log[p].Validated? && log[p].trade.intent == log[i].intent
  }

  ghost predicate TradesOk(config: RiskConfig, log: seq<Message>) {
    forall p :: 0 <= p < |log| && log[p].Validated? ==> TradeOk(config, log[p].trade)
  }

  ghost predicate CapitalOk(config: RiskConfig, log: seq<Message>, agent: RiskState) {
    && 0.0 <= agent.exposure <= ExposureCap(config)
    && 0.0 <= agent.released
    && 0.0 <= agent.dailyLoss
    && TotalEth(Project(AsValidated, log)) + InFlightEth(agent.pc) == agent.exposure + agent.released
    && (Candidate(agent.pc).Some? ==> agent.exposure + AmountEth(Candidate(agent.pc).value) <= config.maxPositionSizeEth)
  }

  /** How far the rules have got with the intent at hand. */
  ghost predicate ProgressOk(config: RiskConfig, pc: RiskPc) {
    match pc
    case RiskIdle => true
    case Checking(_, _) => true
    case Fitting(_, intent) =>
      && CheckSanity(intent) == Pass && AmountEth(intent) > 0.0
      && CheckExposureLimit(intent, 0.0, config.maxPositionSizeEth) == Pass
    case Passed(_, intent) => IntentOk(config, intent)
    case Scoring(_, intent, exposure) =>
      IntentOk(config, intent) && 0.0 <= exposure && exposure + AmountEth(intent) <= config.maxPositionSizeEth
    case Approved(trade) => TradeOk(config, trade)
    case Tracked(trade) => TradeOk(config, trade)
  }

  /** Every approval at the positions `at` approves the intent its source names, in order. */
  ghost predicate AllApprove(log: seq<Message>, source: seq<nat>, at: seq<nat>) {
    |at| <= |source| && forall k :: 0 <= k < |at| ==> Approves(log, source[k], at[k])
  }

  ghost predicate ApprovalSourcesOk(log: seq<Message>, agent: RiskState, published: nat) {
    && agent.ep.cursor <= |log|
    && |agent.source| == published + |RiskPending(agent.pc)|
    && Increasing(agent.source)
    && (forall k :: 0 <= k < |agent.source| ==> agent.source[k] < agent.ep.cursor)
    && (RiskPending(agent.pc) != [] ==> log[agent.source[published]] == Intent(agent.pc.trade.intent))
    && (Deciding(agent.pc) ==>
          && agent.pc.at < agent.ep.cursor
          && log[agent.pc.at] == Intent(agent.pc.intent)
          && forall k :: 0 <= k < |agent.source| ==> agent.source[k] < agent.pc.at)
  }

  ghost predicate ApprovalsOk(log: seq<Message>, agent: RiskState) {
    var at := Positions(AsValidated, log);
    ApprovalSourcesOk(log, agent, |at|) && AllApprove(log, agent.source, at)
  }

  /** An intent was taken and is not approved or rejected yet. */
  predicate Deciding(pc: RiskPc) {
    pc.Checking? || pc.Fitting? || pc.Passed? || pc.Scoring?
  }

  ghost predicate RiskOk(config: RiskConfig, log: seq<Message>, agent: RiskState) {
    && CapitalOk(config, log, agent)
    && ApprovalsOk(log, agent)
    && TradesOk(config, log)
    && ProgressOk(config, agent.pc)
  }

  lemma CapitalAppend(config: RiskConfig, log: seq<Message>, agent: RiskState, m: Message)
    requires CapitalOk(config, log, agent) && !m.Validated?
    ensures CapitalOk(config, log + [m], agent)
  {
    ProjectAppend(AsValidated, log, m);
  }

  lemma AllStillApprove(log: seq<Message>, m: Message, source: seq<nat>, at: seq<nat>)
    requires AllApprove(log, source, at)
    ensures AllApprove(log + [m], source, at)
  {
    forall k | 0 <= k < |at| ensures Approves(log + [m], source[k], at[k]) {
      assert Approves(log, source[k], at[k]);
    }
  }

  lemma OneMoreApproves(log: seq<Message>, source: seq<nat>, at: seq<nat>, p: nat)
    requires AllApprove(log, source, at)
    requires |at| < |source| && Approves(log, source[|at|], p)
    ensures AllApprove(log, source, at + [p])
  {}

  lemma ApprovalsAppend(log: seq<Message>, agent: RiskState, m: Message)
    requires ApprovalsOk(log, agent) && !m.Validated?
    ensures ApprovalsOk(log + [m], agent)
  {
    ProjectAppend(AsValidated, log, m);
    AllStillApprove(log, m, agent.source, Positions(AsValidated, log));
  }

  lemma RiskAppend(config: RiskConfig, log: seq<Message>, agent: RiskState, m: Message)
    requires RiskOk(config, log, agent) && !m.Validated?
    ensures RiskOk(config, log + [m], agent)
  {
    CapitalAppend(config, log, agent, m);
    ApprovalsAppend(log, agent, m);
  }

  lemma RiskHearsOk(config: RiskConfig, log: seq<Message>, agent: RiskState)
    requires RiskOk(config, log, agent) && agent.pc.RiskIdle? && agent.ep.cursor < |log|
    ensures RiskOk(config, log, RiskHears(agent, log[agent.ep.cursor]))
  {}

  lemma ExposureCheckedOk(config: RiskConfig, log: seq<Message>, agent: RiskState)
    requires RiskOk(config, log, agent) && agent.pc.Checking?
    ensures RiskOk(config, log, ExposureChecked(config, agent))
  {
    PositiveAmount(agent.pc.intent);
  }

  lemma LossCheckedOk(config: RiskConfig, log: seq<Message>, agent: RiskState)
    requires RiskOk(config, log, agent) && agent.pc.Fitting?
    ensures RiskOk(config, log, LossChecked(config, agent))
  {}

  lemma ExposureReadOk(config: RiskConfig, log: seq<Message>, agent: RiskState)
    requires RiskOk(config, log, agent) && agent.pc.Passed?
    ensures RiskOk(config, log, ExposureRead(agent))
  {}

  lemma ScoreOk(config: RiskConfig, pc: RiskPc, dailyLoss: real)
    requires pc.Scoring? && ProgressOk(config, pc) && dailyLoss >= 0.0
    ensures TradeOk(config, ValidatedTrade(pc.intent, RiskScore(config, pc.exposure, dailyLoss, pc.intent)))
  {
    if Scorable(config, pc.intent) {
      ScoreRange(config, pc.exposure, dailyLoss, pc.intent);
    }
  }

  lemma AllApproveLonger(log: seq<Message>, source: seq<nat>, at: seq<nat>, next: nat)
    requires AllApprove(log, source, at)
    ensures AllApprove(log, source + [next], at)
  {
    forall k | 0 <= k < |at| ensures Approves(log, (source + [next])[k], at[k]) {
      assert Approves(log, source[k], at[k]);
    }
  }

  lemma ApprovalsDecided(config: RiskConfig, log: seq<Message>, agent: RiskState)
    requires ApprovalsOk(log, agent) && agent.pc.Scoring?
    ensures ApprovalsOk(log, LossRead(config, agent))
  {
    AllApproveLonger(log, agent.source, Positions(AsValidated, log), agent.pc.at);
  }

  lemma LossReadOk(config: RiskConfig, log: seq<Message>, agent: RiskState)
    requires RiskOk(config, log, agent) && agent.pc.Scoring?
    ensures RiskOk(config, log, LossRead(config, agent))
  {
    ScoreOk(config, agent.pc, agent.dailyLoss);
    ApprovalsDecided(config, log, agent);
  }

  lemma ExposureAddedOk(config: RiskConfig, log: seq<Message>, agent: RiskState)
    requires RiskOk(config, log, agent) && agent.pc.Approved?
    ensures RiskOk(config, log, ExposureAdded(agent))
  {}

  lemma CapitalEmits(config: RiskConfig, log: seq<Message>, agent: RiskState)
    requires CapitalOk(config, log, agent) && agent.pc.Tracked?
    ensures CapitalOk(config, log + [Validated(agent.pc.trade)], agent.(pc := RiskIdle))
  {
    ProjectAppend(AsValidated, log, Validated(agent.pc.trade));
    TotalEthNext(Project(AsValidated, log), agent.pc.trade);
  }

  lemma ApprovalsEmit(log: seq<Message>, agent: RiskState)
    requires ApprovalsOk(log, agent) && agent.pc.Tracked?
    ensures ApprovalsOk(log + [Validated(agent.pc.trade)], agent.(pc := RiskIdle))
  {
    var m, at := Validated(agent.pc.trade), Positions(AsValidated, log);
    ProjectAppend(AsValidated, log, m);
    AllStillApprove(log, m, agent.source, at);
    OneMoreApproves(log + [m], agent.source, at, |log|);
  }

  lemma RiskEmitsOk(config: RiskConfig, log: seq<Message>, agent: RiskState)
    requires RiskOk(config, log, agent) && agent.pc.Tracked?
    ensures RiskOk(config, log + [Validated(agent.pc.trade)], agent.(pc := RiskIdle))
  {
    CapitalEmits(config, log, agent);
    ApprovalsEmit(log, agent);
  }

  // ---------------------------------------------------------------------------------------------
  // Execution agent: nonces
  // ---------------------------------------------------------------------------------------------

  function TotalExecutedEth(results: seq<ExecutionResult>): real {
    if results == [] then 0.0
    else TotalExecutedEth(results[..|results| - 1]) + AmountEth(results[|results| - 1].trade.intent)
  }

  lemma TotalExecutedEthNext(results: seq<ExecutionResult>, result: ExecutionResult)
    ensures TotalExecutedEth(results + [result]) == TotalExecutedEth(results) + AmountEth(result.trade.intent)
  {
    assert (results + [result])[..|results|] == results;
  }

  function ExecutionPending(pc: ExecutionPc): seq<ValidatedTrade> {
    if pc.ExecutionIdle? then [] else [pc.trade]
  }

  /** The k-th result on the bus, at `p`, executed the trade at `i` under nonce initial + k. */
  ghost predicate Executes(sys: System, log: seq<Message>, i: nat, p: nat, k: nat) {
    && i < p < |log|
    && log[p].Executed?
    && log[i] == Validated(log[p].result.trade)
    && log[p].result.outcome ==
       ExecuteTrade(sys.config.execution, log[p].result.trade, NonceAt(sys.initialNonce, k))
  }

  /** Every result at the positions `at` executed the trade its source names, in order. */
  ghost predicate AllExecute(sys: System, log: seq<Message>, source: seq<nat>, at: seq<nat>) {
    |at| <= |source| && forall k :: 0 <= k < |at| ==> Executes(sys, log, source[k], at[k], k)
  }

  ghost predicate CounterOk(sys: System, agent: ExecutionState, published: nat) {
    && agent.nonce == NonceAt(sys.initialNonce, published + Indicator(agent.pc.Numbered?))
    && (agent.pc.Numbered? ==> agent.pc.nonce == NonceAt(sys.initialNonce, published))
  }

  ghost predicate SourcesOk(log: seq<Message>, agent: ExecutionState, published: nat) {
    && agent.ep.cursor <= |log|
    && |agent.source| == published + |ExecutionPending(agent.pc)|
    && Increasing(agent.source)
    && (forall k :: 0 <= k < |agent.source| ==> agent.source[k] < agent.ep.cursor)
    && (!agent.pc.ExecutionIdle? ==> log[agent.source[published]] == Validated(agent.pc.trade))
  }

  ghost predicate ExecutionsOk(sys: System, log: seq<Message>, agent: ExecutionState) {
    var at := Positions(AsExecuted, log);
    && SourcesOk(log, agent, |at|)
    && AllExecute(sys, log, agent.source, at)
    && CounterOk(sys, agent, |at|)
  }

  /** What was executed never exceeds what was validated before the cursor, even when lag skipped trades. */
  ghost predicate ExecutedWithinValidated(log: seq<Message>, agent: ExecutionState) {
    && agent.ep.cursor <= |log|
    && TotalExecutedEth(Project(AsExecuted, log)) + TotalEth(ExecutionPending(agent.pc))
       <= TotalEth(Project(AsValidated, log[..agent.ep.cursor]))
  }

  ghost predicate ExecutionOk(sys: System, log: seq<Message>, agent: ExecutionState) {
    ExecutionsOk(sys, log, agent) && ExecutedWithinValidated(log, agent)
  }

  lemma AllStillExecute(sys: System, log: seq<Message>, m: Message, source: seq<nat>, at: seq<nat>)
    requires AllExecute(sys, log, source, at)
    ensures AllExecute(sys, log + [m], source, at)
  {
    forall k | 0 <= k < |at| ensures Executes(sys, log + [m], source[k], at[k], k) {
      assert Executes(sys, log, source[k], at[k], k);
    }
  }

  lemma OneMoreExecutes(sys: System, log: seq<Message>, source: seq<nat>, at: seq<nat>, p: nat)
    requires AllExecute(sys, log, source, at)
    requires |at| < |source| && Executes(sys, log, source[|at|], p, |at|)
    ensures AllExecute(sys, log, source, at + [p])
  {}

  lemma ExecutionsAppend(sys: System, log: seq<Message>, agent: ExecutionState, m: Message)
    requires ExecutionsOk(sys, log, agent) && !m.Executed?
    ensures ExecutionsOk(sys, log + [m], agent)
  {
    ProjectAppend(AsExecuted, log, m);
    AllStillExecute(sys, log, m, agent.source, Positions(AsExecuted, log));
  }

  lemma WithinAppend(log: seq<Message>, agent: ExecutionState, m: Message)
    requires ExecutedWithinValidated(log, agent) && !m.Executed?
    ensures ExecutedWithinValidated(log + [m], agent)
  {
    ProjectAppend(AsExecuted, log, m);
    assert (log + [m])[..agent.ep.cursor] == log[..agent.ep.cursor];
  }

  lemma ExecutionAppend(sys: System, log: seq<Message>, agent: ExecutionState, m: Message)
    requires ExecutionOk(sys, log, agent) && !m.Executed?
    ensures ExecutionOk(sys, log + [m], agent)
  {
    ExecutionsAppend(sys, log, agent, m);
    WithinAppend(log, agent, m);
  }

  lemma ExecutionsHear(sys: System, log: seq<Message>, agent: ExecutionState)
    requires ExecutionsOk(sys, log, agent) && agent.pc.ExecutionIdle? && agent.ep.cursor < |log|
    ensures ExecutionsOk(sys, log, ExecutionHears(agent, log[agent.ep.cursor]))
  {}

  lemma TotalEthOfOne(trade: ValidatedTrade)
    ensures TotalEth([trade]) == AmountEth(trade.intent)
  {
    TotalEthNext([], trade);
    assert [] + [trade] == [trade];
  }

  lemma TotalEthRead(log: seq<Message>, cursor: nat)
    requires cursor < |log|
    ensures TotalEth(Project(AsValidated, log[..cursor + 1])) ==
            TotalEth(Project(AsValidated, log[..cursor]))
            + (if log[cursor].Validated? then AmountEth(log[cursor].trade.intent) else 0.0)
  {
    ProjectNext(AsValidated, log, cursor);
    if log[cursor].Validated? {
      TotalEthNext(Project(AsValidated, log[..cursor]), log[cursor].trade);
    }
  }

  lemma WithinHears(log: seq<Message>, agent: ExecutionState)
    requires ExecutedWithinValidated(log, agent) && agent.pc.ExecutionIdle? && agent.ep.cursor < |log|
    ensures ExecutedWithinValidated(log, ExecutionHears(agent, log[agent.ep.cursor]))
  {
    TotalEthRead(log, agent.ep.cursor);
    if log[agent.ep.cursor].Validated? {
      TotalEthOfOne(log[agent.ep.cursor].trade);
    }
  }

  lemma ExecutionHearsOk(sys: System, log: seq<Message>, agent: ExecutionState)
    requires ExecutionOk(sys, log, agent) && agent.pc.ExecutionIdle? && agent.ep.cursor < |log|
    ensures ExecutionOk(sys, log, ExecutionHears(agent, log[agent.ep.cursor]))
  {
    ExecutionsHear(sys, log, agent);
    WithinHears(log, agent);
  }

  lemma ExecutionNumbersOk(sys: System, log: seq<Message>, agent: ExecutionState)
    requires ExecutionOk(sys, log, agent) && agent.pc.Taken?
    ensures ExecutionOk(sys, log, agent.(pc := Numbered(agent.pc.trade, agent.nonce), nonce := NextNonce(agent.nonce)))
  {}

  lemma ExecutionsEmit(sys: System, log: seq<Message>, agent: ExecutionState)
    requires ExecutionsOk(sys, log, agent) && agent.pc.Numbered?
    ensures ExecutionsOk(sys, log + [Executed(ResultOf(sys, agent.pc))], agent.(pc := ExecutionIdle))
  {
    var m, at := Executed(ResultOf(sys, agent.pc)), Positions(AsExecuted, log);
    ProjectAppend(AsExecuted, log, m);
    AllStillExecute(sys, log, m, agent.source, at);
    OneMoreExecutes(sys, log + [m], agent.source, at, |log|);
  }

  lemma WithinEmits(sys: System, log: seq<Message>, agent: ExecutionState)
    requires ExecutedWithinValidated(log, agent) && agent.pc.Numbered?
    ensures ExecutedWithinValidated(log + [Executed(ResultOf(sys, agent.pc))], agent.(pc := ExecutionIdle))
  {
    var result := ResultOf(sys, agent.pc);
    ProjectAppend(AsExecuted, log, Executed(result));
    TotalExecutedEthNext(Project(AsExecuted, log), result);
    TotalEthNext([], agent.pc.trade);
    assert (log + [Executed(result)])[..agent.ep.cursor] == log[..agent.ep.cursor];
  }

  lemma ExecutionEmitsOk(sys: System, log: seq<Message>, agent: ExecutionState)
    requires ExecutionOk(sys, log, agent) && agent.pc.Numbered?
    ensures ExecutionOk(sys, log + [Executed(ResultOf(sys, agent.pc))], agent.(pc := ExecutionIdle))
  {
    ExecutionsEmit(sys, log, agent);
    WithinEmits(sys, log, agent);
  }

  lemma ReadingAddsNoLess(config: RiskConfig, log: seq<Message>, cursor: nat)
    requires cursor < |log| && TradesOk(config, log)
    ensures TotalEth(Project(AsValidated, log[..cursor])) <= TotalEth(Project(AsValidated, log[..cursor + 1]))
  {
    ProjectNext(AsValidated, log, cursor);
    if log[cursor].Validated? {
      assert TradeOk(config, log[cursor].trade);
      TotalEthNext(Project(AsValidated, log[..cursor]), log[cursor].trade);
    }
  }

  lemma {:induction false} SkippingValidatedOnlyAdds(config: RiskConfig, log: seq<Message>, lo: nat, hi: nat)
    requires lo <= hi <= |log| && TradesOk(config, log)
    ensures TotalEth(Project(AsValidated, log[..lo])) <= TotalEth(Project(AsValidated, log[..hi]))
    decreases hi
  {
    if lo < hi {
      var before := hi - 1;
      SkippingValidatedOnlyAdds(config, log, lo, before);
      ReadingAddsNoLess(config, log, before);
    }
  }

  lemma ExecutionSkipsOk(sys: System, log: seq<Message>, agent: ExecutionState, ep: Endpoint)
    requires ExecutionOk(sys, log, agent) && agent.ep.cursor <= ep.cursor <= |log|
    requires TradesOk(sys.config.risk, log)
    ensures ExecutionOk(sys, log, agent.(ep := ep))
  {
    SkippingValidatedOnlyAdds(sys.config.risk, log, agent.ep.cursor, ep.cursor);
  }

  // ---------------------------------------------------------------------------------------------
  // Every step, every run
  // ---------------------------------------------------------------------------------------------

  ghost predicate AgentsOk(sys: System, log: seq<Message>, strategy: StrategyState, risk: RiskState, execution: ExecutionState) {
    && StrategyOk(sys, log, strategy)
    && RiskOk(sys.config.risk, log, risk)
    && ExecutionOk(sys, log, execution)
  }

  ghost predicate Inv(sys: System, s: State) {
    EndpointsOk(s) && AgentsOk(sys, s.log, s.strategy, s.risk, s.execution)
  }

  lemma AgentsEnvironment(sys: System, s: State, step: Step)
    requires Inv(sys, s) && Enabled(sys, s, step) && EnvironmentStep(step)
    ensures var t := Apply(sys, s, step); AgentsOk(sys, t.log, t.strategy, t.risk, t.execution)
  {
    if step.PublishSignal? {
      var m := Signal(step.signal);
      StrategyAppend(sys, s.log, s.strategy, m);
      RiskAppend(sys.config.risk, s.log, s.risk, m);
      ExecutionAppend(sys, s.log, s.execution, m);
    }
  }

  lemma AgentsReceive(sys: System, s: State, role: Role)
    requires Inv(sys, s) && Enabled(sys, s, Receive(role))
    ensures var t := Apply(sys, s, Receive(role)); AgentsOk(sys, t.log, t.strategy, t.risk, t.execution)
  {
    match role
    case StrategyRole => StrategyHearsOk(sys, s.log, s.strategy);
    case RiskRole => RiskHearsOk(sys.config.risk, s.log, s.risk);
    case ExecutionRole => ExecutionHearsOk(sys, s.log, s.execution);
  }

  /** Subscribing, skipping and leaving only move an idle agent's endpoint, and only forward. */
  lemma AgentsMove(sys: System, s: State, role: Role, ep: Endpoint)
    requires Inv(sys, s) && Idle(s, role) && Ep(s, role).cursor <= ep.cursor <= |s.log|
    ensures var t := WithEp(s, role, ep); AgentsOk(sys, t.log, t.strategy, t.risk, t.execution)
  {
    match role
    case StrategyRole =>
    case RiskRole =>
    case ExecutionRole => ExecutionSkipsOk(sys, s.log, s.execution, ep);
  }

  lemma AgentsSubscribe(sys: System, s: State, role: Role)
    requires Inv(sys, s) && Enabled(sys, s, Subscribe(role))
    ensures var t := Apply(sys, s, Subscribe(role)); AgentsOk(sys, t.log, t.strategy, t.risk, t.execution)
  {
    AgentsMove(sys, s, role, Ep(Apply(sys, s, Subscribe(role)), role));
  }

  lemma AgentsSkipLag(sys: System, s: State, role: Role)
    requires Inv(sys, s) && Enabled(sys, s, SkipLag(role))
    ensures var t := Apply(sys, s, SkipLag(role)); AgentsOk(sys, t.log, t.strategy, t.risk, t.execution)
  {
    AgentsMove(sys, s, role, Ep(Apply(sys, s, SkipLag(role)), role));
  }

  lemma AgentsStop(sys: System, s: State, step: Step)
    requires Inv(sys, s) && Enabled(sys, s, step) && (step.Stop? || step.StopOnClosed?)
    ensures var t := Apply(sys, s, step); AgentsOk(sys, t.log, t.strategy, t.risk, t.execution)
  {
    AgentsMove(sys, s, step.role, Ep(Apply(sys, s, step), step.role));
  }

  lemma AgentsEvaluate(sys: System, s: State)
    requires AgentsOk(sys, s.log, s.strategy, s.risk, s.execution) && s.strategy.pc.Scanning?
    ensures var t := EvaluateNext(sys, s); AgentsOk(sys, t.log, t.strategy, t.risk, t.execution)
  {}

  lemma AgentsEmitIntent(sys: System, s: State)
    requires s.receivers > 0 && AgentsOk(sys, s.log, s.strategy, s.risk, s.execution) && s.strategy.pc.Emitting?
    ensures var t := PublishIntent(s); AgentsOk(sys, t.log, t.strategy, t.risk, t.execution)
  {
    StrategyEmitsOk(sys, s.log, s.strategy);
    RiskAppend(sys.config.risk, s.log, s.risk, Intent(s.strategy.pc.intent));
    ExecutionAppend(sys, s.log, s.execution, Intent(s.strategy.pc.intent));
  }

  lemma AgentsEmitValidated(sys: System, s: State)
    requires s.receivers > 0 && AgentsOk(sys, s.log, s.strategy, s.risk, s.execution) && s.risk.pc.Tracked?
    ensures var t := PublishValidated(s); AgentsOk(sys, t.log, t.strategy, t.risk, t.execution)
  {
    StrategyAppend(sys, s.log, s.strategy, Validated(s.risk.pc.trade));
    RiskEmitsOk(sys.config.risk, s.log, s.risk);
    ExecutionAppend(sys, s.log, s.execution, Validated(s.risk.pc.trade));
  }

  lemma AgentsEmitExecuted(sys: System, s: State)
    requires s.receivers > 0 && AgentsOk(sys, s.log, s.strategy, s.risk, s.execution) && s.execution.pc.Numbered?
    ensures var t := PublishExecuted(sys, s); AgentsOk(sys, t.log, t.strategy, t.risk, t.execution)
  {
    var m := Executed(ResultOf(sys, s.execution.pc));
    StrategyAppend(sys, s.log, s.strategy, m);
    RiskAppend(sys.config.risk, s.log, s.risk, m);
    ExecutionEmitsOk(sys, s.log, s.execution);
  }

  lemma RiskDecidesOk(sys: System, s: State, step: Step)
    requires RiskOk(sys.config.risk, s.log, s.risk) && Enabled(sys, s, step) && RiskDecides(step)
    ensures RiskOk(sys.config.risk, s.log, Apply(sys, s, step).risk)
  {
    match step
    case CheckExposure => ExposureCheckedOk(sys.config.risk, s.log, s.risk);
    case CheckLoss => LossCheckedOk(sys.config.risk, s.log, s.risk);
    case ReadExposure => ExposureReadOk(sys.config.risk, s.log, s.risk);
    case ReadLoss => LossReadOk(sys.config.risk, s.log, s.risk);
    case AddExposure => ExposureAddedOk(sys.config.risk, s.log, s.risk);
  }

  lemma AgentsDecide(sys: System, s: State, step: Step)
    requires Inv(sys, s) && Enabled(sys, s, step) && RiskDecides(step)
    ensures var t := Apply(sys, s, step); AgentsOk(sys, t.log, t.strategy, t.risk, t.execution)
  {
    RiskDecidesOk(sys, s, step);
  }

  lemma AgentsNumber(sys: System, s: State)
    requires Inv(sys, s) && Enabled(sys, s, TakeNonce)
    ensures var t := Apply(sys, s, TakeNonce); AgentsOk(sys, t.log, t.strategy, t.risk, t.execution)
  {
    ExecutionNumbersOk(sys, s.log, s.execution);
  }

  lemma AgentsOutput(sys: System, s: State, step: Step)
    requires Inv(sys, s) && Enabled(sys, s, step)
    requires step.Evaluate? || step.EmitIntent? || step.EmitValidated? || step.EmitExecuted?
    ensures var t := Apply(sys, s, step); AgentsOk(sys, t.log, t.strategy, t.risk, t.execution)
  {
    match step
    case Evaluate => AgentsEvaluate(sys, s);
    case EmitIntent => AgentsEmitIntent(sys, s);
    case EmitValidated => AgentsEmitValidated(sys, s);
    case EmitExecuted => AgentsEmitExecuted(sys, s);
  }

  lemma AgentsLoopControl(sys: System, s: State, step: Step)
    requires Inv(sys, s) && Enabled(sys, s, step)
    requires step.Subscribe? || step.SkipLag? || step.Stop? || step.StopOnClosed?
    ensures var t := Apply(sys, s, step); AgentsOk(sys, t.log, t.strategy, t.risk, t.execution)
  {
    match step
    case Subscribe(role) => AgentsSubscribe(sys, s, role);
    case SkipLag(role) => AgentsSkipLag(sys, s, role);
    case Stop(role) => AgentsStop(sys, s, step);
    case StopOnClosed(role) => AgentsStop(sys, s, step);
  }

  lemma AgentsStep(sys: System, s: State, step: Step)
    requires Inv(sys, s) && Enabled(sys, s, step)
    ensures var t := Apply(sys, s, step); AgentsOk(sys, t.log, t.strategy, t.risk, t.execution)
  {
    if EnvironmentStep(step) {
      AgentsEnvironment(sys, s, step);
    } else if step.Receive? {
      AgentsReceive(sys, s, step.role);
    } else if RiskDecides(step) {
      AgentsDecide(sys, s, step);
    } else if step.TakeNonce? {
      AgentsNumber(sys, s);
    } else if step.Evaluate? || step.EmitIntent? || step.EmitValidated? || step.EmitExecuted? {
      AgentsOutput(sys, s, step);
    } else {
      AgentsLoopControl(sys, s, step);
    }
  }

  lemma InvStep(sys: System, s: State, step: Step)
    requires Inv(sys, s) && Enabled(sys, s, step)
    ensures Inv(sys, Apply(sys, s, step))
  {
    EndpointsStep(sys, s, step);
    AgentsStep(sys, s, step);
  }

  lemma InvInit(sys: System, handles: nat)
    ensures Inv(sys, Init(sys, handles))
  {}

  lemma {:induction false} InvRun(sys: System, s: State, steps: seq<Step>, t: State)
    requires Inv(sys, s) && Run(sys, s, steps, t)
    ensures Inv(sys, t)
    decreases |steps|
  {
    if steps != [] {
      InvStep(sys, s, steps[0]);
      InvRun(sys, Apply(sys, s, steps[0]), steps[1..], t);
    }
  }

  lemma {:induction false} RunExtends(sys: System, s: State, steps: seq<Step>, t: State, step: Step)
    requires Run(sys, s, steps, t) && Enabled(sys, t, step)
    ensures Run(sys, s, steps + [step], Apply(sys, t, step))
    decreases |steps|
  {
    if steps == [] {
      assert Run(sys, Apply(sys, s, step), [], Apply(sys, t, step));
    } else {
      RunExtends(sys, Apply(sys, s, steps[0]), steps[1..], t, step);
      assert (steps + [step])[1..] == steps[1..] + [step];
    }
  }

  lemma InitReachable(sys: System, handles: nat)
    ensures Reachable(sys, Init(sys, handles))
  {
    assert Run(sys, Init(sys, handles), [], Init(sys, handles));
  }

  lemma ReachableExtends(sys: System, s: State, step: Step)
    requires Reachable(sys, s) && Enabled(sys, s, step)
    ensures Reachable(sys, Apply(sys, s, step))
  {
    var handles: nat, steps: seq<Step> :| Run(sys, Init(sys, handles), steps, s);
    RunExtends(sys, Init(sys, handles), steps, s, step);
  }

  lemma InvReachable(sys: System, s: State)
    requires Reachable(sys, s)
    ensures Inv(sys, s)
  {
    var handles: nat, steps: seq<Step> :| Run(sys, Init(sys, handles), steps, s);
    InvInit(sys, handles);
    InvRun(sys, Init(sys, handles), steps, s);
  }

  lemma ReachableEndpoints(sys: System, s: State)
    requires Reachable(sys, s)
    ensures EndpointsOk(s)
  {
    InvReachable(sys, s);
  }

  lemma ReachableExecutions(sys: System, s: State)
    requires Reachable(sys, s)
    ensures ExecutionsOk(sys, s.log, s.execution)
  {
    InvReachable(sys, s);
  }
}
