/**
  The strategy, risk and execution agents running concurrently over one broadcast channel.

  One step is one receive, one skip over missed messages, one read or update of shared state or
  one publish, and any interleaving of steps is a run. The channel is its unbounded log together
  with the number of live receivers and of live sender handles; `Simulation.dfy` proves that the
  bounded ring of `Bus.dfy` refines that log.
  The environment publishes signals, cancels, opens and drops monitoring endpoints, and (through
  the tracker the risk agent shares) settles exposure and records losses.
 */
module Pipeline {
  import opened Types
  import opened Exposure
  import opened Rules
  import opened Reference

  type Capacity = c: nat | 0 < c witness 1

  datatype System = System(capacity: Capacity, initialNonce: U64, config: Config)

  /** An agent before `start`, inside its loop, and after the loop with its endpoints dropped. */
  datatype Phase = Ready | Running | Stopped

  /**
    A subscriber: where it subscribed and what it reads next. `missed` and `heard` only record history:
    how many messages lag cost it, and which it was given.
   */
  datatype Endpoint = Endpoint(phase: Phase, since: nat, cursor: nat, missed: nat, heard: seq<Message>)

  datatype StrategyPc =
    | StrategyIdle
    | Scanning(at: nat, signal: MarketSignal, next: nat)
    | Emitting(at: nat, signal: MarketSignal, next: nat, intent: TradeIntent)

  /** The tracker has a lock for each counter, so `validate` and `compute_risk_score` read it four times. */
  datatype RiskPc =
    | RiskIdle
    | Checking(at: nat, intent: TradeIntent)
    | Fitting(at: nat, intent: TradeIntent)
    | Passed(at: nat, intent: TradeIntent)
    | Scoring(at: nat, intent: TradeIntent, exposure: real)
    | Approved(trade: ValidatedTrade)
    | Tracked(trade: ValidatedTrade)

  datatype ExecutionPc =
    | ExecutionIdle
    | Taken(trade: ValidatedTrade)
    | Numbered(trade: ValidatedTrade, nonce: U64)

  /** The log position of a signal and the list index of a strategy. */
  datatype Origin = Origin(at: nat, index: nat)

  /** `source`, and `at` in the program counters, only record history: what each published intent came from. */
  datatype StrategyState = StrategyState(ep: Endpoint, pc: StrategyPc, source: seq<Origin>)

  /** `released` and `source` only record history: exposure settled so far, and where each approved intent stood. */
  datatype RiskState = RiskState(ep: Endpoint, pc: RiskPc, exposure: real, dailyLoss: real, released: real, source: seq<nat>)

  /** `source` only records history: where each trade taken so far stood. */
  datatype ExecutionState = ExecutionState(ep: Endpoint, pc: ExecutionPc, nonce: U64, source: seq<nat>)

  /** `monitors` and `handles` are the receivers and sender handles held outside the three agents. */
  datatype State = State(
    log: seq<Message>,
    receivers: nat,
    senders: nat,
    monitors: nat,
    handles: nat,
    cancelled: bool,
    strategy: StrategyState,
    risk: RiskState,
    execution: ExecutionState)

  datatype Role = StrategyRole | RiskRole | ExecutionRole

  datatype Step =
    // the environment
    | PublishSignal(signal: MarketSignal)
    | Cancel
    | OpenMonitor
    | CloseMonitor
    | CloneHandle
    | DropHandle
    | Settle(amountEth: real)
    | RecordLoss(lossEth: real)
    | ResetDaily
    // the agents' loops
    | Subscribe(role: Role)
    | Stop(role: Role)
    | StopOnClosed(role: Role)
    | SkipLag(role: Role)
    | Receive(role: Role)
    // inside a handler
    | Evaluate
    | EmitIntent
    | CheckExposure
    | CheckLoss
    | ReadExposure
    | ReadLoss
    | AddExposure
    | EmitValidated
    | TakeNonce
    | EmitExecuted

  function Ep(s: State, role: Role): Endpoint {
    match role
    case StrategyRole => s.strategy.ep
    case RiskRole => s.risk.ep
    case ExecutionRole => s.execution.ep
  }

  function WithEp(s: State, role: Role, ep: Endpoint): State {
    match role
    case StrategyRole => s.(strategy := s.strategy.(ep := ep))
    case RiskRole => s.(risk := s.risk.(ep := ep))
    case ExecutionRole => s.(execution := s.execution.(ep := ep))
  }

  /** Whether the agent is at the `select!` of its loop. */
  predicate Idle(s: State, role: Role) {
    match role
    case StrategyRole => s.strategy.pc.StrategyIdle?
    case RiskRole => s.risk.pc.RiskIdle?
    case ExecutionRole => s.execution.pc.ExecutionIdle?
  }

  function Init(sys: System, handles: nat): State {
    var ready := Endpoint(Ready, 0, 0, 0, []);
    State([], 0, handles + 3, 0, handles, false,
          StrategyState(ready, StrategyIdle, []),
          RiskState(ready, RiskIdle, 0.0, 0.0, 0.0, []),
          ExecutionState(ready, ExecutionIdle, sys.initialNonce, []))
  }

  /** A broadcast send reaches the log only when some receiver is alive; the agents log a failure and go on. */
  function Send(s: State, m: Message): State {
    if s.receivers == 0 then s else s.(log := s.log + [m])
  }

  predicate Enabled(sys: System, s: State, step: Step) {
    match step
    case PublishSignal(_) => s.handles > 0
    case Cancel => true
    case OpenMonitor => s.handles > 0
    case CloseMonitor => s.monitors > 0
    case CloneHandle => s.handles > 0
    case DropHandle => s.handles > 0
    case Settle(amount) => amount >= 0.0
    case RecordLoss(loss) => loss >= 0.0
    case ResetDaily => true
    case Subscribe(role) => Ep(s, role).phase == Ready
    case Stop(role) => Ep(s, role).phase == Running && Idle(s, role) && s.cancelled
    case StopOnClosed(role) =>
      Ep(s, role).phase == Running && Idle(s, role) && s.senders == 0 && Ep(s, role).cursor == |s.log|
    case SkipLag(role) =>
      Ep(s, role).phase == Running && Idle(s, role) && Ep(s, role).cursor + sys.capacity < |s.log|
    case Receive(role) =>
      Ep(s, role).phase == Running && Idle(s, role) && Ep(s, role).cursor < |s.log| <= Ep(s, role).cursor + sys.capacity
    case Evaluate => s.strategy.pc.Scanning?
    case EmitIntent => s.strategy.pc.Emitting?
    case CheckExposure => s.risk.pc.Checking?
    case CheckLoss => s.risk.pc.Fitting?
    case ReadExposure => s.risk.pc.Passed?
    case ReadLoss => s.risk.pc.Scoring?
    case AddExposure => s.risk.pc.Approved?
    case EmitValidated => s.risk.pc.Tracked?
    case TakeNonce => s.execution.pc.Taken?
    case EmitExecuted => s.execution.pc.Numbered?
  }

  function Leave(s: State, role: Role): State {
    WithEp(s, role, Ep(s, role).(phase := Stopped))
      .(receivers := if s.receivers == 0 then 0 else s.receivers - 1,
        senders := if s.senders == 0 then 0 else s.senders - 1)
  }

  function Advance(ep: Endpoint, m: Message): Endpoint {
    ep.(cursor := ep.cursor + 1, heard := ep.heard + [m])
  }

  function StrategyHears(agent: StrategyState, m: Message): StrategyState {
    agent.(ep := Advance(agent.ep, m), pc := if m.Signal? then Scanning(agent.ep.cursor, m.signal, 0) else agent.pc)
  }

  function RiskHears(agent: RiskState, m: Message): RiskState {
    agent.(ep := Advance(agent.ep, m), pc := if m.Intent? then Checking(agent.ep.cursor, m.intent) else agent.pc)
  }

  /** The sanity rule, and the exposure rule against what the tracker shows now. */
  function ExposureChecked(config: RiskConfig, agent: RiskState): RiskState
    requires agent.pc.Checking?
  {
    var intent := agent.pc.intent;
    agent.(pc := if CheckSanity(intent) == Pass && CheckExposureLimit(intent, agent.exposure, config.maxPositionSizeEth) == Pass
                 then Fitting(agent.pc.at, intent) else RiskIdle)
  }

  /** The slippage and gas rules, and the loss rule against what the tracker shows now. */
  function LossChecked(config: RiskConfig, agent: RiskState): RiskState
    requires agent.pc.Fitting?
  {
    var intent := agent.pc.intent;
    agent.(pc := if && CheckSlippage(intent, config.maxSlippageBps) == Pass
                    && CheckGasPrice(intent, config.maxGasPriceGwei) == Pass
                    && CheckDailyLossLimit(agent.dailyLoss, config.dailyLossLimitEth) == Pass
                 then Passed(agent.pc.at, intent) else RiskIdle)
  }

  function ExposureRead(agent: RiskState): RiskState
    requires agent.pc.Passed?
  {
    agent.(pc := Scoring(agent.pc.at, agent.pc.intent, agent.exposure))
  }

  /** The score is made of the exposure read before and the loss read now. */
  function LossRead(config: RiskConfig, agent: RiskState): RiskState
    requires agent.pc.Scoring?
  {
    var score := RiskScore(config, agent.pc.exposure, agent.dailyLoss, agent.pc.intent);
    agent.(pc := Approved(ValidatedTrade(agent.pc.intent, score)), source := agent.source + [agent.pc.at])
  }

  function ExposureAdded(agent: RiskState): RiskState
    requires agent.pc.Approved?
  {
    agent.(pc := Tracked(agent.pc.trade), exposure := Moved(agent.exposure, Add(AmountEth(agent.pc.trade.intent))))
  }

  function ExecutionHears(agent: ExecutionState, m: Message): ExecutionState {
    if m.Validated? then
      agent.(ep := Advance(agent.ep, m), pc := Taken(m.trade), source := agent.source + [agent.ep.cursor])
    else agent.(ep := Advance(agent.ep, m))
  }

  /** Hand the agent the message at its cursor. */
  function Deliver(s: State, role: Role): State
    requires Ep(s, role).cursor < |s.log|
  {
    var m := s.log[Ep(s, role).cursor];
    match role
    case StrategyRole => s.(strategy := StrategyHears(s.strategy, m))
    case RiskRole => s.(risk := RiskHears(s.risk, m))
    case ExecutionRole => s.(execution := ExecutionHears(s.execution, m))
  }

  function EvaluateNext(sys: System, s: State): State
    requires s.strategy.pc.Scanning?
  {
    var at, signal, next := s.strategy.pc.at, s.strategy.pc.signal, s.strategy.pc.next;
    s.(strategy := s.strategy.(pc :=
        if next >= |sys.config.strategies| then StrategyIdle
        else
          match sys.config.strategies[next](signal)
          case Some(intent) => Emitting(at, signal, next, intent)
          case None => Scanning(at, signal, next + 1)))
  }

  function AfterEmit(agent: StrategyState): StrategyState
    requires agent.pc.Emitting?
  {
    agent.(pc := Scanning(agent.pc.at, agent.pc.signal, agent.pc.next + 1),
           source := agent.source + [Origin(agent.pc.at, agent.pc.next)])
  }

  function PublishIntent(s: State): State
    requires s.strategy.pc.Emitting?
  {
    Send(s, Intent(s.strategy.pc.intent)).(strategy := AfterEmit(s.strategy))
  }

  function PublishValidated(s: State): State
    requires s.risk.pc.Tracked?
  {
    Send(s, Validated(s.risk.pc.trade)).(risk := s.risk.(pc := RiskIdle))
  }

  function ResultOf(sys: System, pc: ExecutionPc): ExecutionResult
    requires pc.Numbered?
  {
    ExecutionResult(pc.trade, ExecuteTrade(sys.config.execution, pc.trade, pc.nonce))
  }

  function PublishExecuted(sys: System, s: State): State
    requires s.execution.pc.Numbered?
  {
    Send(s, Executed(ResultOf(sys, s.execution.pc))).(execution := s.execution.(pc := ExecutionIdle))
  }

  function Settled(risk: RiskState, amount: real): RiskState {
    var left := Moved(risk.exposure, Remove(amount));
    risk.(exposure := left, released := risk.released + (risk.exposure - left))
  }

  function Apply(sys: System, s: State, step: Step): State
    requires Enabled(sys, s, step)
  {
    match step
    case PublishSignal(signal) => Send(s, Signal(signal))
    case Cancel => s.(cancelled := true)
    case OpenMonitor => s.(monitors := s.monitors + 1, receivers := s.receivers + 1)
    case CloseMonitor => s.(monitors := s.monitors - 1, receivers := if s.receivers == 0 then 0 else s.receivers - 1)
    case CloneHandle => s.(handles := s.handles + 1, senders := s.senders + 1)
    case DropHandle => s.(handles := s.handles - 1, senders := if s.senders == 0 then 0 else s.senders - 1)
    case Settle(amount) => s.(risk := Settled(s.risk, amount))
    case RecordLoss(loss) => s.(risk := s.risk.(dailyLoss := s.risk.dailyLoss + loss))
    case ResetDaily => s.(risk := s.risk.(dailyLoss := 0.0))
    case Subscribe(role) =>
      WithEp(s, role, Endpoint(Running, |s.log|, |s.log|, 0, [])).(receivers := s.receivers + 1)
    case Stop(role) => Leave(s, role)
    case StopOnClosed(role) => Leave(s, role)
    case SkipLag(role) =>
      var ep := Ep(s, role);
      var oldest := |s.log| - sys.capacity;
      WithEp(s, role, ep.(cursor := oldest, missed := ep.missed + (oldest - ep.cursor)))
    case Receive(role) => Deliver(s, role)
    case Evaluate => EvaluateNext(sys, s)
    case EmitIntent => PublishIntent(s)
    case CheckExposure => s.(risk := ExposureChecked(sys.config.risk, s.risk))
    case CheckLoss => s.(risk := LossChecked(sys.config.risk, s.risk))
    case ReadExposure => s.(risk := ExposureRead(s.risk))
    case ReadLoss => s.(risk := LossRead(sys.config.risk, s.risk))
    case AddExposure => s.(risk := ExposureAdded(s.risk))
    case EmitValidated => PublishValidated(s)
    case TakeNonce =>
      s.(execution := s.execution.(pc := Numbered(s.execution.pc.trade, s.execution.nonce), nonce := NextNonce(s.execution.nonce)))
    case EmitExecuted => PublishExecuted(sys, s)
  }

  /** `steps` leads from `s` to `t`. */
  ghost predicate Run(sys: System, s: State, steps: seq<Step>, t: State)
    decreases |steps|
  {
    if steps == [] then s == t
    else Enabled(sys, s, steps[0]) && Run(sys, Apply(sys, s, steps[0]), steps[1..], t)
  }

  ghost predicate Reachable(sys: System, s: State) {
    exists handles: nat, steps: seq<Step> :: Run(sys, Init(sys, handles), steps, s)
  }
}
