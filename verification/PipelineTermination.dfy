/**
  The agents read their own output from the bus they write to, and still come to rest: without new
  signals every interleaving ends after a number of steps that the current state bounds.
 */
module PipelineTermination {
  import opened Types
  import opened Pipeline
  import opened PipelineSafety

  /** Steps one unread message may still cause its reader, counting what the reader publishes and who reads that. */
  function Weight(sys: System, role: Role, m: Message): nat {
    match role
    case StrategyRole => if m.Signal? then 2 + 19 * |sys.config.strategies| else 1
    case RiskRole => if m.Intent? then 15 else 1
    case ExecutionRole => if m.Validated? then 6 else 1
  }

  function UnreadWork(sys: System, role: Role, log: seq<Message>, cursor: nat): nat {
    if |log| <= cursor then 0
    else UnreadWork(sys, role, log[..|log| - 1], cursor) + Weight(sys, role, log[|log| - 1])
  }

  function Backlog(sys: System, role: Role, log: seq<Message>, ep: Endpoint): nat {
    match ep.phase
    case Ready => 2
    case Running => 1 + UnreadWork(sys, role, log, ep.cursor)
    case Stopped => 0
  }

  function StrategyRank(sys: System, pc: StrategyPc): nat {
    var k := |sys.config.strategies|;
    match pc
    case StrategyIdle => 0
    case Scanning(_, _, next) => 1 + 19 * (if next < k then k - next else 0)
    case Emitting(_, _, next, _) => 19 * (if next < k then k - next else 0)
  }

  function RiskRank(pc: RiskPc): nat {
    match pc
    case RiskIdle => 0
    case Checking(_, _) => 14
    case Fitting(_, _) => 13
    case Passed(_, _) => 12
    case Scoring(_, _, _) => 11
    case Approved(_) => 10
    case Tracked(_) => 9
  }

  function ExecutionRank(pc: ExecutionPc): nat {
    match pc
    case ExecutionIdle => 0
    case Taken(_) => 5
    case Numbered(_, _) => 4
  }

  function Pending(sys: System, s: State): nat {
    StrategyRank(sys, s.strategy.pc) + RiskRank(s.risk.pc) + ExecutionRank(s.execution.pc)
  }

  function Measure(sys: System, s: State): nat {
    Pending(sys, s)
    + Backlog(sys, StrategyRole, s.log, s.strategy.ep)
    + Backlog(sys, RiskRole, s.log, s.risk.ep)
    + Backlog(sys, ExecutionRole, s.log, s.execution.ep)
  }

  lemma UnreadWorkAppend(sys: System, role: Role, log: seq<Message>, m: Message, cursor: nat)
    requires cursor <= |log|
    ensures UnreadWork(sys, role, log + [m], cursor) == UnreadWork(sys, role, log, cursor) + Weight(sys, role, m)
  {
    assert (log + [m])[..|log|] == log;
  }

  lemma {:induction false} UnreadWorkNext(sys: System, role: Role, log: seq<Message>, cursor: nat)
    requires cursor < |log|
    ensures UnreadWork(sys, role, log, cursor) == Weight(sys, role, log[cursor]) + UnreadWork(sys, role, log, cursor + 1)
  {
    if cursor + 1 < |log| {
      UnreadWorkNext(sys, role, log[..|log| - 1], cursor);
    } else {
      assert UnreadWork(sys, role, log[..|log| - 1], cursor) == 0;
    }
  }

  lemma {:induction false} UnreadWorkSkip(sys: System, role: Role, log: seq<Message>, cursor: nat, later: nat)
    requires cursor < later <= |log|
    ensures UnreadWork(sys, role, log, later) < UnreadWork(sys, role, log, cursor)
    decreases later - cursor
  {
    UnreadWorkNext(sys, role, log, cursor);
    if cursor + 1 < later {
      UnreadWorkSkip(sys, role, log, cursor + 1, later);
    }
  }

  lemma BacklogAppend(sys: System, role: Role, log: seq<Message>, m: Message, ep: Endpoint)
    requires ep.cursor <= |log|
    ensures Backlog(sys, role, log + [m], ep) <= Backlog(sys, role, log, ep) + Weight(sys, role, m)
  {
    UnreadWorkAppend(sys, role, log, m, ep.cursor);
  }

  /** Publishing adds at most the message's weight for each of the three readers. */
  lemma SendCost(sys: System, s: State, m: Message)
    requires EndpointsOk(s)
    ensures Measure(sys, Send(s, m)) <=
            Measure(sys, s) + Weight(sys, StrategyRole, m) + Weight(sys, RiskRole, m) + Weight(sys, ExecutionRole, m)
  {
    BacklogAppend(sys, StrategyRole, s.log, m, s.strategy.ep);
    BacklogAppend(sys, RiskRole, s.log, m, s.risk.ep);
    BacklogAppend(sys, ExecutionRole, s.log, m, s.execution.ep);
  }

  lemma ReceiveDecreases(sys: System, s: State, role: Role)
    requires EndpointsOk(s) && Enabled(sys, s, Receive(role))
    ensures Measure(sys, Apply(sys, s, Receive(role))) < Measure(sys, s)
  {
    UnreadWorkNext(sys, role, s.log, Ep(s, role).cursor);
    match role
    case StrategyRole =>
    case RiskRole =>
    case ExecutionRole =>
  }

  lemma SkipDecreases(sys: System, s: State, role: Role)
    requires EndpointsOk(s) && Enabled(sys, s, SkipLag(role))
    ensures Measure(sys, Apply(sys, s, SkipLag(role))) < Measure(sys, s)
  {
    UnreadWorkSkip(sys, role, s.log, Ep(s, role).cursor, |s.log| - sys.capacity);
  }

  lemma ArriveOrLeaveDecreases(sys: System, s: State, step: Step)
    requires EndpointsOk(s) && Enabled(sys, s, step) && (step.Subscribe? || step.Stop? || step.StopOnClosed?)
    ensures Measure(sys, Apply(sys, s, step)) < Measure(sys, s)
  {
    match step.role
    case StrategyRole =>
    case RiskRole =>
    case ExecutionRole =>
  }

  lemma EmitIntentDecreases(sys: System, s: State)
    requires EndpointsOk(s) && s.strategy.pc.Emitting? && s.strategy.pc.next < |sys.config.strategies|
    ensures Measure(sys, PublishIntent(s)) < Measure(sys, s)
  {
    SendCost(sys, s, Intent(s.strategy.pc.intent));
  }

  lemma EmitValidatedDecreases(sys: System, s: State)
    requires EndpointsOk(s) && s.risk.pc.Tracked?
    ensures Measure(sys, PublishValidated(s)) < Measure(sys, s)
  {
    SendCost(sys, s, Validated(s.risk.pc.trade));
  }

  lemma EmitExecutedDecreases(sys: System, s: State)
    requires EndpointsOk(s) && s.execution.pc.Numbered?
    ensures Measure(sys, PublishExecuted(sys, s)) < Measure(sys, s)
  {
    SendCost(sys, s, Executed(ResultOf(sys, s.execution.pc)));
  }

  lemma HandlerLowersPending(sys: System, s: State, step: Step)
    requires Enabled(sys, s, step) && (step.Evaluate? || RiskDecides(step) || step.TakeNonce?)
    ensures var t := Apply(sys, s, step);
            && Pending(sys, t) < Pending(sys, s) && t.log == s.log
            && t.strategy.ep == s.strategy.ep && t.risk.ep == s.risk.ep && t.execution.ep == s.execution.ep
  {
    if step.Evaluate? {
      assert StrategyRank(sys, Apply(sys, s, step).strategy.pc) < StrategyRank(sys, s.strategy.pc);
    }
  }

  lemma HandlerDecreases(sys: System, s: State, step: Step)
    requires Enabled(sys, s, step) && (step.Evaluate? || RiskDecides(step) || step.TakeNonce?)
    ensures Measure(sys, Apply(sys, s, step)) < Measure(sys, s)
  {
    HandlerLowersPending(sys, s, step);
  }

  /** Every step of every agent makes the measure smaller, whatever the others are doing. */
  lemma StepDecreases(sys: System, s: State, step: Step)
    requires Inv(sys, s) && Enabled(sys, s, step) && !EnvironmentStep(step)
    ensures Measure(sys, Apply(sys, s, step)) < Measure(sys, s)
  {
    match step
    case Receive(role) => ReceiveDecreases(sys, s, role);
    case SkipLag(role) => SkipDecreases(sys, s, role);
    case Subscribe(_) => ArriveOrLeaveDecreases(sys, s, step);
    case Stop(_) => ArriveOrLeaveDecreases(sys, s, step);
    case StopOnClosed(_) => ArriveOrLeaveDecreases(sys, s, step);
    case EmitIntent => EmitIntentDecreases(sys, s);
    case EmitValidated => EmitValidatedDecreases(sys, s);
    case EmitExecuted => EmitExecutedDecreases(sys, s);
    case _ => HandlerDecreases(sys, s, step);
  }

  lemma AgentProgress(sys: System, s: State, step: Step)
    requires Inv(sys, s) && Enabled(sys, s, step) && !EnvironmentStep(step)
    ensures Inv(sys, Apply(sys, s, step)) && Measure(sys, Apply(sys, s, step)) < Measure(sys, s)
  {
    StepDecreases(sys, s, step);
    InvStep(sys, s, step);
  }

  ghost predicate AgentsOnly(steps: seq<Step>) {
    forall i :: 0 <= i < |steps| ==> !EnvironmentStep(steps[i])
  }

  lemma FirstStep(sys: System, s: State, steps: seq<Step>, t: State)
    requires Inv(sys, s) && Run(sys, s, steps, t) && AgentsOnly(steps) && steps != []
    ensures var next := Apply(sys, s, steps[0]);
            && Inv(sys, next) && Run(sys, next, steps[1..], t) && AgentsOnly(steps[1..])
            && Measure(sys, next) < Measure(sys, s)
  {
    AgentProgress(sys, s, steps[0]);
  }

  /** Bounded work: no run of agent steps is longer than the measure of the state it starts in. */
  lemma {:induction false} BoundedWork(sys: System, s: State, steps: seq<Step>, t: State)
    requires Inv(sys, s) && Run(sys, s, steps, t) && AgentsOnly(steps)
    ensures |steps| + Measure(sys, t) <= Measure(sys, s)
    decreases |steps|
  {
    if steps != [] {
      FirstStep(sys, s, steps, t);
      BoundedWork(sys, Apply(sys, s, steps[0]), steps[1..], t);
    }
  }

  ghost predicate AtRest(s: State, role: Role) {
    var ep := Ep(s, role);
    ep.phase == Stopped || (ep.phase == Running && Idle(s, role) && ep.cursor == |s.log| && !s.cancelled)
  }

  ghost predicate Quiescent(s: State) {
    AtRest(s, StrategyRole) && AtRest(s, RiskRole) && AtRest(s, ExecutionRole)
  }

  /** A step some agent can take, for an agent that is not at rest. */
  function NextStep(sys: System, s: State, role: Role): Step {
    var ep := Ep(s, role);
    if ep.phase == Ready then Subscribe(role)
    else if Idle(s, role) then
      if s.cancelled then Stop(role)
      else if ep.cursor + sys.capacity < |s.log| then SkipLag(role)
      else Receive(role)
    else
      match role
      case StrategyRole => if s.strategy.pc.Scanning? then Evaluate else EmitIntent
      case RiskRole =>
        (match s.risk.pc
         case Checking(_, _) => CheckExposure
         case Fitting(_, _) => CheckLoss
         case Passed(_, _) => ReadExposure
         case Scoring(_, _, _) => ReadLoss
         case Approved(_) => AddExposure
         case _ => EmitValidated)
      case ExecutionRole => if s.execution.pc.Taken? then TakeNonce else EmitExecuted
  }

  lemma RestlessAgentCanStep(sys: System, s: State, role: Role)
    requires EndpointsOk(s) && !AtRest(s, role)
    ensures Enabled(sys, s, NextStep(sys, s, role)) && !EnvironmentStep(NextStep(sys, s, role))
  {
    match role
    case StrategyRole =>
    case RiskRole =>
    case ExecutionRole =>
  }

  function StepRole(step: Step): Role
    requires !EnvironmentStep(step)
  {
    if step.Evaluate? || step.EmitIntent? then StrategyRole
    else if RiskDecides(step) || step.EmitValidated? then RiskRole
    else if step.TakeNonce? || step.EmitExecuted? then ExecutionRole
    else step.role
  }

  lemma AgentAtRestCannotStep(sys: System, s: State, step: Step)
    requires EndpointsOk(s) && !EnvironmentStep(step) && AtRest(s, StepRole(step))
    ensures !Enabled(sys, s, step)
  {
    match StepRole(step)
    case StrategyRole =>
    case RiskRole =>
    case ExecutionRole =>
  }

  /** No agent can step exactly when every agent has stopped or has read and answered everything. */
  lemma StuckIffQuiescent(sys: System, s: State)
    requires Inv(sys, s)
    ensures (forall step :: !EnvironmentStep(step) ==> !Enabled(sys, s, step)) <==> Quiescent(s)
  {
    if Quiescent(s) {
      forall step | !EnvironmentStep(step) ensures !Enabled(sys, s, step) {
        AgentAtRestCannotStep(sys, s, step);
      }
    } else {
      var role := if !AtRest(s, StrategyRole) then StrategyRole else if !AtRest(s, RiskRole) then RiskRole else ExecutionRole;
      RestlessAgentCanStep(sys, s, role);
    }
  }

  lemma RunPrepend(sys: System, s: State, step: Step, rest: seq<Step>, t: State) returns (steps: seq<Step>)
    requires !EnvironmentStep(step) && Enabled(sys, s, step)
    requires Run(sys, Apply(sys, s, step), rest, t) && AgentsOnly(rest)
    ensures Run(sys, s, steps, t) && AgentsOnly(steps)
  {
    steps := [step] + rest;
    assert steps[1..] == rest;
  }

  lemma RestlessStep(sys: System, s: State) returns (step: Step)
    requires Inv(sys, s) && !Quiescent(s)
    ensures !EnvironmentStep(step) && Enabled(sys, s, step)
  {
    StuckIffQuiescent(sys, s);
    step :| !EnvironmentStep(step) && Enabled(sys, s, step);
  }

  /** From every state the agents can be driven to rest, and `BoundedWork` says any way of driving them ends. */
  lemma {:induction false} RunToQuiescence(sys: System, s: State) returns (steps: seq<Step>, t: State)
    requires Inv(sys, s)
    ensures Run(sys, s, steps, t) && AgentsOnly(steps) && Quiescent(t)
    decreases Measure(sys, s)
  {
    if Quiescent(s) {
      steps, t := [], s;
    } else {
      var step := RestlessStep(sys, s);
      AgentProgress(sys, s, step);
      var rest, end := RunToQuiescence(sys, Apply(sys, s, step));
      steps := RunPrepend(sys, s, step, rest, end);
      t := end;
    }
  }

  /**
    Termination despite feedback: from any reachable state, agents left to themselves in any order
    take a bounded number of steps, and when none can step any more all of them are at rest.
   */
  lemma EveryScheduleComesToRest(sys: System, s: State, steps: seq<Step>, t: State)
    requires Reachable(sys, s) && Run(sys, s, steps, t) && AgentsOnly(steps)
    ensures |steps| <= Measure(sys, s)
    ensures (forall step :: !EnvironmentStep(step) ==> !Enabled(sys, t, step)) <==> Quiescent(t)
  {
    InvReachable(sys, s);
    BoundedWork(sys, s, steps, t);
    InvRun(sys, s, steps, t);
    StuckIffQuiescent(sys, t);
  }
}
