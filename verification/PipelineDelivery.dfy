/**
  What an agent of the pipeline is given: messages of the log in order and without repetition, all of
  those since its subscription as long as it does not lag.
 */
module PipelineDelivery {
  import opened Types
  import opened Log
  import opened Pipeline
  import opened PipelineSafety
  import Bus

  // --- how a step moves one endpoint ---

  ghost predicate Hears(log: seq<Message>, ep: Endpoint, ep': Endpoint) {
    ep.phase != Ready && ep.cursor < |log| && ep' == Advance(ep, log[ep.cursor])
  }

  ghost predicate Arrives(log: seq<Message>, ep: Endpoint, ep': Endpoint) {
    ep.phase == Ready && ep' == Endpoint(Running, |log|, |log|, 0, [])
  }

  ghost predicate Leaves(ep: Endpoint, ep': Endpoint) {
    ep' == ep.(phase := Stopped)
  }

  ghost predicate Skips(log: seq<Message>, ep: Endpoint, ep': Endpoint) {
    ep.cursor < ep'.cursor <= |log| && ep' == ep.(cursor := ep'.cursor, missed := ep.missed + (ep'.cursor - ep.cursor))
  }

  predicate IsLoopStep(step: Step) {
    step.Subscribe? || step.Stop? || step.StopOnClosed? || step.SkipLag? || step.Receive?
  }

  lemma EnvironmentKeepsEndpoints(sys: System, s: State, step: Step, role: Role)
    requires Enabled(sys, s, step) && EnvironmentStep(step)
    ensures Ep(Apply(sys, s, step), role) == Ep(s, role) && s.log <= Apply(sys, s, step).log
  {}

  lemma OthersKeepEndpoint(sys: System, s: State, step: Step, role: Role)
    requires Enabled(sys, s, step) && IsLoopStep(step) && step.role != role
    ensures Ep(Apply(sys, s, step), role) == Ep(s, role) && s.log <= Apply(sys, s, step).log
  {}

  lemma HandlersKeepEndpoints(sys: System, s: State, step: Step, role: Role)
    requires Enabled(sys, s, step) && !EnvironmentStep(step) && !IsLoopStep(step)
    ensures Ep(Apply(sys, s, step), role) == Ep(s, role) && s.log <= Apply(sys, s, step).log
  {}

  lemma LoopMovesEndpoint(sys: System, s: State, step: Step)
    requires Enabled(sys, s, step) && IsLoopStep(step)
    ensures var ep, ep' := Ep(s, step.role), Ep(Apply(sys, s, step), step.role);
            match step
            case Subscribe(_) => Arrives(s.log, ep, ep')
            case SkipLag(_) => Skips(s.log, ep, ep')
            case Receive(_) => Hears(s.log, ep, ep')
            case _ => Leaves(ep, ep')
    ensures Apply(sys, s, step).log == s.log
  {
    match step.role
    case StrategyRole =>
    case RiskRole =>
    case ExecutionRole =>
  }

  /** Every step leaves an endpoint alone, or moves it in one of four ways. */
  lemma EndpointMoves(sys: System, s: State, step: Step, role: Role)
    requires Enabled(sys, s, step)
    ensures var ep, ep' := Ep(s, role), Ep(Apply(sys, s, step), role);
            && s.log <= Apply(sys, s, step).log
            && (|| ep' == ep
                || (IsLoopStep(step) && step.role == role &&
                    (Arrives(s.log, ep, ep') || Leaves(ep, ep') || Hears(s.log, ep, ep') || (step.SkipLag? && Skips(s.log, ep, ep')))))
  {
    if EnvironmentStep(step) {
      EnvironmentKeepsEndpoints(sys, s, step, role);
    } else if !IsLoopStep(step) {
      HandlersKeepEndpoints(sys, s, step, role);
    } else if step.role == role {
      LoopMovesEndpoint(sys, s, step);
    } else {
      OthersKeepEndpoint(sys, s, step, role);
    }
  }

  // --- without lag ---

  /** The endpoint was given exactly the messages between its subscription and its cursor. */
  ghost predicate HeardAll(log: seq<Message>, ep: Endpoint) {
    && ep.since <= ep.cursor <= |log|
    && ep.heard == log[ep.since..ep.cursor]
    && (ep.phase == Ready ==> ep.cursor == 0)
  }

  ghost predicate AllHeardAll(s: State) {
    HeardAll(s.log, s.strategy.ep) && HeardAll(s.log, s.risk.ep) && HeardAll(s.log, s.execution.ep)
  }

  lemma HeardAllGrows(log: seq<Message>, log': seq<Message>, ep: Endpoint)
    requires HeardAll(log, ep) && log <= log'
    ensures HeardAll(log', ep)
  {
    assert log'[ep.since..ep.cursor] == log[ep.since..ep.cursor];
  }

  lemma HeardAllHears(log: seq<Message>, ep: Endpoint)
    requires HeardAll(log, ep) && ep.phase != Ready && ep.cursor < |log|
    ensures HeardAll(log, Advance(ep, log[ep.cursor]))
  {
    var m, next := log[ep.cursor], ep.cursor + 1;
    assert log[ep.since..next] == log[ep.since..ep.cursor] + [m];
  }

  lemma HeardAllArrives(log: seq<Message>)
    ensures HeardAll(log, Endpoint(Running, |log|, |log|, 0, []))
  {}

  lemma HeardAllMoves(log: seq<Message>, ep: Endpoint, ep': Endpoint)
    requires HeardAll(log, ep)
    requires ep' == ep || Arrives(log, ep, ep') || Leaves(ep, ep') || Hears(log, ep, ep')
    ensures HeardAll(log, ep')
  {
    if Arrives(log, ep, ep') {
      HeardAllArrives(log);
    } else if Hears(log, ep, ep') {
      HeardAllHears(log, ep);
    }
  }

  lemma HeardAllStepOf(sys: System, s: State, step: Step, role: Role)
    requires HeardAll(s.log, Ep(s, role)) && Enabled(sys, s, step) && !step.SkipLag?
    ensures HeardAll(Apply(sys, s, step).log, Ep(Apply(sys, s, step), role))
  {
    var t := Apply(sys, s, step);
    EndpointMoves(sys, s, step, role);
    HeardAllMoves(s.log, Ep(s, role), Ep(t, role));
    HeardAllGrows(s.log, t.log, Ep(t, role));
  }

  lemma HeardAllStep(sys: System, s: State, step: Step)
    requires AllHeardAll(s) && Enabled(sys, s, step) && !step.SkipLag?
    ensures AllHeardAll(Apply(sys, s, step))
  {
    HeardAllStepOf(sys, s, step, StrategyRole);
    HeardAllStepOf(sys, s, step, RiskRole);
    HeardAllStepOf(sys, s, step, ExecutionRole);
  }

  lemma {:induction false} HeardAllRun(sys: System, s: State, steps: seq<Step>, t: State)
    requires AllHeardAll(s) && Run(sys, s, steps, t) && forall i :: 0 <= i < |steps| ==> !steps[i].SkipLag?
    ensures AllHeardAll(t)
    decreases |steps|
  {
    if steps != [] {
      HeardAllStep(sys, s, steps[0]);
      HeardAllRun(sys, Apply(sys, s, steps[0]), steps[1..], t);
    }
  }

  /** Nothing is missed as long as nobody lags. */
  lemma HeardAllFromInit(sys: System, handles: nat, steps: seq<Step>, s: State)
    requires Run(sys, Init(sys, handles), steps, s) && forall i :: 0 <= i < |steps| ==> !steps[i].SkipLag?
    ensures AllHeardAll(s)
  {
    HeardAllRun(sys, Init(sys, handles), steps, s);
  }

  // --- with any lag ---

  /** The messages at strictly increasing positions since the subscription; delivered and missed add up to the way gone. */
  ghost predicate DeliveredAt(log: seq<Message>, ep: Endpoint, positions: seq<nat>) {
    && ep.cursor <= |log|
    && Increasing(positions)
    && (forall k :: 0 <= k < |positions| ==> ep.since <= positions[k] < ep.cursor)
    && ep.heard == Bus.ReadAt(log, positions)
    && ep.since + |positions| + ep.missed == ep.cursor
  }

  lemma DeliveredMoves(log: seq<Message>, log': seq<Message>, ep: Endpoint, ep': Endpoint, positions: seq<nat>)
    returns (positions': seq<nat>)
    requires DeliveredAt(log, ep, positions) && log <= log'
    requires ep' == ep || Arrives(log, ep, ep') || Leaves(ep, ep') || Hears(log, ep, ep') || Skips(log, ep, ep')
    ensures DeliveredAt(log', ep', positions')
  {
    Bus.ReadAtGrows(log, log', positions);
    if ep' == ep || Leaves(ep, ep') || Skips(log, ep, ep') {
      positions' := positions;
    } else if Arrives(log, ep, ep') {
      positions' := [];
    } else {
      positions' := positions + [ep.cursor];
      assert Bus.ReadAt(log', positions') == Bus.ReadAt(log', positions) + [log'[ep.cursor]];
    }
  }

  lemma {:induction false} DeliveredRun(sys: System, s: State, steps: seq<Step>, t: State, role: Role, positions: seq<nat>)
    returns (positions': seq<nat>)
    requires DeliveredAt(s.log, Ep(s, role), positions) && Run(sys, s, steps, t)
    ensures DeliveredAt(t.log, Ep(t, role), positions')
    decreases |steps|
  {
    if steps == [] {
      positions' := positions;
    } else {
      var next := Apply(sys, s, steps[0]);
      EndpointMoves(sys, s, steps[0], role);
      var moved := DeliveredMoves(s.log, next.log, Ep(s, role), Ep(next, role), positions);
      positions' := DeliveredRun(sys, next, steps[1..], t, role, moved);
    }
  }

  /** In every reachable state, whatever was lost: in order, without repetition, and every loss counted. */
  lemma DeliveriesAreInOrder(sys: System, s: State, role: Role) returns (positions: seq<nat>)
    requires Reachable(sys, s)
    ensures DeliveredAt(s.log, Ep(s, role), positions)
  {
    var handles: nat, steps: seq<Step> :| Run(sys, Init(sys, handles), steps, s);
    positions := DeliveredRun(sys, Init(sys, handles), steps, s, role, []);
  }

  // --- stopping ---

  /** Nobody has stopped unless everybody was told to. */
  ghost predicate StoppedOnlyByCancellation(s: State) {
    !s.cancelled ==>
      s.strategy.ep.phase != Stopped && s.risk.ep.phase != Stopped && s.execution.ep.phase != Stopped
  }

  lemma StopsStepOf(sys: System, s: State, step: Step, role: Role)
    requires EndpointsOk(s) && Enabled(sys, s, step) && !Apply(sys, s, step).cancelled && Ep(s, role).phase != Stopped
    ensures Ep(Apply(sys, s, step), role).phase != Stopped
  {
    ClosedNeverSeen(sys, s, step);
    if IsLoopStep(step) && step.role == role {
      LoopMovesEndpoint(sys, s, step);
    } else {
      EndpointMoves(sys, s, step, role);
    }
  }

  lemma StopsStep(sys: System, s: State, step: Step)
    requires EndpointsOk(s) && StoppedOnlyByCancellation(s) && Enabled(sys, s, step)
    ensures StoppedOnlyByCancellation(Apply(sys, s, step))
  {
    if !Apply(sys, s, step).cancelled {
      ClosedNeverSeen(sys, s, step);
      StopsStepOf(sys, s, step, StrategyRole);
      StopsStepOf(sys, s, step, RiskRole);
      StopsStepOf(sys, s, step, ExecutionRole);
    }
  }

  lemma ClosedNeverSeen(sys: System, s: State, step: Step)
    requires EndpointsOk(s) && Enabled(sys, s, step)
    ensures !step.StopOnClosed?
    ensures !Apply(sys, s, step).cancelled ==> !s.cancelled && !step.Stop?
  {}

  lemma {:induction false} StopsRun(sys: System, s: State, steps: seq<Step>, t: State)
    requires EndpointsOk(s) && StoppedOnlyByCancellation(s) && Run(sys, s, steps, t)
    ensures StoppedOnlyByCancellation(t)
    decreases |steps|
  {
    if steps != [] {
      StopsStep(sys, s, steps[0]);
      EndpointsStep(sys, s, steps[0]);
      StopsRun(sys, Apply(sys, s, steps[0]), steps[1..], t);
    }
  }

  lemma ReachableStops(sys: System, handles: nat, steps: seq<Step>, s: State)
    requires Run(sys, Init(sys, handles), steps, s)
    ensures StoppedOnlyByCancellation(s)
  {
    StopsRun(sys, Init(sys, handles), steps, s);
  }
}
