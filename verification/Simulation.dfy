/**
  The bus and the agents' turns are runs of the pipeline. The operations of the bounded ring of
  `Bus.dfy` are steps of `Pipeline.dfy` on its log, and a turn of an agent's loop in `Agents.dfy` is
  a run of that agent's own steps.
 */
module Simulation {
  import opened Types
  import opened Log
  import opened Rules
  import opened Reference
  import Bus
  import Exposure
  import opened AgentLoop
  import opened Agents
  import opened Pipeline
  import opened PipelineSafety
  import PipelineTermination

  // ---------------------------------------------------------------------------------------------
  // The ring refines the log
  // ---------------------------------------------------------------------------------------------

  /** The channel looks the same from both sides. */
  ghost predicate SameChannel(bus: Bus.MessageBus, sys: System, s: State)
    reads bus, bus.slots
  {
    && bus.Valid() && bus.slots.Length == sys.capacity
    && bus.log == s.log && bus.receivers == s.receivers && bus.senders == s.senders
  }

  /** The subscriber is the endpoint of the agent in that role. */
  ghost predicate SameReader(subscriber: Bus.BusSubscriber, sys: System, s: State, role: Role)
    reads subscriber, subscriber.bus, subscriber.bus.slots
  {
    && SameChannel(subscriber.bus, sys, s) && subscriber.Valid()
    && Ep(s, role) == Endpoint(Running, subscriber.since, subscriber.next, subscriber.missed, subscriber.Delivered())
  }

  method PublishIsSend(bus: Bus.MessageBus, m: Message, ghost sys: System, ghost s: State)
    requires SameChannel(bus, sys, s)
    modifies bus`tail, bus`log, bus.slots
    ensures SameChannel(bus, sys, Send(s, m))
  {
    var _ := bus.Publish(m);
  }

  method SubscribeIsStep(bus: Bus.MessageBus, ghost sys: System, ghost s: State, ghost role: Role)
    returns (subscriber: Bus.BusSubscriber)
    requires SameChannel(bus, sys, s) && Enabled(sys, s, Subscribe(role))
    modifies bus`receivers
    ensures fresh(subscriber) && SameReader(subscriber, sys, Apply(sys, s, Subscribe(role)), role)
  {
    subscriber := bus.Subscribe();
  }

  /** The four answers of the ring are the pipeline's steps: each is given exactly when its step is enabled, and does it. */
  method PollIsStep(subscriber: Bus.BusSubscriber, ghost sys: System, ghost s: State, ghost role: Role) returns (r: Bus.Polled)
    requires SameReader(subscriber, sys, s, role) && Idle(s, role)
    modifies subscriber
    ensures r.Lagged? <==> Enabled(sys, s, SkipLag(role))
    ensures r.Lagged? ==> SameReader(subscriber, sys, Apply(sys, s, SkipLag(role)), role)
    ensures r.Ready? <==> Enabled(sys, s, Receive(role))
    ensures r.Ready? ==>
              && r.message == s.log[Ep(s, role).cursor]
              && SameReader(subscriber, sys, Apply(sys, s, Receive(role)), role)
    ensures r.Closed? <==> Enabled(sys, s, StopOnClosed(role))
    ensures r.Closed? || r.NothingYet? ==> SameReader(subscriber, sys, s, role)
  {
    r := subscriber.Poll();
  }

  // ---------------------------------------------------------------------------------------------
  // The tracker's operations are the environment's steps
  // ---------------------------------------------------------------------------------------------

  ghost predicate SameTracker(tracker: Exposure.ExposureTracker, s: State)
    reads tracker
  {
    tracker.exposureEth == s.risk.exposure && tracker.dailyLossEth == s.risk.dailyLoss
  }

  method RemoveExposureIsSettle(tracker: Exposure.ExposureTracker, eth: real, ghost sys: System, ghost s: State)
    requires SameTracker(tracker, s) && eth >= 0.0
    modifies tracker
    ensures SameTracker(tracker, Apply(sys, s, Settle(eth)))
  {
    tracker.RemoveExposure(eth);
  }

  method RecordLossIsStep(tracker: Exposure.ExposureTracker, eth: real, ghost sys: System, ghost s: State)
    requires SameTracker(tracker, s) && eth >= 0.0
    modifies tracker
    ensures SameTracker(tracker, Apply(sys, s, RecordLoss(eth)))
  {
    tracker.RecordLoss(eth);
  }

  method ResetDailyIsStep(tracker: Exposure.ExposureTracker, ghost sys: System, ghost s: State)
    requires SameTracker(tracker, s)
    modifies tracker
    ensures SameTracker(tracker, Apply(sys, s, ResetDaily))
  {
    tracker.ResetDaily();
  }

  // ---------------------------------------------------------------------------------------------
  // A turn is a run of the agent's own steps
  // ---------------------------------------------------------------------------------------------

  /** `steps` are steps of one agent, and lead from `s` to `t`. */
  ghost predicate OwnRun(sys: System, s: State, role: Role, steps: seq<Step>, t: State) {
    && Run(sys, s, steps, t)
    && forall i :: 0 <= i < |steps| ==> !EnvironmentStep(steps[i]) && PipelineTermination.StepRole(steps[i]) == role
  }

  lemma OwnRunExtends(sys: System, s: State, role: Role, steps: seq<Step>, t: State, step: Step) returns (steps': seq<Step>, t': State)
    requires OwnRun(sys, s, role, steps, t) && Enabled(sys, t, step)
    requires !EnvironmentStep(step) && PipelineTermination.StepRole(step) == role
    ensures OwnRun(sys, s, role, steps', t') && t' == Apply(sys, t, step)
  {
    RunExtends(sys, s, steps, t, step);
    steps', t' := steps + [step], Apply(sys, t, step);
  }

  /** Skip what the ring has overwritten, and take the next message. */
  lemma HearIsRun(sys: System, s: State, role: Role) returns (steps: seq<Step>, t: State)
    requires EndpointsOk(s) && Ep(s, role).phase == Running && Idle(s, role) && Ep(s, role).cursor < |s.log|
    ensures var at := NextPosition(sys.capacity, |s.log|, Ep(s, role).cursor);
            && at < |s.log| && OwnRun(sys, s, role, steps, t)
            && exists ep: Endpoint :: ep.cursor == at && ep.phase == Running
                                      && t == Deliver(WithEp(s, role, ep), role)
  {
    var here := s;
    steps := [];
    if Enabled(sys, s, SkipLag(role)) {
      steps, here := OwnRunExtends(sys, s, role, [], s, SkipLag(role));
    }
    assert WithEp(s, role, Ep(here, role)) == here;
    steps, t := OwnRunExtends(sys, s, role, steps, here, Receive(role));
  }

  // --- risk ---

  /** Both checks of `validate` and both reads of the score, one after the other with nobody in between. */
  lemma RiskDecidesAlone(sys: System, s: State, steps: seq<Step>, here: State) returns (steps': seq<Step>, t: State)
    requires OwnRun(sys, s, RiskRole, steps, here) && here.risk.pc.Checking?
    ensures OwnRun(sys, s, RiskRole, steps', t)
    ensures var config, intent := sys.config.risk, here.risk.pc.intent;
            if Validate(config, here.risk.exposure, here.risk.dailyLoss, intent) == Pass then
              t.risk.pc == Approved(ValidatedTrade(intent, RiskScore(config, here.risk.exposure, here.risk.dailyLoss, intent)))
            else t.risk.pc == RiskIdle
    ensures t == here.(risk := here.risk.(pc := t.risk.pc, source := t.risk.source))
  {
    steps', t := OwnRunExtends(sys, s, RiskRole, steps, here, CheckExposure);
    if t.risk.pc.Fitting? {
      steps', t := OwnRunExtends(sys, s, RiskRole, steps', t, CheckLoss);
      if t.risk.pc.Passed? {
        steps', t := OwnRunExtends(sys, s, RiskRole, steps', t, ReadExposure);
        steps', t := OwnRunExtends(sys, s, RiskRole, steps', t, ReadLoss);
      }
    }
  }

  /** The handler of an intent, with nobody in between, does what `Handle` of the risk agent does. */
  lemma RiskHandlesAlone(sys: System, s: State, steps: seq<Step>, here: State) returns (steps': seq<Step>, t: State)
    requires OwnRun(sys, s, RiskRole, steps, here) && here.risk.pc.Checking? && here.receivers > 0
    ensures OwnRun(sys, s, RiskRole, steps', t) && t.risk.pc.RiskIdle?
    ensures var reaction := RiskReacts(sys.config.risk, here.risk.dailyLoss)(here.risk.exposure, Intent(here.risk.pc.intent));
            t.log == here.log + reaction.published && t.risk.exposure == reaction.state && t.risk.ep == here.risk.ep
  {
    steps', t := RiskDecidesAlone(sys, s, steps, here);
    if t.risk.pc.Approved? {
      steps', t := OwnRunExtends(sys, s, RiskRole, steps', t, AddExposure);
      steps', t := OwnRunExtends(sys, s, RiskRole, steps', t, EmitValidated);
    }
  }

  function RiskView(s: State, positions: seq<nat>): Loop<real> {
    Loop(s.log, s.risk.ep.cursor, positions, s.risk.exposure)
  }

  /** A turn of the risk agent's loop that finds a message is a run of its steps. */
  lemma RiskTurnIsRun(sys: System, s: State, positions: seq<nat>) returns (steps: seq<Step>, t: State)
    requires EndpointsOk(s) && s.risk.ep.phase == Running && s.risk.pc.RiskIdle? && s.risk.ep.cursor < |s.log|
    ensures OwnRun(sys, s, RiskRole, steps, t) && t.risk.pc.RiskIdle?
    ensures var next := TurnOf(RiskReacts(sys.config.risk, s.risk.dailyLoss), sys.capacity, RiskView(s, positions), []);
            RiskView(t, next.positions) == next
  {
    assert s.log + [] == s.log;
    steps, t := HearIsRun(sys, s, RiskRole);
    if t.risk.pc.Checking? {
      steps, t := RiskHandlesAlone(sys, s, steps, t);
    }
  }

  // --- execution ---

  function ExecutionView(s: State, positions: seq<nat>): Loop<U64> {
    Loop(s.log, s.execution.ep.cursor, positions, s.execution.nonce)
  }

  lemma ExecutionTurnIsRun(sys: System, s: State, positions: seq<nat>) returns (steps: seq<Step>, t: State)
    requires EndpointsOk(s) && s.execution.ep.phase == Running && s.execution.pc.ExecutionIdle?
    requires s.execution.ep.cursor < |s.log|
    ensures OwnRun(sys, s, ExecutionRole, steps, t) && t.execution.pc.ExecutionIdle?
    ensures var next := TurnOf(ExecutionReacts(sys.config.execution), sys.capacity, ExecutionView(s, positions), []);
            ExecutionView(t, next.positions) == next
  {
    assert s.log + [] == s.log;
    steps, t := HearIsRun(sys, s, ExecutionRole);
    if t.execution.pc.Taken? {
      steps, t := OwnRunExtends(sys, s, ExecutionRole, steps, t, TakeNonce);
      steps, t := OwnRunExtends(sys, s, ExecutionRole, steps, t, EmitExecuted);
    }
  }

  // --- strategy ---

  /** Asking the strategies from `next` on, with nobody in between, publishes their answers in list order. */
  lemma {:induction false} StrategyAsksAlone(sys: System, s: State, steps: seq<Step>, here: State) returns (steps': seq<Step>, t: State)
    requires OwnRun(sys, s, StrategyRole, steps, here) && here.receivers > 0
    requires here.strategy.pc.Scanning? && here.strategy.pc.next <= |sys.config.strategies|
    ensures OwnRun(sys, s, StrategyRole, steps', t) && t.strategy.pc.StrategyIdle? && t.strategy.ep == here.strategy.ep
    ensures t.log == here.log + Intents(Fire(sys.config.strategies, here.strategy.pc.signal, here.strategy.pc.next))
    decreases |sys.config.strategies| - here.strategy.pc.next
  {
    var strategies, signal, next := sys.config.strategies, here.strategy.pc.signal, here.strategy.pc.next;
    steps', t := OwnRunExtends(sys, s, StrategyRole, steps, here, Evaluate);
    if next < |strategies| {
      if t.strategy.pc.Emitting? {
        var intent, rest := t.strategy.pc.intent, Fire(strategies, signal, next + 1);
        steps', t := OwnRunExtends(sys, s, StrategyRole, steps', t, EmitIntent);
        AppendAssociates(here.log, Intent(intent), Intents(rest));
        assert Fire(strategies, signal, next) == [intent] + rest;
      }
      steps', t := StrategyAsksAlone(sys, s, steps', t);
    } else {
      assert here.log + [] == here.log;
    }
  }

  function StrategyView(s: State, positions: seq<nat>): Loop<Stateless> {
    Loop(s.log, s.strategy.ep.cursor, positions, Stateless)
  }

  lemma StrategyTurnIsRun(sys: System, s: State, positions: seq<nat>) returns (steps: seq<Step>, t: State)
    requires EndpointsOk(s) && s.strategy.ep.phase == Running && s.strategy.pc.StrategyIdle? && s.strategy.ep.cursor < |s.log|
    ensures OwnRun(sys, s, StrategyRole, steps, t) && t.strategy.pc.StrategyIdle?
    ensures var next := TurnOf(StrategyReacts(sys.config.strategies), sys.capacity, StrategyView(s, positions), []);
            StrategyView(t, next.positions) == next
  {
    assert s.log + [] == s.log;
    steps, t := HearIsRun(sys, s, StrategyRole);
    if t.strategy.pc.Scanning? {
      steps, t := StrategyAsksAlone(sys, s, steps, t);
    }
  }
}
