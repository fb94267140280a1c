/**
  A run that gets one strategy's intent through: the strategies before it are asked first, and the
  other agents subscribe just in time.
 */
module PipelineReach {
  import opened Types
  import opened Rules
  import opened Pipeline
  import opened PipelineSafety

  lemma Extended(sys: System, s: State, step: Step) returns (t: State)
    requires Reachable(sys, s) && Enabled(sys, s, step)
    ensures Reachable(sys, t) && t == Apply(sys, s, step)
  {
    ReachableExtends(sys, s, step);
    t := Apply(sys, s, step);
  }

  /** What surrounds the agents is not restricted: who holds a handle can publish, clone it, drop it and listen. */
  lemma EnvironmentIsFree(sys: System, s: State, signal: MarketSignal, eth: real)
    requires eth >= 0.0
    ensures s.handles > 0 ==>
              && Enabled(sys, s, PublishSignal(signal)) && Enabled(sys, s, CloneHandle)
              && Enabled(sys, s, DropHandle) && Enabled(sys, s, OpenMonitor)
    ensures s.monitors > 0 ==> Enabled(sys, s, CloseMonitor)
    ensures Enabled(sys, s, Cancel) && Enabled(sys, s, Settle(eth)) && Enabled(sys, s, RecordLoss(eth)) && Enabled(sys, s, ResetDaily)
  {}

  /** Strategy `i` answers the signal with this intent. */
  ghost predicate AnswersWith(sys: System, i: nat, signal: MarketSignal, intent: TradeIntent) {
    i < |sys.config.strategies| && sys.config.strategies[i](signal) == Some(intent)
  }

  /** The strategy agent is about to ask strategy `next`; nobody else has subscribed and nothing is tracked. */
  ghost predicate Asking(s: State, signal: MarketSignal, next: nat) {
    && s.strategy.pc.Scanning? && s.strategy.pc.signal == signal && s.strategy.pc.next == next
    && s.receivers > 0 && s.risk.ep.phase == Ready && s.execution.ep.phase == Ready
    && s.risk.pc.RiskIdle? && s.execution.pc.ExecutionIdle?
    && s.risk.exposure == 0.0 && s.risk.dailyLoss == 0.0
  }

  lemma AskingStarts(sys: System, signal: MarketSignal) returns (s: State)
    ensures Reachable(sys, s) && Asking(s, signal, 0)
  {
    InitReachable(sys, 1);
    var s1 := Extended(sys, Init(sys, 1), Subscribe(StrategyRole));
    var s2 := Extended(sys, s1, PublishSignal(signal));
    s := Extended(sys, s2, Receive(StrategyRole));
  }

  lemma AskingGoesOn(sys: System, s: State, signal: MarketSignal, next: nat) returns (t: State)
    requires Reachable(sys, s) && Asking(s, signal, next) && next < |sys.config.strategies|
    ensures Reachable(sys, t) && Asking(t, signal, next + 1)
  {
    t := Extended(sys, s, Evaluate);
    if t.strategy.pc.Emitting? {
      t := Extended(sys, t, EmitIntent);
    }
  }

  lemma {:induction false} AskingReaches(sys: System, signal: MarketSignal, i: nat) returns (s: State)
    requires i <= |sys.config.strategies|
    ensures Reachable(sys, s) && Asking(s, signal, i)
    decreases i
  {
    if i == 0 {
      s := AskingStarts(sys, signal);
    } else {
      var before := AskingReaches(sys, signal, i - 1);
      s := AskingGoesOn(sys, before, signal, i - 1);
    }
  }

  /** The risk agent has just taken the intent, with nothing tracked and nothing lost yet. */
  ghost predicate AtHand(s: State, intent: TradeIntent) {
    && s.risk.pc.Checking? && s.risk.pc.intent == intent && s.risk.exposure == 0.0 && s.risk.dailyLoss == 0.0
    && s.receivers > 0 && s.execution.ep.phase == Ready && s.execution.pc.ExecutionIdle?
  }

  lemma IntentArrives(sys: System, asking: State, i: nat, signal: MarketSignal, intent: TradeIntent) returns (s: State)
    requires AnswersWith(sys, i, signal, intent) && Reachable(sys, asking) && Asking(asking, signal, i)
    ensures Reachable(sys, s) && AtHand(s, intent)
  {
    var s1 := Extended(sys, asking, Evaluate);
    var s2 := Extended(sys, s1, Subscribe(RiskRole));
    var s3 := Extended(sys, s2, EmitIntent);
    s := Extended(sys, s3, Receive(RiskRole));
  }

  lemma IntentPasses(sys: System, i: nat, signal: MarketSignal, intent: TradeIntent) returns (s: State)
    requires AnswersWith(sys, i, signal, intent) && Validate(sys.config.risk, 0.0, 0.0, intent) == Pass
    ensures Reachable(sys, s) && s.risk.pc.Passed? && s.risk.pc.intent == intent
    ensures s.risk.exposure == 0.0 && s.risk.dailyLoss == 0.0
    ensures s.receivers > 0 && s.execution.ep.phase == Ready && s.execution.pc.ExecutionIdle?
  {
    var asking := AskingReaches(sys, signal, i);
    var atHand := IntentArrives(sys, asking, i, signal, intent);
    var fitting := Extended(sys, atHand, CheckExposure);
    s := Extended(sys, fitting, CheckLoss);
  }

  lemma PassedIsScored(sys: System, start: State) returns (s: State)
    requires Reachable(sys, start) && start.risk.pc.Passed?
    ensures var intent := start.risk.pc.intent;
            var score := RiskScore(sys.config.risk, start.risk.exposure, start.risk.dailyLoss, intent);
            Reachable(sys, s) && s.risk.pc == Approved(ValidatedTrade(intent, score))
    ensures s.log == start.log && s.receivers == start.receivers && s.execution == start.execution
  {
    var s1 := Extended(sys, start, ReadExposure);
    s := Extended(sys, s1, ReadLoss);
  }

  lemma PassedIsPublished(sys: System, start: State) returns (s: State)
    requires Reachable(sys, start) && start.risk.pc.Passed? && start.receivers > 0
    ensures var intent := start.risk.pc.intent;
            var trade := ValidatedTrade(intent, RiskScore(sys.config.risk, start.risk.exposure, start.risk.dailyLoss, intent));
            Reachable(sys, s) && s.log == start.log + [Validated(trade)]
    ensures s.receivers == start.receivers && s.execution == start.execution
  {
    var scored := PassedIsScored(sys, start);
    var tracked := Extended(sys, scored, AddExposure);
    s := Extended(sys, tracked, EmitValidated);
  }

  lemma PublishedIsExecuted(sys: System, start: State) returns (s: State)
    requires Reachable(sys, start) && start.log != [] && start.log[|start.log| - 1].Validated? && start.receivers > 0
    requires start.execution.ep.phase == Running && start.execution.pc.ExecutionIdle?
    requires start.execution.ep.cursor == |start.log| - 1
    ensures Reachable(sys, s) && s.log != [] && s.log[|s.log| - 1].Executed?
  {
    var s1 := Extended(sys, start, Receive(ExecutionRole));
    var s2 := Extended(sys, s1, TakeNonce);
    s := Extended(sys, s2, EmitExecuted);
  }

  /** An admissible answer to some signal can be validated and executed. */
  lemma AdmissibleIsExecuted(sys: System, i: nat, signal: MarketSignal, intent: TradeIntent) returns (validated: State, executed: State)
    requires AnswersWith(sys, i, signal, intent) && Validate(sys.config.risk, 0.0, 0.0, intent) == Pass
    ensures Reachable(sys, validated) && validated.log != [] && validated.log[|validated.log| - 1].Validated?
    ensures Reachable(sys, executed) && executed.log != [] && executed.log[|executed.log| - 1].Executed?
  {
    var passed := IntentPasses(sys, i, signal, intent);
    var listening := Extended(sys, passed, Subscribe(ExecutionRole));
    validated := PassedIsPublished(sys, listening);
    executed := PublishedIsExecuted(sys, validated);
  }
}
