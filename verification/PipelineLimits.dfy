/**
  What the risk agent's limits amount to when the tracker changes under it: `validate` and
  `compute_risk_score` read the tracker at four different moments.
 */
module PipelineLimits {
  import opened Types
  import opened Log
  import opened Rules
  import opened Pipeline
  import opened PipelineSafety
  import opened PipelineReach

  // --- the daily loss limit ---

  /** The intent at hand has passed the loss rule, so it will be published whatever happens. */
  predicate PastLossCheck(pc: RiskPc) {
    pc.Passed? || pc.Scoring? || pc.Approved? || pc.Tracked?
  }

  /** Approvals on the bus, and the one that can no longer be stopped. */
  function Committed(s: State): nat {
    |Project(AsValidated, s.log)| + Indicator(PastLossCheck(s.risk.pc))
  }

  ghost predicate LossLimitReached(sys: System, s: State) {
    s.risk.dailyLoss >= sys.config.risk.dailyLossLimitEth
  }

  lemma SendCommits(s: State, m: Message)
    ensures |Project(AsValidated, Send(s, m).log)| <= |Project(AsValidated, s.log)| + Indicator(m.Validated?)
    ensures !m.Validated? ==> Project(AsValidated, Send(s, m).log) == Project(AsValidated, s.log)
    ensures Project(AsValidated, s.log) <= Project(AsValidated, Send(s, m).log)
  {
    ProjectAppend(AsValidated, s.log, m);
  }

  lemma LossLimitSends(sys: System, s: State, step: Step)
    requires Enabled(sys, s, step)
    requires step.PublishSignal? || step.EmitIntent? || step.EmitValidated? || step.EmitExecuted?
    ensures Apply(sys, s, step).risk.dailyLoss == s.risk.dailyLoss && Committed(Apply(sys, s, step)) <= Committed(s)
    ensures Project(AsValidated, s.log) <= Project(AsValidated, Apply(sys, s, step).log)
  {
    match step
    case PublishSignal(signal) => SendCommits(s, Signal(signal));
    case EmitIntent => SendCommits(s, Intent(s.strategy.pc.intent));
    case EmitValidated => SendCommits(s, Validated(s.risk.pc.trade));
    case EmitExecuted => SendCommits(s, Executed(ResultOf(sys, s.execution.pc)));
  }

  lemma LossLimitElse(sys: System, s: State, step: Step)
    requires LossLimitReached(sys, s) && Enabled(sys, s, step) && !step.ResetDaily?
    requires !step.PublishSignal? && !step.EmitIntent? && !step.EmitValidated? && !step.EmitExecuted?
    ensures LossLimitReached(sys, Apply(sys, s, step)) && Apply(sys, s, step).log == s.log
    ensures PastLossCheck(Apply(sys, s, step).risk.pc) ==> PastLossCheck(s.risk.pc)
  {}

  lemma LossLimitStep(sys: System, s: State, step: Step)
    requires LossLimitReached(sys, s) && Enabled(sys, s, step) && !step.ResetDaily?
    ensures LossLimitReached(sys, Apply(sys, s, step)) && Committed(Apply(sys, s, step)) <= Committed(s)
    ensures Project(AsValidated, s.log) <= Project(AsValidated, Apply(sys, s, step).log)
  {
    if step.PublishSignal? || step.EmitIntent? || step.EmitValidated? || step.EmitExecuted? {
      LossLimitSends(sys, s, step);
    } else {
      LossLimitElse(sys, s, step);
    }
  }

  lemma {:induction false} LossLimitRun(sys: System, s: State, steps: seq<Step>, t: State)
    requires LossLimitReached(sys, s) && Run(sys, s, steps, t)
    requires forall i :: 0 <= i < |steps| ==> !steps[i].ResetDaily?
    ensures LossLimitReached(sys, t) && Committed(t) <= Committed(s)
    ensures Project(AsValidated, s.log) <= Project(AsValidated, t.log)
    decreases |steps|
  {
    if steps != [] {
      LossLimitStep(sys, s, steps[0]);
      LossLimitRun(sys, Apply(sys, s, steps[0]), steps[1..], t);
    }
  }

  /**
    Once the day's losses have reached their limit nothing more is approved until they are reset: at
    most the one trade that was past the loss rule is still published, and if there was none, none.
   */
  lemma LossLimitStopsApprovals(sys: System, s: State, steps: seq<Step>, t: State)
    requires LossLimitReached(sys, s) && Run(sys, s, steps, t)
    requires forall i :: 0 <= i < |steps| ==> !steps[i].ResetDaily?
    ensures Project(AsValidated, s.log) <= Project(AsValidated, t.log)
    ensures |Project(AsValidated, t.log)| <= |Project(AsValidated, s.log)| + Indicator(PastLossCheck(s.risk.pc))
    ensures !PastLossCheck(s.risk.pc) ==> Project(AsValidated, t.log) == Project(AsValidated, s.log)
  {
    LossLimitRun(sys, s, steps, t);
  }

  // --- the score ---

  ghost predicate InUnit(config: RiskConfig, trade: ValidatedTrade) {
    Scorable(config, trade.intent) ==> 0.0 < trade.riskScore < 1.0
  }

  /**
    The score of the next trade: positive and at most 1, and below 1 exactly when the weighted average
    of what was read is. While the loss is below its limit that is so; from four times the limit on it is not.
   */
  lemma ScoreOfNextTrade(sys: System, s: State)
    requires Reachable(sys, s) && s.risk.pc.Scoring? && Scorable(sys.config.risk, s.risk.pc.intent)
    ensures var config, risk, trade := sys.config.risk, s.risk, Apply(sys, s, ReadLoss).risk.pc.trade;
            && 0.0 < trade.riskScore <= 1.0
            && (trade.riskScore < 1.0 <==> RawScore(config, risk.pc.exposure, risk.dailyLoss, risk.pc.intent) < 1.0)
            && (risk.dailyLoss < config.dailyLossLimitEth ==> trade.riskScore < 1.0)
            && (risk.dailyLoss >= 4.0 * config.dailyLossLimitEth ==> trade.riskScore == 1.0)
  {
    InvReachable(sys, s);
    ScoreRange(sys.config.risk, s.risk.pc.exposure, s.risk.dailyLoss, s.risk.pc.intent);
  }

  /** No loss was recorded since the loss rule passed the intent at hand. */
  ghost predicate Calm(config: RiskConfig, agent: RiskState) {
    && (PositiveLimits(config) && (agent.pc.Passed? || agent.pc.Scoring?) ==> agent.dailyLoss < config.dailyLossLimitEth)
    && (agent.pc.Approved? || agent.pc.Tracked? ==> InUnit(config, agent.pc.trade))
  }

  lemma CalmScore(config: RiskConfig, agent: RiskState)
    requires Calm(config, agent) && agent.pc.Scoring? && ProgressOk(config, agent.pc) && agent.dailyLoss >= 0.0
    ensures Calm(config, LossRead(config, agent))
  {
    if Scorable(config, agent.pc.intent) {
      ScoreRange(config, agent.pc.exposure, agent.dailyLoss, agent.pc.intent);
    }
  }

  ghost predicate AllInUnit(config: RiskConfig, log: seq<Message>, since: nat) {
    forall p :: since <= p < |log| && log[p].Validated? ==> InUnit(config, log[p].trade)
  }

  lemma CalmSend(config: RiskConfig, s: State, m: Message, since: nat)
    requires AllInUnit(config, s.log, since) && (m.Validated? ==> InUnit(config, m.trade))
    ensures AllInUnit(config, Send(s, m).log, since)
  {}

  lemma CalmHandler(sys: System, s: State, step: Step)
    requires ProgressOk(sys.config.risk, s.risk.pc) && s.risk.dailyLoss >= 0.0 && Calm(sys.config.risk, s.risk)
    requires Enabled(sys, s, step) && RiskDecides(step)
    ensures Calm(sys.config.risk, Apply(sys, s, step).risk)
  {
    if step.ReadLoss? {
      CalmScore(sys.config.risk, s.risk);
    }
  }

  lemma CalmElse(sys: System, s: State, step: Step)
    requires Calm(sys.config.risk, s.risk) && Enabled(sys, s, step) && !step.RecordLoss? && !RiskDecides(step)
    ensures Calm(sys.config.risk, Apply(sys, s, step).risk)
  {}

  lemma CalmLog(sys: System, s: State, step: Step, since: nat)
    requires Calm(sys.config.risk, s.risk) && AllInUnit(sys.config.risk, s.log, since) && Enabled(sys, s, step)
    ensures AllInUnit(sys.config.risk, Apply(sys, s, step).log, since)
  {
    match step
    case PublishSignal(signal) => CalmSend(sys.config.risk, s, Signal(signal), since);
    case EmitIntent => CalmSend(sys.config.risk, s, Intent(s.strategy.pc.intent), since);
    case EmitValidated => CalmSend(sys.config.risk, s, Validated(s.risk.pc.trade), since);
    case EmitExecuted => CalmSend(sys.config.risk, s, Executed(ResultOf(sys, s.execution.pc)), since);
    case _ =>
  }

  lemma CalmStep(sys: System, s: State, step: Step, since: nat)
    requires Inv(sys, s) && Calm(sys.config.risk, s.risk) && AllInUnit(sys.config.risk, s.log, since)
    requires Enabled(sys, s, step) && !step.RecordLoss?
    ensures var t := Apply(sys, s, step);
            Inv(sys, t) && Calm(sys.config.risk, t.risk) && AllInUnit(sys.config.risk, t.log, since)
  {
    InvStep(sys, s, step);
    CalmLog(sys, s, step, since);
    if RiskDecides(step) {
      CalmHandler(sys, s, step);
    } else {
      CalmElse(sys, s, step);
    }
  }

  ghost predicate CalmState(sys: System, s: State, since: nat) {
    Inv(sys, s) && Calm(sys.config.risk, s.risk) && AllInUnit(sys.config.risk, s.log, since)
  }

  ghost predicate NoLosses(steps: seq<Step>) {
    forall i :: 0 <= i < |steps| ==> !steps[i].RecordLoss?
  }

  lemma CalmFirst(sys: System, s: State, steps: seq<Step>, t: State, since: nat)
    requires CalmState(sys, s, since) && Run(sys, s, steps, t) && NoLosses(steps) && steps != []
    ensures var next := Apply(sys, s, steps[0]);
            CalmState(sys, next, since) && Run(sys, next, steps[1..], t) && NoLosses(steps[1..])
  {
    CalmStep(sys, s, steps[0], since);
  }

  lemma {:induction false} CalmRun(sys: System, s: State, steps: seq<Step>, t: State, since: nat)
    requires CalmState(sys, s, since) && Run(sys, s, steps, t) && NoLosses(steps)
    ensures CalmState(sys, t, since)
    decreases |steps|
  {
    if steps != [] {
      CalmFirst(sys, s, steps, t, since);
      CalmRun(sys, Apply(sys, s, steps[0]), steps[1..], t, since);
    }
  }

  /** Every trade decided in a stretch of a run in which no loss is recorded scores strictly between 0 and 1. */
  lemma QuietTradesScoreBelowOne(sys: System, s: State, steps: seq<Step>, t: State, p: nat)
    requires Reachable(sys, s) && !PastLossCheck(s.risk.pc) && Run(sys, s, steps, t)
    requires forall i :: 0 <= i < |steps| ==> !steps[i].RecordLoss?
    requires |s.log| <= p < |t.log| && t.log[p].Validated? && Scorable(sys.config.risk, t.log[p].trade.intent)
    ensures 0.0 < t.log[p].trade.riskScore < 1.0
  {
    InvReachable(sys, s);
    CalmRun(sys, s, steps, t, |s.log|);
  }

  /**
    Without that proviso the strict bound fails, under every configuration with positive limits: a loss
    recorded between the loss rule and the score takes the score of an admissible intent to 1.
   */
  lemma LateLossScoresOne(sys: System, i: nat, signal: MarketSignal, intent: TradeIntent) returns (s: State)
    requires AnswersWith(sys, i, signal, intent)
    requires Scorable(sys.config.risk, intent) && Validate(sys.config.risk, 0.0, 0.0, intent) == Pass
    ensures Reachable(sys, s) && s.log != [] && s.log[|s.log| - 1] == Validated(ValidatedTrade(intent, 1.0))
  {
    var loss := 4.0 * sys.config.risk.dailyLossLimitEth;
    var passed := IntentPasses(sys, i, signal, intent);
    var late := Extended(sys, passed, RecordLoss(loss));
    PositiveAmount(intent);
    ScoreRange(sys.config.risk, 0.0, loss, intent);
    s := PassedIsPublished(sys, late);
  }
}
