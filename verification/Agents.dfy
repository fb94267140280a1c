/**
  The three agents' `start` loops (crates/strategy-agent/src/agent.rs, risk-agent/src/agent.rs and
  execution-agent/src/agent.rs) as they run on the bounded bus.

  `traffic[k]` is what the other tasks publish before the k-th turn of the loop; the cancellation
  branch of the `select!` is taken when the turns are used up, with whatever is then unread left
  unread. Each loop is proved equal to `LoopOf` for the agent's reaction, for any traffic and any lag,
  and that function to compute `Reference.dfy` from what was delivered.
 */
module Agents {
  import opened Types
  import opened Log
  import opened Rules
  import opened Exposure
  import opened Nonce
  import opened Reference
  import opened Bus
  import opened AgentLoop

  /** The other tasks' publications of one turn. */
  method PublishAll(bus: MessageBus, messages: seq<Message>)
    requires bus.Valid() && bus.receivers > 0
    modifies bus`tail, bus`log, bus.slots
    ensures bus.Valid() && bus.log == old(bus.log) + messages
  {
    for i := 0 to |messages|
      invariant bus.Valid() && bus.log == old(bus.log) + messages[..i]
    {
      var _ := bus.Publish(messages[i]);
    }
  }

  /** The start of a turn: the others publish, then the agent asks for its next message. */
  method Listen(subscriber: BusSubscriber, batch: seq<Message>) returns (r: Received)
    requires subscriber.Valid() && subscriber.bus.receivers > 0
    modifies subscriber.bus`tail, subscriber.bus`log, subscriber.bus.slots, subscriber
    ensures subscriber.Valid() && subscriber.bus.log == old(subscriber.bus.log) + batch
    ensures var log := subscriber.bus.log;
            var at := NextPosition(subscriber.bus.slots.Length, |log|, old(subscriber.next));
            if at < |log| then
              r == Got(log[at]) && subscriber.next == at + 1 && subscriber.positions == old(subscriber.positions) + [at]
            else
              && r == (if subscriber.bus.senders == 0 then Received.Failed(ChannelClosed) else Waiting)
              && subscriber.next == at && subscriber.positions == old(subscriber.positions)
  {
    PublishAll(subscriber.bus, batch);
    r := subscriber.Recv();
  }

  // ---------------------------------------------------------------------------------------------
  // Risk
  // ---------------------------------------------------------------------------------------------

  /** Reject an intent silently, or track its exposure and publish the approval; pass over everything else. */
  function RiskReacts(config: RiskConfig, dailyLoss: real): (real, Message) -> Reaction<real> {
    (exposure: real, m: Message) =>
      if m.Intent? && Validate(config, exposure, dailyLoss, m.intent) == Pass then
        var score := RiskScore(config, exposure, dailyLoss, m.intent);
        Reaction(exposure + AmountEth(m.intent), [Validated(ValidatedTrade(m.intent, score))])
      else Reaction(exposure, [])
  }

  class RiskAgent {
    const config: RiskConfig
    const bus: MessageBus
    const tracker: ExposureTracker

    constructor (config: RiskConfig, bus: MessageBus)
      ensures this.config == config && this.bus == bus
      ensures fresh(tracker) && tracker.exposureEth == 0.0 && tracker.dailyLossEth == 0.0
    {
      this.config := config;
      this.bus := bus;
      tracker := new ExposureTracker();
    }

    /** One intent: validate, score, track, publish. */
    method Handle(intent: TradeIntent)
      requires bus.Valid() && bus.receivers > 0
      modifies bus`tail, bus`log, bus.slots, tracker`exposureEth
      ensures bus.Valid()
      ensures var reaction := RiskReacts(config, tracker.dailyLossEth)(old(tracker.exposureEth), Intent(intent));
              tracker.exposureEth == reaction.state && bus.log == old(bus.log) + reaction.published
    {
      var verdict := Validate(config, tracker.exposureEth, tracker.dailyLossEth, intent);
      if verdict != Pass {
        return;
      }
      var score := RiskScore(config, tracker.exposureEth, tracker.dailyLossEth, intent);
      tracker.AddExposure(AmountEth(intent));
      var trade := ValidatedTrade(intent, score);
      var _ := bus.Publish(Validated(trade));
    }

    ghost function Now(subscriber: BusSubscriber): Loop<real>
      reads bus, subscriber, tracker
    {
      Loop(bus.log, subscriber.next, subscriber.positions, tracker.exposureEth)
    }

    /** One turn of the loop; it fails exactly when the channel is closed and read to its end. */
    method Turn(subscriber: BusSubscriber, batch: seq<Message>) returns (r: Received)
      requires subscriber.bus == bus && subscriber.Valid() && bus.receivers > 0
      modifies bus`tail, bus`log, bus.slots, subscriber, tracker`exposureEth
      ensures subscriber.Valid()
      ensures Now(subscriber) ==
              TurnOf(RiskReacts(config, tracker.dailyLossEth), bus.slots.Length, old(Now(subscriber)), batch)
      ensures r.Failed? <==> bus.senders == 0 && !Hears(bus.slots.Length, old(Now(subscriber)), batch)
    {
      r := Listen(subscriber, batch);
      match r
      case Got(Intent(intent)) => Handle(intent);
      case _ =>
    }

    /** The loop itself: one turn after the other, until the channel is closed and read to its end. */
    method Turns(subscriber: BusSubscriber, traffic: seq<seq<Message>>)
      requires subscriber.bus == bus && subscriber.Valid() && bus.receivers > 0
      modifies bus`tail, bus`log, bus.slots, subscriber, tracker`exposureEth
      ensures subscriber.Valid()
      ensures Now(subscriber) == LoopOf(RiskReacts(config, tracker.dailyLossEth), bus.slots.Length, bus.senders == 0, old(Now(subscriber)), traffic)
    {
      ghost var react, closed, start := RiskReacts(config, tracker.dailyLossEth), bus.senders == 0, Now(subscriber);
      for turn := 0 to |traffic|
        invariant subscriber.Valid()
        invariant LoopOf(react, bus.slots.Length, closed, start, traffic) ==
                  LoopOf(react, bus.slots.Length, closed, Now(subscriber), traffic[turn..])
      {
        LoopUnfolds(react, bus.slots.Length, closed, Now(subscriber), traffic, turn);
        var r := Turn(subscriber, traffic[turn]);
        if r.Failed? {
          break;
        }
      }
    }

    /** The whole loop, from subscribing to leaving. */
    method Start(traffic: seq<seq<Message>>) returns (subscriber: BusSubscriber)
      requires bus.Valid()
      modifies bus, bus.slots, tracker`exposureEth
      ensures fresh(subscriber) && subscriber.bus == bus && subscriber.Valid()
      ensures bus.receivers == old(bus.receivers) && bus.senders == old(bus.senders)
      ensures Now(subscriber) ==
              LoopOf(RiskReacts(config, tracker.dailyLossEth), bus.slots.Length, bus.senders == 0,
                     Loop(old(bus.log), |old(bus.log)|, [], old(tracker.exposureEth)), traffic)
    {
      subscriber := bus.Subscribe();
      Turns(subscriber, traffic);
      subscriber.Drop();
    }
  }

  /** The agent stands where the fold of the rules over everything it was given puts it. */
  ghost predicate RiskComputed(config: RiskConfig, dailyLoss: real, start: RiskRun, loop: Loop<real>) {
    && Sound(loop)
    && var run := RiskOutput(config, start.exposure, dailyLoss, Project(AsIntent, Delivered(loop)));
       RiskRun(loop.state, Project(AsValidated, loop.log)) == RiskRun(run.exposure, start.trades + run.trades)
  }

  /** Admitting one more intent does not look at the approvals already given. */
  lemma AdmitKeepsEarlier(config: RiskConfig, before: seq<ValidatedTrade>, run: RiskRun, dailyLoss: real, intent: TradeIntent)
    ensures Admit(config, RiskRun(run.exposure, before + run.trades), dailyLoss, intent) ==
            var next := Admit(config, run, dailyLoss, intent);
            RiskRun(next.exposure, before + next.trades)
  {
    var trade := ValidatedTrade(intent, RiskScore(config, run.exposure, dailyLoss, intent));
    assert before + run.trades + [trade] == before + (run.trades + [trade]);
  }

  lemma RiskOutputGrows(config: RiskConfig, start: RiskRun, dailyLoss: real, heard: seq<Message>, m: Message)
    ensures var run := RiskOutput(config, start.exposure, dailyLoss, Project(AsIntent, heard));
            var next := RiskOutput(config, start.exposure, dailyLoss, Project(AsIntent, heard + [m]));
            RiskRun(next.exposure, start.trades + next.trades) ==
            if m.Intent? then Admit(config, RiskRun(run.exposure, start.trades + run.trades), dailyLoss, m.intent)
            else RiskRun(run.exposure, start.trades + run.trades)
  {
    ProjectAppend(AsIntent, heard, m);
    if m.Intent? {
      RiskOutputNext(config, start.exposure, dailyLoss, Project(AsIntent, heard), m.intent);
      AdmitKeepsEarlier(config, start.trades, RiskOutput(config, start.exposure, dailyLoss, Project(AsIntent, heard)),
                        dailyLoss, m.intent);
    }
  }

  /** A reaction does to the tracker and the approvals on the bus what `Admit` says. */
  lemma RiskReactionAdmits(config: RiskConfig, dailyLoss: real, log: seq<Message>, exposure: real, m: Message)
    ensures var reaction := RiskReacts(config, dailyLoss)(exposure, m);
            var before := RiskRun(exposure, Project(AsValidated, log));
            RiskRun(reaction.state, Project(AsValidated, log + reaction.published)) ==
            if m.Intent? then Admit(config, before, dailyLoss, m.intent) else before
  {
    var reaction := RiskReacts(config, dailyLoss)(exposure, m);
    if reaction.published == [] {
      assert log + [] == log;
    } else {
      ProjectAppend(AsValidated, log, reaction.published[0]);
    }
  }

  lemma RiskTurnComputes(config: RiskConfig, dailyLoss: real, start: RiskRun, capacity: nat, loop: Loop<real>, batch: seq<Message>)
    requires RiskComputed(config, dailyLoss, start, loop) && Project(AsValidated, batch) == []
    ensures RiskComputed(config, dailyLoss, start, TurnOf(RiskReacts(config, dailyLoss), capacity, loop, batch))
  {
    var react, log := RiskReacts(config, dailyLoss), loop.log + batch;
    TurnDelivers(react, capacity, loop, batch);
    ProjectConcat(AsValidated, loop.log, batch);
    assert Project(AsValidated, log) == Project(AsValidated, loop.log);
    if Hears(capacity, loop, batch) {
      var m := log[NextPosition(capacity, |log|, loop.cursor)];
      RiskOutputGrows(config, start, dailyLoss, Delivered(loop), m);
      RiskReactionAdmits(config, dailyLoss, log, loop.state, m);
    }
  }

  /** The whole loop computes the fold of the rules over the intents it was given, when only it publishes approvals. */
  lemma {:induction false} RiskLoopComputes(config: RiskConfig, dailyLoss: real, start: RiskRun, capacity: nat, closed: bool,
                                            loop: Loop<real>, traffic: seq<seq<Message>>)
    requires RiskComputed(config, dailyLoss, start, loop)
    requires forall k :: 0 <= k < |traffic| ==> Project(AsValidated, traffic[k]) == []
    ensures RiskComputed(config, dailyLoss, start, LoopOf(RiskReacts(config, dailyLoss), capacity, closed, loop, traffic))
    decreases |traffic|
  {
    if traffic != [] {
      RiskTurnComputes(config, dailyLoss, start, capacity, loop, traffic[0]);
      RiskLoopComputes(config, dailyLoss, start, capacity, closed,
                       TurnOf(RiskReacts(config, dailyLoss), capacity, loop, traffic[0]), traffic[1..]);
    }
  }

  function ByOthersThanRisk(m: Message): Option<Message> {
    if m.Validated? then None else Some(m)
  }

  /** What the others published during the loop is on the bus, all of it and in order, between the agent's approvals. */
  lemma RiskTrafficIsPublished(config: RiskConfig, dailyLoss: real, capacity: nat, loop: Loop<real>, traffic: seq<seq<Message>>)
    ensures Project(ByOthersThanRisk, LoopOf(RiskReacts(config, dailyLoss), capacity, false, loop, traffic).log) ==
            Project(ByOthersThanRisk, loop.log) + Project(ByOthersThanRisk, Joined(traffic))
  {
    TrafficIsPublished(RiskReacts(config, dailyLoss), ByOthersThanRisk, capacity, loop, traffic);
  }

  function RiskWeight(m: Message): nat {
    if m.Intent? then 2 else 1
  }

  /** Left alone, the risk agent reads everything, its own approvals included. */
  lemma RiskCatchesUp(config: RiskConfig, dailyLoss: real, capacity: nat, loop: Loop<real>,
                      traffic: seq<seq<Message>>, turns: nat)
    requires capacity > 0 && loop.cursor <= |loop.log|
    requires turns >= UnreadWeight(RiskWeight, LoopOf(RiskReacts(config, dailyLoss), capacity, false, loop, traffic))
    ensures var end := LoopOf(RiskReacts(config, dailyLoss), capacity, false, loop, traffic + Quiet(turns));
            end.cursor == |end.log|
  {
    LoopCatchesUp(RiskReacts(config, dailyLoss), RiskWeight, capacity, loop, traffic, turns);
  }

  // ---------------------------------------------------------------------------------------------
  // Execution
  // ---------------------------------------------------------------------------------------------

  /** Execute a validated trade under the next nonce and publish the result; pass over everything else. */
  function ExecutionReacts(config: ExecutionConfig): (U64, Message) -> Reaction<U64> {
    (nonce: U64, m: Message) =>
      if m.Validated? then
        Reaction(NextNonce(nonce), [Executed(ExecutionResult(m.trade, ExecuteTrade(config, m.trade, nonce)))])
      else Reaction(nonce, [])
  }

  class ExecutionAgent {
    const config: ExecutionConfig
    const bus: MessageBus
    const nonces: NonceManager

    constructor (config: ExecutionConfig, bus: MessageBus, nonces: NonceManager)
      ensures this.config == config && this.bus == bus && this.nonces == nonces
    {
      this.config, this.bus, this.nonces := config, bus, nonces;
    }

    /** Take a nonce, build, sign, broadcast. The nonce stays consumed when signing or broadcasting fails. */
    method Execute(trade: ValidatedTrade) returns (outcome: ExecutionOutcome)
      modifies nonces
      ensures nonces.nonce == NextNonce(old(nonces.nonce))
      ensures outcome == ExecuteTrade(config, trade, old(nonces.nonce))
      ensures IsOutcome(config, trade, old(nonces.nonce), outcome)
    {
      var nonce := nonces.Next();
      var gasPrice := GasPrice(trade);
      var signed := config.sign(config.encode(trade, nonce, config.gasLimit, gasPrice));
      if signed.Err? {
        return ExecutionOutcome.Failed(SigningFailed(signed.error));
      }
      if config.dryRun {
        return DryRun(nonce, config.gasLimit, gasPrice, trade.intent.tokenOut, trade.intent.amountInWei);
      }
      var sent := config.send(signed.value);
      if sent.Err? {
        return ExecutionOutcome.Failed(BroadcastFailed(sent.error));
      }
      return Success(sent.value, config.gasLimit, gasPrice);
    }

    /** One validated trade: execute it and publish the result, whatever it is. */
    method Handle(trade: ValidatedTrade)
      requires bus.Valid() && bus.receivers > 0
      modifies bus`tail, bus`log, bus.slots, nonces
      ensures bus.Valid()
      ensures nonces.nonce == NextNonce(old(nonces.nonce))
      ensures bus.log ==
              old(bus.log) + [Executed(ExecutionResult(trade, ExecuteTrade(config, trade, old(nonces.nonce))))]
    {
      var outcome := Execute(trade);
      var result := ExecutionResult(trade, outcome);
      var _ := bus.Publish(Executed(result));
    }

    ghost function Now(subscriber: BusSubscriber): Loop<U64>
      reads bus, subscriber, nonces
    {
      Loop(bus.log, subscriber.next, subscriber.positions, nonces.nonce)
    }

    method Turn(subscriber: BusSubscriber, batch: seq<Message>) returns (r: Received)
      requires subscriber.bus == bus && subscriber.Valid() && bus.receivers > 0
      modifies bus`tail, bus`log, bus.slots, subscriber, nonces
      ensures subscriber.Valid()
      ensures Now(subscriber) == TurnOf(ExecutionReacts(config), bus.slots.Length, old(Now(subscriber)), batch)
      ensures r.Failed? <==> bus.senders == 0 && !Hears(bus.slots.Length, old(Now(subscriber)), batch)
    {
      r := Listen(subscriber, batch);
      match r
      case Got(Validated(trade)) => Handle(trade);
      case _ =>
    }

    /** The loop itself: one turn after the other, until the channel is closed and read to its end. */
    method Turns(subscriber: BusSubscriber, traffic: seq<seq<Message>>)
      requires subscriber.bus == bus && subscriber.Valid() && bus.receivers > 0
      modifies bus`tail, bus`log, bus.slots, subscriber, nonces
      ensures subscriber.Valid()
      ensures Now(subscriber) == LoopOf(ExecutionReacts(config), bus.slots.Length, bus.senders == 0, old(Now(subscriber)), traffic)
    {
      ghost var react, closed, start := ExecutionReacts(config), bus.senders == 0, Now(subscriber);
      for turn := 0 to |traffic|
        invariant subscriber.Valid()
        invariant LoopOf(react, bus.slots.Length, closed, start, traffic) ==
                  LoopOf(react, bus.slots.Length, closed, Now(subscriber), traffic[turn..])
      {
        LoopUnfolds(react, bus.slots.Length, closed, Now(subscriber), traffic, turn);
        var r := Turn(subscriber, traffic[turn]);
        if r.Failed? {
          break;
        }
      }
    }

    method Start(traffic: seq<seq<Message>>) returns (subscriber: BusSubscriber)
      requires bus.Valid()
      modifies bus, bus.slots, nonces
      ensures fresh(subscriber) && subscriber.bus == bus && subscriber.Valid()
      ensures bus.receivers == old(bus.receivers) && bus.senders == old(bus.senders)
      ensures Now(subscriber) ==
              LoopOf(ExecutionReacts(config), bus.slots.Length, bus.senders == 0,
                     Loop(old(bus.log), |old(bus.log)|, [], old(nonces.nonce)), traffic)
    {
      subscriber := bus.Subscribe();
      Turns(subscriber, traffic);
      subscriber.Drop();
    }
  }

  /** Every trade given so far is executed, in order, under consecutive nonces. */
  ghost predicate ExecutionComputed(config: ExecutionConfig, initial: U64, before: seq<ExecutionResult>, loop: Loop<U64>) {
    && Sound(loop)
    && var trades := Project(AsValidated, Delivered(loop));
       && loop.state == NonceAt(initial, |trades|)
       && Project(AsExecuted, loop.log) == before + ExecutionOutput(config, initial, trades)
  }

  lemma ExecutionOutputGrows(config: ExecutionConfig, initial: U64, before: seq<ExecutionResult>, heard: seq<Message>, m: Message)
    requires m.Validated?
    ensures var trades, next := Project(AsValidated, heard), Project(AsValidated, heard + [m]);
            && |next| == |trades| + 1
            && NonceAt(initial, |next|) == NextNonce(NonceAt(initial, |trades|))
            && before + ExecutionOutput(config, initial, next) == before + ExecutionOutput(config, initial, trades)
               + [ExecutionResult(m.trade, ExecuteTrade(config, m.trade, NonceAt(initial, |trades|)))]
  {
    ProjectAppend(AsValidated, heard, m);
    ExecutionOutputNext(config, initial, Project(AsValidated, heard), m.trade);
  }

  lemma ExecutionTurnComputes(config: ExecutionConfig, initial: U64, before: seq<ExecutionResult>, capacity: nat,
                              loop: Loop<U64>, batch: seq<Message>)
    requires ExecutionComputed(config, initial, before, loop) && Project(AsExecuted, batch) == []
    ensures ExecutionComputed(config, initial, before, TurnOf(ExecutionReacts(config), capacity, loop, batch))
  {
    var react, log := ExecutionReacts(config), loop.log + batch;
    TurnDelivers(react, capacity, loop, batch);
    ProjectConcat(AsExecuted, loop.log, batch);
    assert Project(AsExecuted, log) == Project(AsExecuted, loop.log);
    if Hears(capacity, loop, batch) {
      var m := log[NextPosition(capacity, |log|, loop.cursor)];
      if m.Validated? {
        ExecutionOutputGrows(config, initial, before, Delivered(loop), m);
        ProjectAppend(AsExecuted, log, react(loop.state, m).published[0]);
      } else {
        ProjectAppend(AsValidated, Delivered(loop), m);
        assert log + [] == log;
      }
    }
  }

  /** The whole loop executes exactly the trades it was given, in order, under consecutive nonces. */
  lemma {:induction false} ExecutionLoopComputes(config: ExecutionConfig, initial: U64, before: seq<ExecutionResult>, capacity: nat,
                                                 closed: bool, loop: Loop<U64>, traffic: seq<seq<Message>>)
    requires ExecutionComputed(config, initial, before, loop)
    requires forall k :: 0 <= k < |traffic| ==> Project(AsExecuted, traffic[k]) == []
    ensures ExecutionComputed(config, initial, before, LoopOf(ExecutionReacts(config), capacity, closed, loop, traffic))
    decreases |traffic|
  {
    if traffic != [] {
      ExecutionTurnComputes(config, initial, before, capacity, loop, traffic[0]);
      ExecutionLoopComputes(config, initial, before, capacity, closed,
                            TurnOf(ExecutionReacts(config), capacity, loop, traffic[0]), traffic[1..]);
    }
  }

  function ByOthersThanExecution(m: Message): Option<Message> {
    if m.Executed? then None else Some(m)
  }

  lemma ExecutionTrafficIsPublished(config: ExecutionConfig, capacity: nat, loop: Loop<U64>, traffic: seq<seq<Message>>)
    ensures Project(ByOthersThanExecution, LoopOf(ExecutionReacts(config), capacity, false, loop, traffic).log) ==
            Project(ByOthersThanExecution, loop.log) + Project(ByOthersThanExecution, Joined(traffic))
  {
    TrafficIsPublished(ExecutionReacts(config), ByOthersThanExecution, capacity, loop, traffic);
  }

  function ExecutionWeight(m: Message): nat {
    if m.Validated? then 2 else 1
  }

  lemma ExecutionCatchesUp(config: ExecutionConfig, capacity: nat, loop: Loop<U64>, traffic: seq<seq<Message>>, turns: nat)
    requires capacity > 0 && loop.cursor <= |loop.log|
    requires turns >= UnreadWeight(ExecutionWeight, LoopOf(ExecutionReacts(config), capacity, false, loop, traffic))
    ensures var end := LoopOf(ExecutionReacts(config), capacity, false, loop, traffic + Quiet(turns));
            end.cursor == |end.log|
  {
    LoopCatchesUp(ExecutionReacts(config), ExecutionWeight, capacity, loop, traffic, turns);
  }

  // ---------------------------------------------------------------------------------------------
  // Strategy
  // ---------------------------------------------------------------------------------------------

  function Intents(intents: seq<TradeIntent>): seq<Message> {
    if intents == [] then [] else [Intent(intents[0])] + Intents(intents[1..])
  }

  /** The strategy agent keeps nothing between messages. */
  datatype Stateless = Stateless

  /** Publish every strategy's answer to a signal, in list order; pass over everything else. */
  function StrategyReacts(strategies: seq<Strategy>): (Stateless, Message) -> Reaction<Stateless> {
    (s: Stateless, m: Message) => Reaction(s, if m.Signal? then Intents(Fire(strategies, m.signal, 0)) else [])
  }

  class StrategyAgent {
    const strategies: seq<Strategy>
    const bus: MessageBus

    constructor (strategies: seq<Strategy>, bus: MessageBus)
      ensures this.strategies == strategies && this.bus == bus
    {
      this.strategies, this.bus := strategies, bus;
    }

    /** One signal: every strategy is asked, in list order, and each answer is published at once. */
    method Handle(signal: MarketSignal)
      requires bus.Valid() && bus.receivers > 0
      modifies bus`tail, bus`log, bus.slots
      ensures bus.Valid() && bus.log == old(bus.log) + Intents(Fire(strategies, signal, 0))
    {
      for i := 0 to |strategies|
        invariant bus.Valid()
        invariant bus.log + Intents(Fire(strategies, signal, i)) == old(bus.log) + Intents(Fire(strategies, signal, 0))
      {
        match strategies[i](signal)
        case Some(intent) =>
          ghost var log, rest := bus.log, Fire(strategies, signal, i + 1);
          assert Fire(strategies, signal, i) == [intent] + rest;
          AppendAssociates(log, Intent(intent), Intents(rest));
          var _ := bus.Publish(Intent(intent));
        case None =>
      }
    }

    ghost function Now(subscriber: BusSubscriber): Loop<Stateless>
      reads bus, subscriber
    {
      Loop(bus.log, subscriber.next, subscriber.positions, Stateless)
    }

    method Turn(subscriber: BusSubscriber, batch: seq<Message>) returns (r: Received)
      requires subscriber.bus == bus && subscriber.Valid() && bus.receivers > 0
      modifies bus`tail, bus`log, bus.slots, subscriber
      ensures subscriber.Valid()
      ensures Now(subscriber) == TurnOf(StrategyReacts(strategies), bus.slots.Length, old(Now(subscriber)), batch)
      ensures r.Failed? <==> bus.senders == 0 && !Hears(bus.slots.Length, old(Now(subscriber)), batch)
    {
      r := Listen(subscriber, batch);
      match r
      case Got(Signal(signal)) => Handle(signal);
      case _ =>
    }

    /** The loop itself: one turn after the other, until the channel is closed and read to its end. */
    method Turns(subscriber: BusSubscriber, traffic: seq<seq<Message>>)
      requires subscriber.bus == bus && subscriber.Valid() && bus.receivers > 0
      modifies bus`tail, bus`log, bus.slots, subscriber
      ensures subscriber.Valid()
      ensures Now(subscriber) == LoopOf(StrategyReacts(strategies), bus.slots.Length, bus.senders == 0, old(Now(subscriber)), traffic)
    {
      ghost var react, closed, start := StrategyReacts(strategies), bus.senders == 0, Now(subscriber);
      for turn := 0 to |traffic|
        invariant subscriber.Valid()
        invariant LoopOf(react, bus.slots.Length, closed, start, traffic) ==
                  LoopOf(react, bus.slots.Length, closed, Now(subscriber), traffic[turn..])
      {
        LoopUnfolds(react, bus.slots.Length, closed, Now(subscriber), traffic, turn);
        var r := Turn(subscriber, traffic[turn]);
        if r.Failed? {
          break;
        }
      }
    }

    method Start(traffic: seq<seq<Message>>) returns (subscriber: BusSubscriber)
      requires bus.Valid()
      modifies bus, bus.slots
      ensures fresh(subscriber) && subscriber.bus == bus && subscriber.Valid()
      ensures bus.receivers == old(bus.receivers) && bus.senders == old(bus.senders)
      ensures Now(subscriber) ==
              LoopOf(StrategyReacts(strategies), bus.slots.Length, bus.senders == 0,
                     Loop(old(bus.log), |old(bus.log)|, [], Stateless), traffic)
    {
      subscriber := bus.Subscribe();
      Turns(subscriber, traffic);
      subscriber.Drop();
    }
  }

  lemma {:induction false} IntentsRead(intents: seq<TradeIntent>)
    ensures Project(AsIntent, Intents(intents)) == intents
  {
    if intents != [] {
      IntentsRead(intents[1..]);
      ProjectConcat(AsIntent, [Intent(intents[0])], Intents(intents[1..]));
      ProjectAppend(AsIntent, [], Intent(intents[0]));
      assert [] + [Intent(intents[0])] == [Intent(intents[0])];
    }
  }

  /** The answers of all strategies to every signal given so far are on the bus, in order. */
  ghost predicate StrategyComputed(strategies: seq<Strategy>, before: seq<TradeIntent>, loop: Loop<Stateless>) {
    && Sound(loop)
    && Project(AsIntent, loop.log) == before + StrategyOutput(strategies, Project(AsSignal, Delivered(loop)))
  }

  lemma StrategyOutputGrows(strategies: seq<Strategy>, before: seq<TradeIntent>, heard: seq<Message>, m: Message)
    ensures before + StrategyOutput(strategies, Project(AsSignal, heard + [m])) ==
            before + StrategyOutput(strategies, Project(AsSignal, heard))
            + (if m.Signal? then Fire(strategies, m.signal, 0) else [])
  {
    ProjectAppend(AsSignal, heard, m);
    if m.Signal? {
      StrategyOutputNext(strategies, Project(AsSignal, heard), m.signal);
    }
  }

  lemma StrategyTurnComputes(strategies: seq<Strategy>, before: seq<TradeIntent>, capacity: nat,
                             loop: Loop<Stateless>, batch: seq<Message>)
    requires StrategyComputed(strategies, before, loop) && Project(AsIntent, batch) == []
    ensures StrategyComputed(strategies, before, TurnOf(StrategyReacts(strategies), capacity, loop, batch))
  {
    var react, log := StrategyReacts(strategies), loop.log + batch;
    TurnDelivers(react, capacity, loop, batch);
    ProjectConcat(AsIntent, loop.log, batch);
    assert Project(AsIntent, log) == Project(AsIntent, loop.log);
    if Hears(capacity, loop, batch) {
      var m := log[NextPosition(capacity, |log|, loop.cursor)];
      StrategyOutputGrows(strategies, before, Delivered(loop), m);
      ProjectConcat(AsIntent, log, react(loop.state, m).published);
      if m.Signal? {
        IntentsRead(Fire(strategies, m.signal, 0));
      }
    }
  }

  /** The whole loop publishes what the strategies answer to the signals it was given, in list order. */
  lemma {:induction false} StrategyLoopComputes(strategies: seq<Strategy>, before: seq<TradeIntent>, capacity: nat, closed: bool,
                                                loop: Loop<Stateless>, traffic: seq<seq<Message>>)
    requires StrategyComputed(strategies, before, loop)
    requires forall k :: 0 <= k < |traffic| ==> Project(AsIntent, traffic[k]) == []
    ensures StrategyComputed(strategies, before, LoopOf(StrategyReacts(strategies), capacity, closed, loop, traffic))
    decreases |traffic|
  {
    if traffic != [] {
      StrategyTurnComputes(strategies, before, capacity, loop, traffic[0]);
      StrategyLoopComputes(strategies, before, capacity, closed,
                           TurnOf(StrategyReacts(strategies), capacity, loop, traffic[0]), traffic[1..]);
    }
  }

  function ByOthersThanStrategy(m: Message): Option<Message> {
    if m.Intent? then None else Some(m)
  }

  lemma {:induction false} IntentsAreOwn(intents: seq<TradeIntent>)
    ensures Project(ByOthersThanStrategy, Intents(intents)) == []
  {
    if intents != [] {
      IntentsAreOwn(intents[1..]);
      ProjectConcat(ByOthersThanStrategy, [Intent(intents[0])], Intents(intents[1..]));
      ProjectAppend(ByOthersThanStrategy, [], Intent(intents[0]));
      assert [] + [Intent(intents[0])] == [Intent(intents[0])];
    }
  }

  lemma StrategyTrafficIsPublished(strategies: seq<Strategy>, capacity: nat, loop: Loop<Stateless>, traffic: seq<seq<Message>>)
    ensures Project(ByOthersThanStrategy, LoopOf(StrategyReacts(strategies), capacity, false, loop, traffic).log) ==
            Project(ByOthersThanStrategy, loop.log) + Project(ByOthersThanStrategy, Joined(traffic))
  {
    var react := StrategyReacts(strategies);
    forall s, m ensures Project(ByOthersThanStrategy, react(s, m).published) == [] {
      if m.Signal? {
        IntentsAreOwn(Fire(strategies, m.signal, 0));
      }
    }
    TrafficIsPublished(react, ByOthersThanStrategy, capacity, loop, traffic);
  }

  function StrategyWeight(strategies: seq<Strategy>): Message -> nat {
    (m: Message) => if m.Signal? then 1 + |strategies| else 1
  }

  lemma {:induction false} AnswersWeigh(strategies: seq<Strategy>, signal: MarketSignal, from: nat)
    requires from <= |strategies|
    ensures TotalWeight(StrategyWeight(strategies), Intents(Fire(strategies, signal, from))) <= |strategies| - from
    decreases |strategies| - from
  {
    if from < |strategies| {
      AnswersWeigh(strategies, signal, from + 1);
      var rest := Fire(strategies, signal, from + 1);
      if strategies[from](signal).Some? {
        var intent := strategies[from](signal).value;
        assert ([intent] + rest)[1..] == rest;
        assert ([Intent(intent)] + Intents(rest))[1..] == Intents(rest);
      }
    }
  }

  lemma StrategyCatchesUp(strategies: seq<Strategy>, capacity: nat, loop: Loop<Stateless>, traffic: seq<seq<Message>>, turns: nat)
    requires capacity > 0 && loop.cursor <= |loop.log|
    requires turns >= UnreadWeight(StrategyWeight(strategies), LoopOf(StrategyReacts(strategies), capacity, false, loop, traffic))
    ensures var end := LoopOf(StrategyReacts(strategies), capacity, false, loop, traffic + Quiet(turns));
            end.cursor == |end.log|
  {
    var react, weight := StrategyReacts(strategies), StrategyWeight(strategies);
    forall s, m ensures TotalWeight(weight, react(s, m).published) < weight(m) {
      if m.Signal? {
        AnswersWeigh(strategies, m.signal, 0);
      }
    }
    LoopCatchesUp(react, weight, capacity, loop, traffic, turns);
  }
}
