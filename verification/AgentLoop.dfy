/**
  What a subscriber's loop does, whatever the agent: each turn the other tasks publish a batch, the
  agent gets the next message the ring still holds, and publishes its reaction. `LoopOf` is the loop
  as a function; `Agents.dfy` proves the three `start` loops against it.
 */
module AgentLoop {
  import opened Types
  import opened Log
  import opened Bus

  /** The bus log, the subscriber's cursor and the positions delivered to it, and the agent's own state. */
  datatype Loop<S> = Loop(log: seq<Message>, cursor: nat, positions: seq<nat>, state: S)

  datatype Reaction<S> = Reaction(state: S, published: seq<Message>)

  /** Where a reader at `cursor` goes on when the ring holds the last `capacity` of `length` messages. */
  function NextPosition(capacity: nat, length: nat, cursor: nat): nat {
    if cursor + capacity < length then length - capacity else cursor
  }

  /** Whether the turn delivers a message; otherwise the agent waits. */
  predicate Hears<S>(capacity: nat, loop: Loop<S>, batch: seq<Message>) {
    NextPosition(capacity, |loop.log| + |batch|, loop.cursor) < |loop.log| + |batch|
  }

  function TurnOf<S>(react: (S, Message) -> Reaction<S>, capacity: nat, loop: Loop<S>, batch: seq<Message>): Loop<S> {
    var log := loop.log + batch;
    var at := NextPosition(capacity, |log|, loop.cursor);
    if at < |log| then
      var reaction := react(loop.state, log[at]);
      Loop(log + reaction.published, at + 1, loop.positions + [at], reaction.state)
    else Loop(log, at, loop.positions, loop.state)
  }

  /** All turns; on a closed channel the loop ends with the first turn that finds nothing to read. */
  function LoopOf<S>(react: (S, Message) -> Reaction<S>, capacity: nat, closed: bool, loop: Loop<S>,
                     traffic: seq<seq<Message>>): Loop<S>
    decreases |traffic|
  {
    if traffic == [] then loop
    else
      var next := TurnOf(react, capacity, loop, traffic[0]);
      if closed && !Hears(capacity, loop, traffic[0]) then next
      else LoopOf(react, capacity, closed, next, traffic[1..])
  }

  /** One turn of what is left of the traffic. */
  lemma LoopUnfolds<S>(react: (S, Message) -> Reaction<S>, capacity: nat, closed: bool, loop: Loop<S>,
                       traffic: seq<seq<Message>>, turn: nat)
    requires turn < |traffic|
    ensures var next := TurnOf(react, capacity, loop, traffic[turn]);
            LoopOf(react, capacity, closed, loop, traffic[turn..]) ==
            if closed && !Hears(capacity, loop, traffic[turn]) then next
            else LoopOf(react, capacity, closed, next, traffic[turn + 1..])
  {
    assert traffic[turn..][0] == traffic[turn] && traffic[turn..][1..] == traffic[turn + 1..];
  }

  ghost predicate Sound<S>(loop: Loop<S>) {
    loop.cursor <= |loop.log| && forall k :: 0 <= k < |loop.positions| ==> loop.positions[k] < |loop.log|
  }

  function Delivered<S>(loop: Loop<S>): seq<Message>
    requires Sound(loop)
  {
    ReadAt(loop.log, loop.positions)
  }

  /** A turn adds the message it heard, if any, to what was delivered. */
  lemma TurnDelivers<S>(react: (S, Message) -> Reaction<S>, capacity: nat, loop: Loop<S>, batch: seq<Message>)
    requires Sound(loop)
    ensures Sound(TurnOf(react, capacity, loop, batch)) && loop.log <= TurnOf(react, capacity, loop, batch).log
    ensures var log := loop.log + batch;
            Delivered(TurnOf(react, capacity, loop, batch)) ==
            if Hears(capacity, loop, batch)
            then Delivered(loop) + [log[NextPosition(capacity, |log|, loop.cursor)]]
            else Delivered(loop)
  {
    ReadAtGrows(loop.log, TurnOf(react, capacity, loop, batch).log, loop.positions);
  }

  // --- every turn delivers a message, or there was none ---

  function WaitingTurns<S>(react: (S, Message) -> Reaction<S>, capacity: nat, loop: Loop<S>, traffic: seq<seq<Message>>): nat
    decreases |traffic|
  {
    if traffic == [] then 0
    else
      (if Hears(capacity, loop, traffic[0]) then 0 else 1)
      + WaitingTurns(react, capacity, TurnOf(react, capacity, loop, traffic[0]), traffic[1..])
  }

  /** As many messages are delivered as there are turns that found one unread. */
  lemma {:induction false} DeliveriesCount<S>(react: (S, Message) -> Reaction<S>, capacity: nat, loop: Loop<S>,
                                              traffic: seq<seq<Message>>)
    ensures |LoopOf(react, capacity, false, loop, traffic).positions| + WaitingTurns(react, capacity, loop, traffic) ==
            |loop.positions| + |traffic|
    decreases |traffic|
  {
    if traffic != [] {
      DeliveriesCount(react, capacity, TurnOf(react, capacity, loop, traffic[0]), traffic[1..]);
    }
  }

  // --- the others' messages all reach the bus, in order ---

  function Joined(traffic: seq<seq<Message>>): seq<Message> {
    if traffic == [] then [] else traffic[0] + Joined(traffic[1..])
  }

  /** `others` picks what the agent never publishes itself. */
  lemma {:induction false} TrafficIsPublished<S>(react: (S, Message) -> Reaction<S>, others: Message -> Option<Message>,
                                                 capacity: nat, loop: Loop<S>, traffic: seq<seq<Message>>)
    requires forall s, m :: Project(others, react(s, m).published) == []
    ensures Project(others, LoopOf(react, capacity, false, loop, traffic).log) ==
            Project(others, loop.log) + Project(others, Joined(traffic))
    decreases |traffic|
  {
    if traffic != [] {
      var next := TurnOf(react, capacity, loop, traffic[0]);
      TurnPublishes(react, others, capacity, loop, traffic[0]);
      TrafficIsPublished(react, others, capacity, next, traffic[1..]);
      ProjectConcat(others, traffic[0], Joined(traffic[1..]));
      ConcatAssociates(Project(others, loop.log), Project(others, traffic[0]), Project(others, Joined(traffic[1..])));
    } else {
      assert Joined(traffic) == [] && Project(others, loop.log) + [] == Project(others, loop.log);
    }
  }

  lemma ConcatAssociates<T>(x: seq<T>, y: seq<T>, z: seq<T>)
    ensures x + y + z == x + (y + z)
  {}

  lemma TurnPublishes<S>(react: (S, Message) -> Reaction<S>, others: Message -> Option<Message>,
                         capacity: nat, loop: Loop<S>, batch: seq<Message>)
    requires forall s, m :: Project(others, react(s, m).published) == []
    ensures Project(others, TurnOf(react, capacity, loop, batch).log) == Project(others, loop.log) + Project(others, batch)
  {
    var log := loop.log + batch;
    var at := NextPosition(capacity, |log|, loop.cursor);
    ProjectConcat(others, loop.log, batch);
    if at < |log| {
      ProjectConcat(others, log, react(loop.state, log[at]).published);
    }
  }

  // --- left alone, the agent reads everything ---

  function TotalWeight(weight: Message -> nat, messages: seq<Message>): nat {
    if messages == [] then 0 else weight(messages[0]) + TotalWeight(weight, messages[1..])
  }

  lemma {:induction false} TotalWeightConcat(weight: Message -> nat, front: seq<Message>, back: seq<Message>)
    ensures TotalWeight(weight, front + back) == TotalWeight(weight, front) + TotalWeight(weight, back)
  {
    if front == [] {
      assert front + back == back;
    } else {
      TotalWeightConcat(weight, front[1..], back);
      assert (front + back)[1..] == front[1..] + back;
    }
  }

  /** What is unread, each message weighed with what the agent's own answer to it will add. */
  function UnreadWeight<S>(weight: Message -> nat, loop: Loop<S>): nat {
    if loop.cursor <= |loop.log| then TotalWeight(weight, loop.log[loop.cursor..]) else 0
  }

  /** Reading a message weighs more than the answer to it. */
  ghost predicate Subsides<S(!new)>(react: (S, Message) -> Reaction<S>, weight: Message -> nat) {
    forall s, m :: TotalWeight(weight, react(s, m).published) < weight(m)
  }

  lemma QuietTurn<S(!new)>(react: (S, Message) -> Reaction<S>, weight: Message -> nat, capacity: nat, loop: Loop<S>)
    requires capacity > 0 && Subsides(react, weight) && loop.cursor <= |loop.log|
    ensures var next := TurnOf(react, capacity, loop, []);
            && next.cursor <= |next.log|
            && if Hears(capacity, loop, []) then UnreadWeight(weight, next) < UnreadWeight(weight, loop)
               else next == loop && loop.cursor == |loop.log|
  {
    assert loop.log + [] == loop.log;
    if Hears(capacity, loop, []) {
      var log, at := loop.log, NextPosition(capacity, |loop.log|, loop.cursor);
      var published := react(loop.state, log[at]).published;
      assert log[loop.cursor..] == log[loop.cursor..at] + log[at..];
      TotalWeightConcat(weight, log[loop.cursor..at], log[at..]);
      assert (log + published)[at + 1..] == log[at..][1..] + published;
      TotalWeightConcat(weight, log[at..][1..], published);
    }
  }

  function Quiet(turns: nat): seq<seq<Message>> {
    seq(turns, _ => [])
  }

  /** As many quiet turns as the unread messages weigh leave nothing unread. */
  lemma {:induction false} QuietTurnsCatchUp<S(!new)>(react: (S, Message) -> Reaction<S>, weight: Message -> nat,
                                                      capacity: nat, loop: Loop<S>, turns: nat)
    requires capacity > 0 && Subsides(react, weight) && loop.cursor <= |loop.log| && UnreadWeight(weight, loop) <= turns
    ensures var end := LoopOf(react, capacity, false, loop, Quiet(turns)); end.cursor == |end.log|
    decreases turns
  {
    QuietTurn(react, weight, capacity, loop);
    if turns > 0 {
      var next := TurnOf(react, capacity, loop, []);
      assert Quiet(turns)[1..] == Quiet(turns - 1);
      QuietTurnsCatchUp(react, weight, capacity, next, turns - 1);
    }
  }

  lemma {:induction false} LoopConcat<S>(react: (S, Message) -> Reaction<S>, capacity: nat, loop: Loop<S>,
                                         some: seq<seq<Message>>, more: seq<seq<Message>>)
    ensures LoopOf(react, capacity, false, loop, some + more) ==
            LoopOf(react, capacity, false, LoopOf(react, capacity, false, loop, some), more)
    decreases |some|
  {
    if some == [] {
      assert some + more == more;
    } else {
      assert (some + more)[1..] == some[1..] + more;
      LoopConcat(react, capacity, TurnOf(react, capacity, loop, some[0]), some[1..], more);
    }
  }

  lemma {:induction false} LoopStaysInLog<S>(react: (S, Message) -> Reaction<S>, capacity: nat, loop: Loop<S>,
                                             traffic: seq<seq<Message>>)
    requires loop.cursor <= |loop.log|
    ensures var end := LoopOf(react, capacity, false, loop, traffic); end.cursor <= |end.log|
    decreases |traffic|
  {
    if traffic != [] {
      LoopStaysInLog(react, capacity, TurnOf(react, capacity, loop, traffic[0]), traffic[1..]);
    }
  }

  /** After any traffic, enough quiet turns leave nothing unread, the agent's own messages included. */
  lemma LoopCatchesUp<S(!new)>(react: (S, Message) -> Reaction<S>, weight: Message -> nat, capacity: nat, loop: Loop<S>,
                               traffic: seq<seq<Message>>, turns: nat)
    requires capacity > 0 && Subsides(react, weight) && loop.cursor <= |loop.log|
    requires turns >= UnreadWeight(weight, LoopOf(react, capacity, false, loop, traffic))
    ensures var end := LoopOf(react, capacity, false, loop, traffic + Quiet(turns)); end.cursor == |end.log|
  {
    LoopStaysInLog(react, capacity, loop, traffic);
    LoopConcat(react, capacity, loop, traffic, Quiet(turns));
    QuietTurnsCatchUp(react, weight, capacity, LoopOf(react, capacity, false, loop, traffic), turns);
  }
}
