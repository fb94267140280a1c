/**
  The message bus (crates/messaging/src/bus.rs) over a bounded ring of slots.

  `MessageBus.Publish`, `Subscribe` and `BusSubscriber.Poll` state the contract of tokio's broadcast
  channel; `BusSubscriber.Recv` is the loop of bus.rs on top of it. A ghost log records every
  message ever accepted, and the ring holds its last `capacity` messages.
 */
module Bus {
  import opened Types
  import opened Log

  datatype BusError = SendFailed | ChannelClosed

  /** What the channel answers a receiver. */
  datatype Polled = Ready(message: Message) | Lagged(missed: nat) | NothingYet | Closed

  /** What `recv` answers an agent; `Waiting` stands for a call that is still awaiting. */
  datatype Received = Got(message: Message) | Waiting | Failed(error: BusError)

  /** Two positions less than one turn apart use different slots. */
  lemma SlotsDistinct(p: nat, q: nat, capacity: nat)
    requires p < q < p + capacity
    ensures p % capacity != q % capacity
  {
    var turns := q / capacity - p / capacity;
    assert q - p == capacity * turns + (q % capacity - p % capacity);
    if turns <= 0 {
      assert capacity * turns <= 0;
    } else {
      assert capacity * turns >= capacity;
    }
  }

  function ReadAt(log: seq<Message>, positions: seq<nat>): (messages: seq<Message>)
    requires forall k :: 0 <= k < |positions| ==> positions[k] < |log|
  {
    seq(|positions|, k requires 0 <= k < |positions| => log[positions[k]])
  }

  /** What was delivered does not change as the log grows. */
  lemma ReadAtGrows(log: seq<Message>, log': seq<Message>, positions: seq<nat>)
    requires log <= log' && forall k :: 0 <= k < |positions| ==> positions[k] < |log|
    ensures ReadAt(log', positions) == ReadAt(log, positions)
  {}

  class MessageBus {
    const slots: array<Message>
    var tail: nat
    var receivers: nat
    var senders: nat
    ghost var log: seq<Message>

    ghost predicate Valid()
      reads this, slots
    {
      && slots.Length > 0
      && tail == |log|
      && forall p :: Oldest() <= p < tail ==> slots[p % slots.Length] == log[p]
    }

    /** The first position whose slot has not been overwritten. */
    function Oldest(): (oldest: nat)
      reads this
      ensures oldest <= tail && tail <= oldest + slots.Length
    {
      if tail <= slots.Length then 0 else tail - slots.Length
    }

    constructor (capacity: nat, blank: Message)
      requires capacity > 0
      ensures Valid() && fresh(slots) && slots.Length == capacity
      ensures log == [] && receivers == 0 && senders == 1
    {
      slots := new Message[capacity](_ => blank);
      tail, receivers, senders := 0, 0, 1;
      log := [];
    }

    /** Accepts the message exactly when some receiver is alive, and says how many will see it. */
    method Publish(message: Message) returns (r: Result<nat, BusError>)
      requires Valid()
      modifies this`tail, this`log, slots
      ensures Valid()
      ensures receivers == 0 ==> r == Err(SendFailed) && log == old(log) && slots[..] == old(slots[..])
      ensures receivers > 0 ==> r == Ok(receivers) && log == old(log) + [message]
    {
      if receivers == 0 {
        return Err(SendFailed);
      }
      forall p: nat | p < tail < p + slots.Length
        ensures p % slots.Length != tail % slots.Length
      {
        SlotsDistinct(p, tail, slots.Length);
      }
      slots[tail % slots.Length] := message;
      tail := tail + 1;
      log := log + [message];
      return Ok(receivers);
    }

    /** A new subscriber sees what is published from now on. */
    method Subscribe() returns (subscriber: BusSubscriber)
      requires Valid()
      modifies this`receivers
      ensures Valid() && receivers == old(receivers) + 1
      ensures fresh(subscriber) && subscriber.bus == this && subscriber.Valid()
      ensures subscriber.since == subscriber.next == |log| && subscriber.missed == 0 && subscriber.positions == []
    {
      subscriber := new BusSubscriber(this);
      receivers := receivers + 1;
    }
  }

  class BusSubscriber {
    const bus: MessageBus
    var next: nat
    ghost const since: nat
    ghost var missed: nat
    ghost var positions: seq<nat>

    /**
      Conservation and order: the positions delivered so far are strictly increasing and lie
      between the subscription and the cursor, and every position there was delivered or counted as missed.
     */
    ghost predicate Valid()
      reads this, bus, bus.slots
    {
      && bus.Valid()
      && since <= next <= |bus.log|
      && Increasing(positions)
      && (forall k :: 0 <= k < |positions| ==> since <= positions[k] < next)
      && |positions| + missed == next - since
    }

    ghost function Delivered(): (messages: seq<Message>)
      requires Valid()
      reads this, bus, bus.slots
      ensures |messages| == |positions|
    {
      ReadAt(bus.log, positions)
    }

    constructor (bus: MessageBus)
      requires bus.Valid()
      ensures this.bus == bus && Valid()
      ensures since == next == |bus.log| && missed == 0 && positions == []
    {
      this.bus := bus;
      next := bus.tail;
      since := bus.tail;
      missed := 0;
      positions := [];
    }

    /** The channel's own receive: a message, the news that some were overwritten, or nothing. */
    method Poll() returns (r: Polled)
      requires Valid()
      modifies this
      ensures Valid()
      ensures old(next) < bus.Oldest() ==>
                && r == Lagged(bus.Oldest() - old(next)) && next == bus.Oldest()
                && missed == old(missed) + (bus.Oldest() - old(next)) && positions == old(positions)
      ensures bus.Oldest() <= old(next) < |bus.log| ==>
                && r == Ready(bus.log[old(next)]) && next == old(next) + 1
                && missed == old(missed) && positions == old(positions) + [old(next)]
      ensures old(next) == |bus.log| ==>
                && r == (if bus.senders == 0 then Closed else NothingYet)
                && next == old(next) && missed == old(missed) && positions == old(positions)
    {
      if next < bus.Oldest() {
        r := Lagged(bus.Oldest() - next);
        missed := missed + (bus.Oldest() - next);
        next := bus.Oldest();
      } else if next < bus.tail {
        r := Ready(bus.slots[next % bus.slots.Length]);
        positions := positions + [next];
        next := next + 1;
      } else {
        r := if bus.senders == 0 then Closed else NothingYet;
      }
    }

    /**
      The next message, skipping over lag: nothing is missed while the backlog fits the ring, and
      otherwise exactly the overwritten messages are.
     */
    method Recv() returns (r: Received)
      requires Valid()
      modifies this
      ensures Valid()
      ensures var start := if old(next) < bus.Oldest() then bus.Oldest() else old(next);
              && missed == old(missed) + (start - old(next))
              && (start < |bus.log| ==>
                    r == Got(bus.log[start]) && next == start + 1 && positions == old(positions) + [start])
              && (start == |bus.log| ==>
                    && r == (if bus.senders == 0 then Received.Failed(ChannelClosed) else Waiting)
                    && next == start && positions == old(positions))
    {
      while true
        invariant Valid() && positions == old(positions)
        invariant old(next) <= next && missed == old(missed) + (next - old(next))
        invariant next != old(next) ==> next == bus.Oldest()
        decreases |bus.log| - next
      {
        var polled := Poll();
        match polled
        case Ready(message) => return Got(message);
        case Lagged(_) =>
        case NothingYet => return Waiting;
        case Closed => return Received.Failed(ChannelClosed);
      }
    }

    /** Dropping the subscriber takes its receiver off the channel. */
    method Drop()
      requires bus.receivers > 0
      modifies bus`receivers
      ensures bus.receivers == old(bus.receivers) - 1
    {
      bus.receivers := bus.receivers - 1;
    }
  }
}
