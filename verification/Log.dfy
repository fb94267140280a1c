/**
  Reading a message log by kind: which messages of one kind it holds, and where.
 */
module Log {
  import opened Types

  function AsSignal(m: Message): Option<MarketSignal> {
    if m.Signal? then Some(m.signal) else None
  }

  function AsIntent(m: Message): Option<TradeIntent> {
    if m.Intent? then Some(m.intent) else None
  }

  function AsValidated(m: Message): Option<ValidatedTrade> {
    if m.Validated? then Some(m.trade) else None
  }

  function AsExecuted(m: Message): Option<ExecutionResult> {
    if m.Executed? then Some(m.result) else None
  }

  /** The messages picked out of the log, in log order. */
  function Project<T>(pick: Message -> Option<T>, log: seq<Message>): (picked: seq<T>) {
    if log == [] then []
    else
      var before := Project(pick, log[..|log| - 1]);
      match pick(log[|log| - 1])
      case Some(value) => before + [value]
      case None => before
  }

  /** The log positions those messages stand at. */
  function Positions<T>(pick: Message -> Option<T>, log: seq<Message>): (at: seq<nat>) {
    if log == [] then []
    else
      var before := Positions(pick, log[..|log| - 1]);
      if pick(log[|log| - 1]).Some? then before + [|log| - 1] else before
  }

  lemma AppendAssociates<T>(front: seq<T>, x: T, back: seq<T>)
    ensures front + [x] + back == front + ([x] + back)
  {}

  ghost predicate Increasing(s: seq<nat>) {
    forall i, j :: 0 <= i < j < |s| ==> s[i] < s[j]
  }

  /** `Positions` enumerates exactly the matching positions in order, and `Project` reads the log there. */
  lemma {:induction false} ProjectReads<T>(pick: Message -> Option<T>, log: seq<Message>)
    ensures |Positions(pick, log)| == |Project(pick, log)|
    ensures Increasing(Positions(pick, log))
    ensures forall k :: 0 <= k < |Positions(pick, log)| ==>
                          && Positions(pick, log)[k] < |log|
                          && pick(log[Positions(pick, log)[k]]) == Some(Project(pick, log)[k])
    ensures forall p: nat :: p < |log| && pick(log[p]).Some? ==> p in Positions(pick, log)
  {
    if log != [] {
      var before := log[..|log| - 1];
      ProjectReads(pick, before);
      forall p: nat | p < |log| && pick(log[p]).Some?
        ensures p in Positions(pick, log)
      {
        if p < |before| {
          assert log[p] == before[p];
          assert p in Positions(pick, before);
        }
      }
    }
  }

  lemma ProjectAppend<T>(pick: Message -> Option<T>, log: seq<Message>, m: Message)
    ensures Project(pick, log + [m]) ==
            if pick(m).Some? then Project(pick, log) + [pick(m).value] else Project(pick, log)
    ensures Positions(pick, log + [m]) ==
            if pick(m).Some? then Positions(pick, log) + [|log|] else Positions(pick, log)
  {
    assert (log + [m])[..|log|] == log;
  }

  lemma ProjectNext<T>(pick: Message -> Option<T>, log: seq<Message>, cursor: nat)
    requires cursor < |log|
    ensures Project(pick, log[..cursor + 1]) ==
            if pick(log[cursor]).Some? then Project(pick, log[..cursor]) + [pick(log[cursor]).value]
            else Project(pick, log[..cursor])
  {
    ProjectAppend(pick, log[..cursor], log[cursor]);
    assert log[..cursor + 1] == log[..cursor] + [log[cursor]];
  }

  lemma {:induction false} ProjectConcat<T>(pick: Message -> Option<T>, front: seq<Message>, back: seq<Message>)
    ensures Project(pick, front + back) == Project(pick, front) + Project(pick, back)
  {
    if back == [] {
      assert front + back == front;
    } else {
      var init, last := back[..|back| - 1], back[|back| - 1];
      ProjectConcat(pick, front, init);
      ProjectAppend(pick, front + init, last);
      assert front + back == (front + init) + [last];
    }
  }

  /** Reading less of the log gives a prefix. */
  lemma {:induction false} ProjectPrefix<T>(pick: Message -> Option<T>, log: seq<Message>, cursor: nat)
    requires cursor <= |log|
    ensures Project(pick, log[..cursor]) <= Project(pick, log)
  {
    if cursor < |log| {
      var before := log[..|log| - 1];
      ProjectPrefix(pick, before, cursor);
      assert before[..cursor] == log[..cursor];
    } else {
      assert log[..cursor] == log;
    }
  }
}
