/**
  The exposure tracker (crates/risk-agent/src/state.rs): one counter that is floored at zero on
  the way down, and one for the day's losses.
 */
module Exposure {

  datatype Movement = Add(eth: real) | Remove(eth: real)

  function Floored(x: real): real {
    if x > 0.0 then x else 0.0
  }

  function Moved(exposure: real, movement: Movement): real {
    match movement
    case Add(eth) => exposure + eth
    case Remove(eth) => Floored(exposure - eth)
  }

  class ExposureTracker {
    var exposureEth: real
    var dailyLossEth: real

    constructor ()
      ensures exposureEth == 0.0 && dailyLossEth == 0.0
    {
      exposureEth, dailyLossEth := 0.0, 0.0;
    }

    method AddExposure(amountEth: real)
      modifies this`exposureEth
      ensures exposureEth == Moved(old(exposureEth), Add(amountEth))
    {
      exposureEth := exposureEth + amountEth;
    }

    method RemoveExposure(amountEth: real)
      modifies this`exposureEth
      ensures exposureEth == Moved(old(exposureEth), Remove(amountEth))
    {
      exposureEth := if exposureEth - amountEth > 0.0 then exposureEth - amountEth else 0.0;
    }

    method RecordLoss(amountEth: real)
      modifies this`dailyLossEth
      ensures dailyLossEth == old(dailyLossEth) + amountEth
    {
      dailyLossEth := dailyLossEth + amountEth;
    }

    method ResetDaily()
      modifies this`dailyLossEth
      ensures dailyLossEth == 0.0
    {
      dailyLossEth := 0.0;
    }
  }

  /** The counter after a history of movements, from zero. */
  function Tracked(history: seq<Movement>): real {
    if history == [] then 0.0 else Moved(Tracked(history[..|history| - 1]), history[|history| - 1])
  }

  /** The running balance no floor ever touched. */
  function Balance(history: seq<Movement>): real {
    if history == [] then 0.0
    else
      var before := Balance(history[..|history| - 1]);
      match history[|history| - 1]
      case Add(eth) => before + eth
      case Remove(eth) => before - eth
  }

  ghost predicate NonNegative(history: seq<Movement>) {
    forall k :: 0 <= k < |history| ==> history[k].eth >= 0.0
  }

  ghost predicate IsLowestBalance(history: seq<Movement>, low: real) {
    && (exists j :: 0 <= j <= |history| && Balance(history[..j]) == low)
    && (forall j :: 0 <= j <= |history| ==> low <= Balance(history[..j]))
  }

  lemma LowestBalanceExtends(history: seq<Movement>, low: real)
    requires history != [] && IsLowestBalance(history[..|history| - 1], low)
    ensures IsLowestBalance(history, if Balance(history) < low then Balance(history) else low)
  {
    var before := history[..|history| - 1];
    assert history[..|history|] == history;
    forall j | 0 <= j < |history| ensures history[..j] == before[..j] {
    }
    var j :| 0 <= j <= |before| && Balance(before[..j]) == low;
    assert Balance(history[..j]) == low;
  }

  /** A floored counter is a reflected walk: it stands above the balance by how far below zero the balance ever went. */
  lemma {:induction false} TrackedIsReflectedWalk(history: seq<Movement>) returns (low: real)
    requires NonNegative(history)
    ensures IsLowestBalance(history, low)
    ensures Tracked(history) == Balance(history) - low
    ensures Tracked(history) >= 0.0 && Tracked(history) >= Balance(history)
  {
    if history == [] {
      low := 0.0;
      assert Balance(history[..0]) == low;
    } else {
      var before := history[..|history| - 1];
      var lowBefore := TrackedIsReflectedWalk(before);
      LowestBalanceExtends(history, lowBefore);
      low := if Balance(history) < lowBefore then Balance(history) else lowBefore;
      assert Balance(history[..0]) == 0.0;
    }
  }
}
