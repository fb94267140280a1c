/**
  The price tracker and the market data agent's signals
  (crates/market-data-agent/src/price_tracker.rs and agent.rs).
 */
module MarketData {
  import opened Types
  import opened Rules
  import opened Bus
  import opened Parser

  type Prices = map<TokenPair, PriceQuote>

  function Abs(x: real): real {
    if x < 0.0 then -x else x
  }

  function MinPrice(x: real, y: real): real {
    if x <= y then x else y
  }

  /** The spread of two positive prices in basis points of the lower one. */
  function SpreadBps(a: real, b: real): real
    requires a > 0.0 && b > 0.0
  {
    Abs(a - b) / MinPrice(a, b) * 10_000.0
  }

  function PriceOn(prices: Prices, pair: TokenPair, dex: Dex): Option<real> {
    var key := TokenPair(pair.tokenA, pair.tokenB, dex);
    if key in prices then Some(prices[key].price) else None
  }

  function Divergence(prices: Prices, pair: TokenPair, dexA: Dex, dexB: Dex, thresholdBps: real): Option<real> {
    match (PriceOn(prices, pair, dexA), PriceOn(prices, pair, dexB))
    case (Some(a), Some(b)) =>
      if a <= 0.0 || b <= 0.0 then None
      else if SpreadBps(a, b) > thresholdBps then Some(SpreadBps(a, b))
      else None
    case _ => None
  }

  /** The two prices lie apart by more than the threshold, in basis points of the lower one. */
  predicate Apart(a: real, b: real, thresholdBps: real) {
    if a <= b then 10_000.0 * (b - a) > thresholdBps * a else 10_000.0 * (a - b) > thresholdBps * b
  }

  /** What a detection answers for two prices: the spread when both are positive and lie apart, and nothing otherwise. */
  ghost predicate IsDivergence(a: real, b: real, thresholdBps: real, answer: Option<real>) {
    && (answer.Some? <==> a > 0.0 && b > 0.0 && Apart(a, b, thresholdBps))
    && (answer.Some? ==> answer.value * (if a <= b then a else b) == 10_000.0 * (if a <= b then b - a else a - b))
  }

  /** The spread without division. */
  lemma SpreadMultipliedOut(a: real, b: real, thresholdBps: real)
    requires a > 0.0 && b > 0.0
    ensures SpreadBps(a, b) * (if a <= b then a else b) == 10_000.0 * (if a <= b then b - a else a - b)
    ensures SpreadBps(a, b) > thresholdBps <==> Apart(a, b, thresholdBps)
  {
    var low, gap := if a <= b then a else b, if a <= b then b - a else a - b;
    assert SpreadBps(a, b) == gap / low * 10_000.0;
    assert gap / low * low == gap;
    assert SpreadBps(a, b) * low == gap * 10_000.0;
    ScaleLess(thresholdBps, SpreadBps(a, b), low);
  }

  /** Detection in full: no answer without two quotes, and with them the one `IsDivergence` describes. */
  lemma DivergenceExactly(prices: Prices, pair: TokenPair, dexA: Dex, dexB: Dex, thresholdBps: real)
    ensures var keyA, keyB := TokenPair(pair.tokenA, pair.tokenB, dexA), TokenPair(pair.tokenA, pair.tokenB, dexB);
            var answer := Divergence(prices, pair, dexA, dexB, thresholdBps);
            if keyA in prices && keyB in prices then IsDivergence(prices[keyA].price, prices[keyB].price, thresholdBps, answer)
            else answer == None
  {
    var keyA, keyB := TokenPair(pair.tokenA, pair.tokenB, dexA), TokenPair(pair.tokenA, pair.tokenB, dexB);
    if keyA in prices && keyB in prices && prices[keyA].price > 0.0 && prices[keyB].price > 0.0 {
      SpreadMultipliedOut(prices[keyA].price, prices[keyB].price, thresholdBps);
    }
  }

  class PriceTracker {
    var prices: Prices

    constructor ()
      ensures prices == map[]
    {
      prices := map[];
    }

    method UpdatePrice(quote: PriceQuote)
      modifies this
      ensures prices == Updated(old(prices), quote)
    {
      prices := prices[quote.pair := quote];
    }

    method GetPrice(pair: TokenPair) returns (r: Option<PriceQuote>)
      ensures r == if pair in prices then Some(prices[pair]) else None
    {
      if pair in prices {
        return Some(prices[pair]);
      }
      return None;
    }

    method DetectDivergence(pair: TokenPair, dexA: Dex, dexB: Dex, thresholdBps: real) returns (r: Option<real>)
      ensures r == Divergence(prices, pair, dexA, dexB, thresholdBps)
      ensures var keyA, keyB := TokenPair(pair.tokenA, pair.tokenB, dexA), TokenPair(pair.tokenA, pair.tokenB, dexB);
              r.Some? ==> keyA in prices && keyB in prices && IsDivergence(prices[keyA].price, prices[keyB].price, thresholdBps, r)
      ensures var keyA, keyB := TokenPair(pair.tokenA, pair.tokenB, dexA), TokenPair(pair.tokenA, pair.tokenB, dexB);
              keyA in prices && keyB in prices ==> IsDivergence(prices[keyA].price, prices[keyB].price, thresholdBps, r)
    {
      DivergenceExactly(prices, pair, dexA, dexB, thresholdBps);
      var quoteA := GetPrice(TokenPair(pair.tokenA, pair.tokenB, dexA));
      var quoteB := GetPrice(TokenPair(pair.tokenA, pair.tokenB, dexB));
      if quoteA.None? || quoteB.None? {
        return None;
      }
      var a, b := quoteA.value.price, quoteB.value.price;
      if a <= 0.0 || b <= 0.0 {
        return None;
      }
      var spread := Abs(a - b) / MinPrice(a, b) * 10_000.0;
      if spread > thresholdBps {
        return Some(spread);
      }
      return None;
    }
  }

  // --- history ---

  function Updated(prices: Prices, quote: PriceQuote): Prices {
    prices[quote.pair := quote]
  }

  function AfterUpdates(history: seq<PriceQuote>): Prices {
    if history == [] then map[] else Updated(AfterUpdates(history[..|history| - 1]), history[|history| - 1])
  }

  ghost predicate IsLastQuoteFor(history: seq<PriceQuote>, pair: TokenPair, i: int) {
    && 0 <= i < |history| && history[i].pair == pair
    && forall j :: i < j < |history| ==> history[j].pair != pair
  }

  /** Whatever was recorded before, a lookup finds the last quote for exactly that pair, if there ever was one. */
  lemma {:induction false} LookupFindsLastQuote(history: seq<PriceQuote>, pair: TokenPair)
    ensures pair in AfterUpdates(history) <==> exists i :: 0 <= i < |history| && history[i].pair == pair
    ensures pair in AfterUpdates(history) ==>
              exists i :: IsLastQuoteFor(history, pair, i) && AfterUpdates(history)[pair] == history[i]
  {
    if history != [] {
      var front := history[..|history| - 1];
      LookupFindsLastQuote(front, pair);
      if history[|history| - 1].pair == pair {
        assert IsLastQuoteFor(history, pair, |history| - 1);
      } else if pair in AfterUpdates(front) {
        var i :| IsLastQuoteFor(front, pair, i) && AfterUpdates(front)[pair] == front[i];
        assert IsLastQuoteFor(history, pair, i);
      }
    }
  }

  // --- the relation between three exchanges ---

  lemma DivergenceSymmetric(prices: Prices, pair: TokenPair, dexA: Dex, dexB: Dex, thresholdBps: real)
    ensures Divergence(prices, pair, dexA, dexB, thresholdBps) == Divergence(prices, pair, dexB, dexA, thresholdBps)
  {}

  /** The growth from the lower to the higher price. */
  function Growth(low: real, high: real): real
    requires low > 0.0
  {
    (high - low) / low
  }

  lemma SpreadIsGrowth(a: real, b: real)
    requires a > 0.0 && b > 0.0
    ensures SpreadBps(a, b) == if a <= b then Growth(a, b) * 10_000.0 else Growth(b, a) * 10_000.0
  {}

  lemma ProductBound(x: real, y: real, t: real)
    requires 0.0 <= x <= t && 0.0 <= y <= t
    ensures x * y <= t * t
  {
    assert x * y <= t * y;
    assert t * y <= t * t;
  }

  /** Growing from p to r is growing from p to q and then from q to r. */
  lemma GrowthCompounds(p: real, q: real, r: real)
    requires 0.0 < p <= q <= r
    ensures Growth(p, r) == Growth(p, q) + Growth(q, r) + Growth(p, q) * Growth(q, r)
    ensures Growth(p, q) >= 0.0 && Growth(q, r) >= 0.0
  {
    var x, y, z := Growth(p, q), Growth(q, r), Growth(p, r);
    assert x * p == q - p && y * q == r - q && z * p == r - p;
    assert (x + y + x * y) * p == z * p by {
      assert x * y * p == y * (x * p);
    }
    assert (x + y + x * y - z) * p == 0.0;
  }

  /** If both partial growths stay within t, so does the whole within 2t + t². */
  lemma GrowthBound(p: real, q: real, r: real, t: real)
    requires 0.0 < p <= q <= r && 0.0 <= t
    requires Growth(p, q) <= t && Growth(q, r) <= t
    ensures Growth(p, r) <= 2.0 * t + t * t
  {
    GrowthCompounds(p, q, r);
    ProductBound(Growth(p, q), Growth(q, r), t);
  }

  /** How many of the three pairs diverge by more than the threshold. */
  function Diverging(a: real, b: real, c: real, thresholdBps: real): nat
    requires a > 0.0 && b > 0.0 && c > 0.0
  {
    Indicator(SpreadBps(a, b) > thresholdBps) + Indicator(SpreadBps(a, c) > thresholdBps) + Indicator(SpreadBps(c, b) > thresholdBps)
  }

  ghost predicate Wide(x: real, y: real, thresholdBps: real)
    requires x > 0.0 && y > 0.0
  {
    SpreadBps(x, y) > 2.0 * thresholdBps + thresholdBps * thresholdBps / 10_000.0
  }

  lemma SpreadSymmetric(x: real, y: real)
    requires x > 0.0 && y > 0.0
    ensures SpreadBps(x, y) == SpreadBps(y, x)
  {}

  /** The outer spread is the largest of the three. */
  lemma OuterIsWidest(p: real, q: real, r: real)
    requires 0.0 < p <= q <= r
    ensures SpreadBps(p, q) <= SpreadBps(p, r) && SpreadBps(q, r) <= SpreadBps(p, r)
  {
    GrowthCompounds(p, q, r);
    assert Growth(p, q) * Growth(q, r) >= 0.0;
    SpreadIsGrowth(p, q);
    SpreadIsGrowth(q, r);
    SpreadIsGrowth(p, r);
  }

  lemma SortedDiverge(p: real, q: real, r: real, thresholdBps: real)
    requires 0.0 < p <= q <= r && thresholdBps >= 0.0
    requires Wide(p, r, thresholdBps) || Wide(p, q, thresholdBps) || Wide(q, r, thresholdBps)
    ensures SpreadBps(p, r) > thresholdBps
    ensures SpreadBps(p, q) > thresholdBps || SpreadBps(q, r) > thresholdBps
  {
    var t := thresholdBps / 10_000.0;
    assert thresholdBps == t * 10_000.0 && thresholdBps * thresholdBps / 10_000.0 == t * t * 10_000.0;
    OuterIsWidest(p, q, r);
    SpreadIsGrowth(p, q);
    SpreadIsGrowth(q, r);
    SpreadIsGrowth(p, r);
    assert thresholdBps * thresholdBps / 10_000.0 >= 0.0;
    if Growth(p, q) <= t && Growth(q, r) <= t {
      GrowthBound(p, q, r, t);
    }
  }

  /** With three positive quotes, one wide enough spread forces a second pair over the threshold. */
  lemma WideSpreadShowsTwice(a: real, b: real, c: real, thresholdBps: real)
    requires a > 0.0 && b > 0.0 && c > 0.0 && thresholdBps >= 0.0
    requires Wide(a, b, thresholdBps) || Wide(a, c, thresholdBps) || Wide(c, b, thresholdBps)
    ensures Diverging(a, b, c, thresholdBps) >= 2
  {
    SpreadSymmetric(a, b);
    SpreadSymmetric(a, c);
    SpreadSymmetric(c, b);
    if a <= b <= c { SortedDiverge(a, b, c, thresholdBps); }
    else if a <= c <= b { SortedDiverge(a, c, b, thresholdBps); }
    else if b <= a <= c { SortedDiverge(b, a, c, thresholdBps); }
    else if b <= c <= a { SortedDiverge(b, c, a, thresholdBps); }
    else if c <= a <= b { SortedDiverge(c, a, b, thresholdBps); }
    else { SortedDiverge(c, b, a, thresholdBps); }
  }

  // --- the agent ---

  const DIVERGENCE_THRESHOLD_BPS: real := 50.0

  const DEX_PAIRS: seq<(Dex, Dex)> := [(UniswapV2, SushiSwap), (UniswapV2, UniswapV3), (UniswapV3, SushiSwap)]

  function DivergenceSignal(dexA: Dex, dexB: Dex, spreadBps: real): Message {
    Signal(MarketSignal(PriceDivergence(dexA, dexB, spreadBps), [], None))
  }

  function SwapSignal(tx: RawTransaction, swap: ParsedSwap): Message {
    Signal(MarketSignal(LargeSwap(swap.dex, WeiToEth(swap.amount)), [], Some(tx.hash)))
  }

  /** The prices as each of the three lookups finds them. */
  type Lookups = s: seq<Prices> | |s| == 3 witness [map[], map[], map[]]

  /** The divergences reported for the first `k` pairs of exchanges; each lookup takes the tracker's lock anew. */
  function DivergenceSignals(lookups: Lookups, pair: TokenPair, k: nat): (signals: seq<Message>)
    requires k <= 3
    ensures |signals| <= k
  {
    if k == 0 then []
    else
      var before := DivergenceSignals(lookups, pair, k - 1);
      var (dexA, dexB) := DEX_PAIRS[k - 1];
      match Divergence(lookups[k - 1], pair, dexA, dexB, DIVERGENCE_THRESHOLD_BPS)
      case Some(spread) => before + [DivergenceSignal(dexA, dexB, spread)]
      case None => before
  }

  function SwapPair(swap: ParsedSwap): TokenPair {
    TokenPair(swap.tokenIn, swap.tokenOut, swap.dex)
  }

  /** Everything one pending transaction makes the agent publish. */
  function TransactionSignals(lookups: Lookups, tx: RawTransaction): (signals: seq<Message>)
    ensures |signals| <= 4
    ensures forall m :: m in signals ==> m.Signal?
  {
    match ParseSwap(tx)
    case Swap(swap) =>
      AllAreSignals(lookups, SwapPair(swap), 3);
      [SwapSignal(tx, swap)] + DivergenceSignals(lookups, SwapPair(swap), 3)
    case _ => []
  }

  lemma {:induction false} AllAreSignals(lookups: Lookups, pair: TokenPair, k: nat)
    requires k <= 3
    ensures forall m :: m in DivergenceSignals(lookups, pair, k) ==> m.Signal?
  {
    if k > 0 {
      AllAreSignals(lookups, pair, k - 1);
    }
  }

  /** What other tasks record before each of the three lookups. */
  type Updates = s: seq<seq<PriceQuote>> | |s| == 3 witness [[], [], []]

  function AllUpdated(prices: Prices, quotes: seq<PriceQuote>): Prices
    decreases |quotes|
  {
    if quotes == [] then prices else AllUpdated(Updated(prices, quotes[0]), quotes[1..])
  }

  function LookupsWith(prices: Prices, updates: Updates): Lookups {
    var first := AllUpdated(prices, updates[0]);
    var second := AllUpdated(first, updates[1]);
    [first, second, AllUpdated(second, updates[2])]
  }

  class MarketDataAgent {
    const bus: MessageBus
    const tracker: PriceTracker

    constructor (bus: MessageBus)
      ensures this.bus == bus && fresh(tracker) && tracker.prices == map[]
    {
      this.bus := bus;
      tracker := new PriceTracker();
    }

    /** Announces a parsed swap and then each diverging pair of exchanges; unheard publications are dropped. */
    method ProcessTransaction(tx: RawTransaction, updates: Updates)
      requires bus.Valid()
      modifies bus`tail, bus`log, bus.slots, tracker
      ensures bus.Valid()
      ensures var lookups := LookupsWith(old(tracker.prices), updates);
              bus.log == old(bus.log) + (if bus.receivers > 0 then TransactionSignals(lookups, tx) else [])
    {
      var parsed := ParseSwap(tx);
      if !parsed.Swap? {
        return;
      }
      var swap := parsed.swap;
      var _ := bus.Publish(SwapSignal(tx, swap));
      CheckDivergence(swap, updates);
    }

    /** The other tasks get the lock first. */
    method OthersUpdate(quotes: seq<PriceQuote>)
      modifies tracker
      ensures tracker.prices == AllUpdated(old(tracker.prices), quotes)
    {
      for i := 0 to |quotes|
        invariant AllUpdated(tracker.prices, quotes[i..]) == AllUpdated(old(tracker.prices), quotes)
      {
        assert quotes[i..][0] == quotes[i] && quotes[i..][1..] == quotes[i + 1..];
        tracker.UpdatePrice(quotes[i]);
      }
    }

    method CheckDivergence(swap: ParsedSwap, updates: Updates)
      requires bus.Valid()
      modifies bus`tail, bus`log, bus.slots, tracker
      ensures bus.Valid()
      ensures var lookups := LookupsWith(old(tracker.prices), updates);
              bus.log == old(bus.log) + (if bus.receivers > 0 then DivergenceSignals(lookups, SwapPair(swap), 3) else [])
    {
      ghost var lookups := LookupsWith(tracker.prices, updates);
      for i := 0 to |DEX_PAIRS|
        invariant bus.Valid()
        invariant i > 0 ==> tracker.prices == lookups[i - 1]
        invariant i == 0 ==> tracker.prices == old(tracker.prices)
        invariant bus.log == old(bus.log) + (if bus.receivers > 0 then DivergenceSignals(lookups, SwapPair(swap), i) else [])
      {
        OthersUpdate(updates[i]);
        var (dexA, dexB) := DEX_PAIRS[i];
        var spread := tracker.DetectDivergence(SwapPair(swap), dexA, dexB, DIVERGENCE_THRESHOLD_BPS);
        if spread.Some? {
          var _ := bus.Publish(DivergenceSignal(dexA, dexB, spread.value));
        }
      }
    }
  }

  /** The three quotes of a pair, as one lookup would find them. */
  ghost predicate Quoted(prices: Prices, pair: TokenPair, v2: real, sushi: real, v3: real) {
    && PriceOn(prices, pair, UniswapV2) == Some(v2) && v2 > 0.0
    && PriceOn(prices, pair, SushiSwap) == Some(sushi) && sushi > 0.0
    && PriceOn(prices, pair, UniswapV3) == Some(v3) && v3 > 0.0
  }

  /** Somewhere among the three quotes there is a spread of more than 100.25 bps. */
  ghost predicate WideQuotes(v2: real, sushi: real, v3: real)
    requires v2 > 0.0 && sushi > 0.0 && v3 > 0.0
  {
    SpreadBps(v2, sushi) > 100.25 || SpreadBps(v2, v3) > 100.25 || SpreadBps(v3, sushi) > 100.25
  }

  /** A pair whose quotes stay the same during the lookups and spread by more than 100.25 bps is reported at least twice. */
  lemma WideQuotesAreReportedTwice(lookups: Lookups, pair: TokenPair, v2: real, sushi: real, v3: real)
    requires forall i :: 0 <= i < 3 ==> Quoted(lookups[i], pair, v2, sushi, v3)
    requires v2 > 0.0 && sushi > 0.0 && v3 > 0.0 && WideQuotes(v2, sushi, v3)
    ensures |DivergenceSignals(lookups, pair, 3)| >= 2
  {
    WideSpreadShowsTwice(v2, sushi, v3, DIVERGENCE_THRESHOLD_BPS);
    assert Quoted(lookups[0], pair, v2, sushi, v3) && Quoted(lookups[1], pair, v2, sushi, v3) && Quoted(lookups[2], pair, v2, sushi, v3);
    assert |DivergenceSignals(lookups, pair, 1)| == Indicator(SpreadBps(v2, sushi) > 50.0);
    assert |DivergenceSignals(lookups, pair, 2)| == Indicator(SpreadBps(v2, sushi) > 50.0) + Indicator(SpreadBps(v2, v3) > 50.0);
    assert |DivergenceSignals(lookups, pair, 3)| == Diverging(v2, sushi, v3, 50.0);
  }

  /** The report on one pair of exchanges. */
  function Report(dexA: Dex, dexB: Dex, a: real, b: real): seq<Message>
    requires a > 0.0 && b > 0.0
  {
    if Apart(a, b, 50.0) then [Signal(MarketSignal(PriceDivergence(dexA, dexB, SpreadBps(a, b)), [], None))] else []
  }

  lemma OneReport(prices: Prices, pair: TokenPair, dexA: Dex, dexB: Dex, a: real, b: real)
    requires PriceOn(prices, pair, dexA) == Some(a) && PriceOn(prices, pair, dexB) == Some(b) && a > 0.0 && b > 0.0
    ensures Divergence(prices, pair, dexA, dexB, 50.0) == if Apart(a, b, 50.0) then Some(SpreadBps(a, b)) else None
  {
    SpreadMultipliedOut(a, b, 50.0);
  }

  /** Steady quotes are reported exactly pair by pair: each pair of exchanges more than 50 bps apart, in order, and no other. */
  lemma SteadyQuotesAreReportedExactly(lookups: Lookups, pair: TokenPair, v2: real, sushi: real, v3: real)
    requires forall i :: 0 <= i < 3 ==> Quoted(lookups[i], pair, v2, sushi, v3)
    requires v2 > 0.0 && sushi > 0.0 && v3 > 0.0
    ensures DivergenceSignals(lookups, pair, 3) ==
            Report(UniswapV2, SushiSwap, v2, sushi) + Report(UniswapV2, UniswapV3, v2, v3) + Report(UniswapV3, SushiSwap, v3, sushi)
  {
    assert Quoted(lookups[0], pair, v2, sushi, v3) && Quoted(lookups[1], pair, v2, sushi, v3) && Quoted(lookups[2], pair, v2, sushi, v3);
    OneReport(lookups[0], pair, UniswapV2, SushiSwap, v2, sushi);
    OneReport(lookups[1], pair, UniswapV2, UniswapV3, v2, v3);
    OneReport(lookups[2], pair, UniswapV3, SushiSwap, v3, sushi);
    assert DivergenceSignals(lookups, pair, 1) == Report(UniswapV2, SushiSwap, v2, sushi);
    assert DivergenceSignals(lookups, pair, 2) == Report(UniswapV2, SushiSwap, v2, sushi) + Report(UniswapV2, UniswapV3, v2, v3);
  }

  /** Quotes within 50 bps of each other are not reported at all. */
  lemma CloseQuotesGoUnreported(lookups: Lookups, pair: TokenPair, v2: real, sushi: real, v3: real)
    requires forall i :: 0 <= i < 3 ==> Quoted(lookups[i], pair, v2, sushi, v3)
    requires v2 > 0.0 && sushi > 0.0 && v3 > 0.0
    ensures DivergenceSignals(lookups, pair, 3) == [] <==>
            !Apart(v2, sushi, 50.0) && !Apart(v2, v3, 50.0) && !Apart(v3, sushi, 50.0)
  {
    SteadyQuotesAreReportedExactly(lookups, pair, v2, sushi, v3);
  }

  /** A transaction behind none of the three selectors publishes nothing; a swap is announced first, as what it is. */
  lemma TransactionSignalsExactly(lookups: Lookups, tx: RawTransaction)
    ensures |tx.input| < 4
            || (tx.input[..4] != [0x38, 0xed, 0x17, 0x38] && tx.input[..4] != [0x88, 0x03, 0xdb, 0xee]
                && tx.input[..4] != [0x41, 0x4b, 0xf3, 0x89]) ==>
              TransactionSignals(lookups, tx) == []
    ensures !ParseSwap(tx).Swap? ==> TransactionSignals(lookups, tx) == []
    ensures ParseSwap(tx).Swap? ==>
              var swap, signals := ParseSwap(tx).swap, TransactionSignals(lookups, tx);
              && signals != [] && signals[0].Signal?
              && signals[0].signal.signalType.LargeSwap? && signals[0].signal.signalType.dex == swap.dex
              && signals[0].signal.signalType.valueEth * 1_000_000_000_000_000_000.0 == swap.amount as real
              && signals[0].signal.quotes == [] && signals[0].signal.sourceTx == Some(tx.hash)
              && signals[1..] == DivergenceSignals(lookups, TokenPair(swap.tokenIn, swap.tokenOut, swap.dex), 3)
  {
    if ParseSwap(tx) != NotASwap {
      OnlyKnownSelectorsAreSwaps(tx);
    }
  }

  /**
    When the quotes change between the lookups nothing need be reported: here they are wide at every
    lookup, but each time the pair looked at agrees and the third exchange is the odd one out.
   */
  lemma ChangingQuotesGoUnreported(lookups: Lookups, pair: TokenPair, price: real)
    requires price > 0.0
    requires Quoted(lookups[0], pair, price, price, 2.0 * price)
    requires Quoted(lookups[1], pair, price, 2.0 * price, price)
    requires Quoted(lookups[2], pair, 2.0 * price, price, price)
    ensures WideQuotes(price, price, 2.0 * price) && WideQuotes(price, 2.0 * price, price) && WideQuotes(2.0 * price, price, price)
    ensures DivergenceSignals(lookups, pair, 3) == []
  {
    assert SpreadBps(price, price) == 0.0;
    assert SpreadBps(price, 2.0 * price) == 10_000.0 by {
      assert Abs(price - 2.0 * price) / price == 1.0;
    }
    SpreadSymmetric(price, 2.0 * price);
    assert DivergenceSignals(lookups, pair, 1) == [];
    assert DivergenceSignals(lookups, pair, 2) == [];
  }
}
