/**
  The arbitrage strategy (crates/strategy-agent/src/strategies/arbitrage.rs) against the risk rules
  its intents then meet.
 */
module Arbitrage {
  import opened Types
  import opened Rules
  import opened Pipeline
  import opened PipelineTheorems

  datatype ArbitrageConfig = ArbitrageConfig(minProfitBps: real, maxTradeSizeEth: real)

  /** A float-to-u128 cast: truncating, and saturating at both ends. */
  function ToU128(x: real): nat {
    if x <= 0.0 then 0 else if x >= U128_RANGE as real then U128_RANGE - 1 else x.Floor
  }

  function AmountWei(config: ArbitrageConfig): nat {
    ToU128(config.maxTradeSizeEth * WEI_PER_ETH)
  }

  function MinOutWei(amountWei: nat, spreadBps: real): nat {
    ToU128(amountWei as real * (1.0 - spreadBps / 10_000.0))
  }

  function ZeroAddress(): Address {
    seq(20, _ => 0)
  }

  function Evaluate(config: ArbitrageConfig, signal: MarketSignal): Option<TradeIntent> {
    match signal.signalType
    case PriceDivergence(pairADex, _, spreadBps) =>
      if spreadBps < config.minProfitBps then None
      else
        var amountWei := AmountWei(config);
        Some(TradeIntent("arbitrage", ZeroAddress(), ZeroAddress(), amountWei, MinOutWei(amountWei, spreadBps),
                         pairADex, Buy, spreadBps, 120, None))
    case _ => None
  }

  /** The trade size in wei: the configured ether, rounded down, within the range of the cast. */
  lemma AmountWeiExactly(config: ArbitrageConfig)
    ensures var wei := config.maxTradeSizeEth * 1_000_000_000_000_000_000.0;
            && (wei <= 0.0 ==> AmountWei(config) == 0)
            && (0.0 < wei < U128_RANGE as real ==> AmountWei(config) as real <= wei < (AmountWei(config) + 1) as real)
            && (wei >= U128_RANGE as real ==> AmountWei(config) == U128_RANGE - 1)
  {}

  /** The minimum output for any spread: the amount less the spread's share of it, rounded down and never negative. */
  lemma MinOutRoundsDown(amount: nat, spreadBps: real)
    requires amount < U128_RANGE && spreadBps >= 0.0
    ensures spreadBps >= 10_000.0 ==> MinOutWei(amount, spreadBps) == 0
    ensures spreadBps < 10_000.0 ==>
              var out := MinOutWei(amount, spreadBps) as real;
              out * 10_000.0 <= amount as real * (10_000.0 - spreadBps) < (out + 1.0) * 10_000.0
  {
    var kept := 1.0 - spreadBps / 10_000.0;
    var exact := amount as real * kept;
    assert kept * 10_000.0 == 10_000.0 - spreadBps && kept <= 1.0;
    assert exact * 10_000.0 == amount as real * (kept * 10_000.0);
    if spreadBps >= 10_000.0 {
      NotPositive(amount as real, kept);
    } else {
      AtMostAll(amount as real, kept);
    }
  }

  lemma NotPositive(x: real, share: real)
    requires x >= 0.0 && share <= 0.0
    ensures x * share <= 0.0
  {}

  lemma AtMostAll(x: real, share: real)
    requires x >= 0.0 && 0.0 <= share <= 1.0
    ensures 0.0 <= x * share <= x
  {
    assert x * (1.0 - share) >= 0.0;
  }

  /** When the strategy answers, and with which intent. */
  lemma EvaluatesExactly(config: ArbitrageConfig, signal: MarketSignal)
    ensures Evaluate(config, signal).Some? <==>
            signal.signalType.PriceDivergence? && signal.signalType.spreadBps >= config.minProfitBps
    ensures Evaluate(config, signal).Some? ==>
              var intent, divergence := Evaluate(config, signal).value, signal.signalType;
              && intent.strategyName == "arbitrage"
              && intent.amountInWei == AmountWei(config)
              && intent.minAmountOutWei == MinOutWei(AmountWei(config), divergence.spreadBps)
              && intent.dex == divergence.pairADex && intent.side == Buy
              && intent.expectedProfitBps == divergence.spreadBps
              && intent.deadlineSecs == 120 && intent.maxGasPriceGwei == None
              && intent.tokenIn == intent.tokenOut
              && (forall i :: 0 <= i < 20 ==> intent.tokenIn[i] == 0)
  {}

  /** The floored output, without division: it gives up the spread's share of the amount, rounded up. */
  lemma MinOutExact(amount: nat, spread: nat)
    requires spread <= 10_000 && amount < U128_RANGE
    ensures var out := MinOutWei(amount, spread as real);
            spread * amount <= 10_000 * (amount - out) < spread * amount + 10_000
  {
    var kept := amount * (10_000 - spread);
    assert 0 <= kept <= amount * 10_000;
    var exact := amount as real * (1.0 - spread as real / 10_000.0);
    assert exact * 10_000.0 == kept as real by {
      assert (1.0 - spread as real / 10_000.0) * 10_000.0 == (10_000 - spread) as real;
      assert exact * 10_000.0 == amount as real * ((1.0 - spread as real / 10_000.0) * 10_000.0);
    }
    assert 0.0 <= exact <= amount as real;
    var out := MinOutWei(amount, spread as real);
    assert out as real <= exact < (out + 1) as real;
    assert 10_000 * out <= kept < 10_000 * (out + 1);
    assert kept == 10_000 * amount - spread * amount;
  }

  lemma CastBetween(x: real, s: nat)
    requires s < U64_RANGE && s as real <= x < (s + 1) as real
    ensures ToU64(x) == s
  {
    assert x.Floor == s;
  }

  /** A quotient floors to `s` when the numerator lies in [s, s + 1) times the denominator. */
  lemma QuotientCast(numerator: int, denominator: nat, s: nat)
    requires denominator > 0 && s < U64_RANGE
    requires s * denominator <= 10_000 * numerator < (s + 1) * denominator
    ensures ToU64(numerator as real / denominator as real * 10_000.0) == s
  {
    QuotientBelow(numerator as real, denominator as real, s as real);
    QuotientBelow(numerator as real, denominator as real, (s + 1) as real);
    ProductOfCasts(s, denominator);
    ProductOfCasts(s + 1, denominator);
    CastBetween(numerator as real / denominator as real * 10_000.0, s);
  }

  /** The risk agent recomputes exactly the spread the strategy put in: the two roundings agree. */
  lemma RoundingsAgree(amount: nat, spread: nat)
    requires spread <= 10_000 && 10_000 <= amount < U128_RANGE
    ensures SlippageBps(amount, MinOutWei(amount, spread as real)) == spread
  {
    MinOutExact(amount, spread);
    QuotientCast(amount - MinOutWei(amount, spread as real), amount, spread);
  }

  /** So a divergence intent passes the slippage rule exactly when its spread is within the limit. */
  lemma SlippageRuleSeesSpread(config: ArbitrageConfig, signal: MarketSignal, spread: nat, maxBps: U64)
    requires signal.signalType.PriceDivergence? && signal.signalType.spreadBps == spread as real
    requires spread <= 10_000 && spread as real >= config.minProfitBps && 10_000 <= AmountWei(config)
    ensures Evaluate(config, signal).Some?
    ensures CheckSlippage(Evaluate(config, signal).value, maxBps) == Pass <==> spread <= maxBps
  {
    RoundingsAgree(AmountWei(config), spread);
  }

  /**
    The orchestrator registers this strategy only, and it names the same token on both sides: in
    no run of that pipeline does anything get validated or executed.
   */
  lemma ShippedPipelineNeverTrades(sys: System, s: State, config: ArbitrageConfig, p: nat)
    requires Reachable(sys, s) && p < |s.log|
    requires forall i, signal :: 0 <= i < |sys.config.strategies| ==>
                                   sys.config.strategies[i](signal) == Evaluate(config, signal)
    ensures !s.log[p].Validated? && !s.log[p].Executed?
  {
    var strategies := sys.config.strategies;
    forall i, signal | 0 <= i < |strategies| && strategies[i](signal).Some?
      ensures strategies[i](signal).value.tokenIn == strategies[i](signal).value.tokenOut
    {
      assert strategies[i](signal) == Evaluate(config, signal);
    }
    SameTokenNeverTrades(sys, s, p);
  }
}
