/**
  The risk agent's admission rules and its risk score
  (crates/risk-agent/src/rules.rs, and `validate` and `compute_risk_score` in agent.rs).
  The tracker is read as the pair (exposure, dailyLoss).
 */
module Rules {
  import opened Types

  const WEI_PER_ETH: real := 1_000_000_000_000_000_000.0

  datatype RiskConfig = RiskConfig(
    maxPositionSizeEth: real,
    maxSlippageBps: U64,
    maxGasPriceGwei: real,
    dailyLossLimitEth: real)

  datatype RiskError =
    | ExposureLimitExceeded(currentEth: real, maxEth: real)
    | SlippageTooHigh(actualBps: nat, maxBps: nat)
    | GasPriceTooHigh(priceGwei: real, maxGwei: real)
    | DailyLossLimitReached(lossEth: real)
    | ZeroAmount
    | ZeroDeadline
    | SameToken

  datatype Verdict = Pass | Reject(error: RiskError)

  function WeiToEth(wei: int): real {
    wei as real / WEI_PER_ETH
  }

  function AmountEth(intent: TradeIntent): real {
    WeiToEth(intent.amountInWei)
  }

  /** A float-to-u64 cast: truncating, and saturating at both ends. */
  function ToU64(x: real): nat {
    if x <= 0.0 then 0 else if x >= U64_RANGE as real then U64_RANGE - 1 else x.Floor
  }

  function CheckSanity(intent: TradeIntent): Verdict {
    if intent.amountInWei <= 0 then Reject(ZeroAmount)
    else if intent.deadlineSecs == 0 then Reject(ZeroDeadline)
    else if intent.tokenIn == intent.tokenOut then Reject(SameToken)
    else Pass
  }

  function CheckExposureLimit(intent: TradeIntent, exposure: real, maxEth: real): Verdict {
    var projected := exposure + AmountEth(intent);
    if projected > maxEth then Reject(ExposureLimitExceeded(projected, maxEth)) else Pass
  }

  function SlippageBps(amountIn: int, minOut: int): nat
    requires amountIn > 0
  {
    ToU64((amountIn - minOut) as real / amountIn as real * 10_000.0)
  }

  function CheckSlippage(intent: TradeIntent, maxBps: nat): Verdict {
    if intent.amountInWei <= 0 then Pass
    else
      var slippage := SlippageBps(intent.amountInWei, intent.minAmountOutWei);
      if slippage > maxBps then Reject(SlippageTooHigh(slippage, maxBps)) else Pass
  }

  function CheckGasPrice(intent: TradeIntent, maxGwei: real): Verdict {
    match intent.maxGasPriceGwei
    case Some(price) => if price > maxGwei then Reject(GasPriceTooHigh(price, maxGwei)) else Pass
    case None => Pass
  }

  function CheckDailyLossLimit(dailyLoss: real, limitEth: real): Verdict {
    if dailyLoss >= limitEth then Reject(DailyLossLimitReached(dailyLoss)) else Pass
  }

  /** All five rules in the order the agent asks them; the first rejection is the answer. */
  function Validate(config: RiskConfig, exposure: real, dailyLoss: real, intent: TradeIntent): Verdict {
    if CheckSanity(intent) != Pass then CheckSanity(intent)
    else if CheckExposureLimit(intent, exposure, config.maxPositionSizeEth) != Pass then
      CheckExposureLimit(intent, exposure, config.maxPositionSizeEth)
    else if CheckSlippage(intent, config.maxSlippageBps) != Pass then CheckSlippage(intent, config.maxSlippageBps)
    else if CheckGasPrice(intent, config.maxGasPriceGwei) != Pass then CheckGasPrice(intent, config.maxGasPriceGwei)
    else CheckDailyLossLimit(dailyLoss, config.dailyLossLimitEth)
  }

  function ExposureRatio(config: RiskConfig, exposure: real, intent: TradeIntent): real
    requires config.maxPositionSizeEth != 0.0
  {
    (exposure + AmountEth(intent)) / config.maxPositionSizeEth
  }

  function GasRatio(config: RiskConfig, intent: TradeIntent): real
    requires config.maxGasPriceGwei != 0.0
  {
    match intent.maxGasPriceGwei
    case Some(price) => price / config.maxGasPriceGwei
    case None => 0.0
  }

  /** The weighted average before clamping. */
  function RawScore(config: RiskConfig, exposure: real, dailyLoss: real, intent: TradeIntent): real
    requires config.maxPositionSizeEth != 0.0 && config.maxGasPriceGwei != 0.0 && config.dailyLossLimitEth != 0.0
  {
    0.4 * ExposureRatio(config, exposure, intent) + 0.3 * GasRatio(config, intent)
    + 0.3 * (dailyLoss / config.dailyLossLimitEth)
  }

  function Clamp(x: real): real {
    if x < 0.0 then 0.0 else if x > 1.0 then 1.0 else x
  }

  /** The published score. With a zero limit the source divides by zero in floating point; the model answers 0. */
  function RiskScore(config: RiskConfig, exposure: real, dailyLoss: real, intent: TradeIntent): real {
    if config.maxPositionSizeEth == 0.0 || config.maxGasPriceGwei == 0.0 || config.dailyLossLimitEth == 0.0 then 0.0
    else Clamp(RawScore(config, exposure, dailyLoss, intent))
  }

  // ---------------------------------------------------------------------------------------------
  // What the rules mean
  // ---------------------------------------------------------------------------------------------

  /** Scaling both sides of a comparison by a positive factor. */
  lemma ScaleLess(x: real, y: real, k: real)
    requires k > 0.0
    ensures x < y <==> x * k < y * k
  {
    if x < y {
      assert (y - x) * k > 0.0;
    } else {
      assert (x - y) * k >= 0.0;
    }
  }

  /** A truncating cast stays at or below an integer bound exactly when the value is below its successor. */
  lemma CastAtMost(x: real, bound: nat)
    requires bound < U64_RANGE - 1
    ensures ToU64(x) <= bound <==> x < (bound + 1) as real
  {
    if 0.0 < x < U64_RANGE as real {
      assert x.Floor as real <= x < (x.Floor + 1) as real;
    }
  }

  lemma QuotientBelow(numerator: real, denominator: real, bound: real)
    requires denominator > 0.0
    ensures numerator / denominator * 10_000.0 < bound <==> numerator * 10_000.0 < bound * denominator
  {
    var q := numerator / denominator;
    assert q * denominator == numerator;
    ScaleLess(q * 10_000.0, bound, denominator);
    assert q * 10_000.0 * denominator == numerator * 10_000.0;
  }

  lemma ProductOfCasts(x: int, y: int)
    ensures x as real * y as real == (x * y) as real
  {}

  /** The slippage rule without division, rounding or cast. Only the largest u64 limit is different: it accepts all. */
  lemma SlippageRuleExact(intent: TradeIntent, maxBps: U64)
    ensures CheckSlippage(intent, maxBps) == Pass <==>
            || intent.amountInWei <= 0
            || maxBps == U64_RANGE - 1
            || 10_000 * (intent.amountInWei - intent.minAmountOutWei) < (maxBps + 1) * intent.amountInWei
  {
    var amount, out := intent.amountInWei, intent.minAmountOutWei;
    if amount > 0 && maxBps < U64_RANGE - 1 {
      CastAtMost((amount - out) as real / amount as real * 10_000.0, maxBps);
      QuotientBelow((amount - out) as real, amount as real, (maxBps + 1) as real);
      ProductOfCasts(maxBps + 1, amount);
    }
  }

  /** An intent passes exactly when all five inequalities hold, whatever the order of the checks. */
  ghost predicate Admissible(config: RiskConfig, exposure: real, dailyLoss: real, intent: TradeIntent) {
    && intent.amountInWei > 0
    && intent.deadlineSecs > 0
    && intent.tokenIn != intent.tokenOut
    && exposure + AmountEth(intent) <= config.maxPositionSizeEth
    && (config.maxSlippageBps == U64_RANGE - 1 ||
        10_000 * (intent.amountInWei - intent.minAmountOutWei) < (config.maxSlippageBps + 1) * intent.amountInWei)
    && (intent.maxGasPriceGwei.Some? ==> intent.maxGasPriceGwei.value <= config.maxGasPriceGwei)
    && dailyLoss < config.dailyLossLimitEth
  }

  lemma ValidateExact(config: RiskConfig, exposure: real, dailyLoss: real, intent: TradeIntent)
    ensures Validate(config, exposure, dailyLoss, intent) == Pass <==> Admissible(config, exposure, dailyLoss, intent)
  {
    SlippageRuleExact(intent, config.maxSlippageBps);
  }

  lemma PositiveAmount(intent: TradeIntent)
    ensures intent.amountInWei > 0 <==> AmountEth(intent) > 0.0
  {
    var eth := AmountEth(intent);
    assert eth * WEI_PER_ETH == intent.amountInWei as real;
  }

  lemma RatioBounds(x: real, y: real)
    requires y > 0.0
    ensures x > 0.0 <==> x / y > 0.0
    ensures x >= 0.0 <==> x / y >= 0.0
    ensures x <= y <==> x / y <= 1.0
    ensures x < y <==> x / y < 1.0
  {
    var q := x / y;
    assert q * y == x;
    ScaleLess(0.0, q, y);
    ScaleLess(q, 0.0, y);
    ScaleLess(q, 1.0, y);
    ScaleLess(1.0, q, y);
  }

  ghost predicate PositiveLimits(config: RiskConfig) {
    config.maxPositionSizeEth > 0.0 && config.maxGasPriceGwei > 0.0 && config.dailyLossLimitEth > 0.0
  }

  function GasOf(intent: TradeIntent): real {
    if intent.maxGasPriceGwei.Some? then intent.maxGasPriceGwei.value else 0.0
  }

  lemma GasRatioIs(config: RiskConfig, intent: TradeIntent)
    requires config.maxGasPriceGwei > 0.0
    ensures GasRatio(config, intent) == GasOf(intent) / config.maxGasPriceGwei
  {
    assert 0.0 / config.maxGasPriceGwei == 0.0;
  }

  /** The clamped weighted average of an exposure, a gas and a loss ratio. */
  lemma ClampedAverage(exposure: real, gas: real, loss: real)
    requires 0.0 < exposure <= 1.0 && 0.0 <= gas <= 1.0 && 0.0 <= loss
    ensures var raw := 0.4 * exposure + 0.3 * gas + 0.3 * loss;
            && 0.0 < Clamp(raw) <= 1.0
            && (Clamp(raw) < 1.0 <==> raw < 1.0)
            && (raw < 1.0 ==> Clamp(raw) == raw)
            && (loss < 1.0 ==> raw < 1.0)
            && (loss >= 4.0 ==> Clamp(raw) == 1.0)
  {}

  lemma FourTimes(x: real, y: real)
    requires y > 0.0 && x >= 4.0 * y
    ensures x / y >= 4.0
  {
    assert (x / y) * y == x;
    ScaleLess(x / y, 4.0, y);
  }

  /**
    The score of an intent that fits the position and gas limits, under any loss reading: positive,
    at most 1, and below 1 exactly when the weighted average is, as it is while the loss is below its limit.
   */
  lemma ScoreRange(config: RiskConfig, exposure: real, dailyLoss: real, intent: TradeIntent)
    requires PositiveLimits(config) && exposure >= 0.0 && dailyLoss >= 0.0
    requires 0.0 < AmountEth(intent) && exposure + AmountEth(intent) <= config.maxPositionSizeEth
    requires 0.0 <= GasOf(intent) <= config.maxGasPriceGwei
    ensures 0.0 < RiskScore(config, exposure, dailyLoss, intent) <= 1.0
    ensures RiskScore(config, exposure, dailyLoss, intent) < 1.0 <==> RawScore(config, exposure, dailyLoss, intent) < 1.0
    ensures RawScore(config, exposure, dailyLoss, intent) < 1.0 ==>
              RiskScore(config, exposure, dailyLoss, intent) == RawScore(config, exposure, dailyLoss, intent)
    ensures dailyLoss < config.dailyLossLimitEth ==> RawScore(config, exposure, dailyLoss, intent) < 1.0
    ensures dailyLoss >= 4.0 * config.dailyLossLimitEth ==> RiskScore(config, exposure, dailyLoss, intent) == 1.0
  {
    var gas, loss := GasOf(intent) / config.maxGasPriceGwei, dailyLoss / config.dailyLossLimitEth;
    RatioBounds(exposure + AmountEth(intent), config.maxPositionSizeEth);
    RatioBounds(GasOf(intent), config.maxGasPriceGwei);
    RatioBounds(dailyLoss, config.dailyLossLimitEth);
    GasRatioIs(config, intent);
    ClampedAverage(ExposureRatio(config, exposure, intent), gas, loss);
    if dailyLoss >= 4.0 * config.dailyLossLimitEth {
      FourTimes(dailyLoss, config.dailyLossLimitEth);
    }
  }

  /** For an intent that passes the rules the weighted average already lies strictly inside (0, 1). */
  lemma ScoreOfValidatedIsRaw(config: RiskConfig, exposure: real, dailyLoss: real, intent: TradeIntent)
    requires PositiveLimits(config) && exposure >= 0.0 && dailyLoss >= 0.0
    requires GasOf(intent) >= 0.0
    requires Validate(config, exposure, dailyLoss, intent) == Pass
    ensures 0.0 < RawScore(config, exposure, dailyLoss, intent) < 1.0
    ensures RiskScore(config, exposure, dailyLoss, intent) == RawScore(config, exposure, dailyLoss, intent)
  {
    PositiveAmount(intent);
    ScoreRange(config, exposure, dailyLoss, intent);
  }

  lemma RatioMonotone(x: real, x': real, y: real)
    requires y > 0.0 && x <= x'
    ensures x / y <= x' / y
  {
    assert (x / y) * y == x && (x' / y) * y == x';
    ScaleLess(x' / y, x / y, y);
  }

  /** More exposure, more gas or more loss never lowers the score. */
  lemma ScoreMonotone(config: RiskConfig, exposure: real, exposure': real, dailyLoss: real, dailyLoss': real,
                      intent: TradeIntent, intent': TradeIntent)
    requires PositiveLimits(config)
    requires exposure + AmountEth(intent) <= exposure' + AmountEth(intent')
    requires GasOf(intent) <= GasOf(intent') && dailyLoss <= dailyLoss'
    ensures RiskScore(config, exposure, dailyLoss, intent) <= RiskScore(config, exposure', dailyLoss', intent')
  {
    RatioMonotone(exposure + AmountEth(intent), exposure' + AmountEth(intent'), config.maxPositionSizeEth);
    RatioMonotone(dailyLoss, dailyLoss', config.dailyLossLimitEth);
    RatioMonotone(GasOf(intent), GasOf(intent'), config.maxGasPriceGwei);
    GasRatioIs(config, intent);
    GasRatioIs(config, intent');
    assert RawScore(config, exposure, dailyLoss, intent) <= RawScore(config, exposure', dailyLoss', intent');
  }

  lemma QuotientTimes(x: real, y: real, z: real)
    requires y > 0.0
    ensures (x / y) * (y * z) == x * z
  {
    assert (x / y) * (y * z) == ((x / y) * y) * z;
  }

  /** A weighted average of three ratios, with the denominators multiplied out. */
  lemma AverageMultipliedOut(x: real, m: real, g: real, n: real, l: real, k: real)
    requires m > 0.0 && n > 0.0 && k > 0.0
    ensures (0.4 * (x / m) + 0.3 * (g / n) + 0.3 * (l / k)) * (m * n * k) == 0.4 * (x * n * k) + 0.3 * (g * m * k) + 0.3 * (l * m * n)
  {
    var a, b, c := x / m, g / n, l / k;
    QuotientTimes(x, m, n * k);
    QuotientTimes(g, n, m * k);
    QuotientTimes(l, k, m * n);
    assert m * (n * k) == m * n * k && n * (m * k) == m * n * k && k * (m * n) == m * n * k;
    assert x * (n * k) == x * n * k && g * (m * k) == g * m * k && l * (m * n) == l * m * n;
    Distributes(0.4 * a, 0.3 * b, 0.3 * c, m * n * k);
    Pulls(0.4, a, m * n * k);
    Pulls(0.3, b, m * n * k);
    Pulls(0.3, c, m * n * k);
  }

  lemma Distributes(a: real, b: real, c: real, d: real)
    ensures (a + b + c) * d == a * d + b * d + c * d
  {}

  lemma Pulls(w: real, a: real, d: real)
    ensures w * a * d == w * (a * d)
  {}

  /**
    Every value of the score, without division: four parts exposure, three parts gas and three parts
    loss, each in units of its limit, out of ten, and 1 when they come to more.
   */
  lemma ScoreValue(config: RiskConfig, exposure: real, dailyLoss: real, intent: TradeIntent)
    requires PositiveLimits(config) && exposure >= 0.0 && dailyLoss >= 0.0
    requires 0.0 < AmountEth(intent) && exposure + AmountEth(intent) <= config.maxPositionSizeEth
    requires 0.0 <= GasOf(intent) <= config.maxGasPriceGwei
    ensures var m, n, k := config.maxPositionSizeEth, config.maxGasPriceGwei, config.dailyLossLimitEth;
            var parts := 0.4 * ((exposure + AmountEth(intent)) * n * k) + 0.3 * (GasOf(intent) * m * k) + 0.3 * (dailyLoss * m * n);
            if parts <= m * n * k then RiskScore(config, exposure, dailyLoss, intent) * (m * n * k) == parts
            else RiskScore(config, exposure, dailyLoss, intent) == 1.0
  {
    var m, n, k := config.maxPositionSizeEth, config.maxGasPriceGwei, config.dailyLossLimitEth;
    var raw := RawScore(config, exposure, dailyLoss, intent);
    ScoreRange(config, exposure, dailyLoss, intent);
    GasRatioIs(config, intent);
    AverageMultipliedOut(exposure + AmountEth(intent), m, GasOf(intent), n, dailyLoss, k);
    PositiveProduct(m, n, k);
    ScaleLess(1.0, raw, m * n * k);
  }

  lemma PositiveProduct(m: real, n: real, k: real)
    requires m > 0.0 && n > 0.0 && k > 0.0
    ensures m * n * k > 0.0
  {
    assert m * n > 0.0;
  }

  lemma RatioDifference(x: real, x': real, y: real)
    requires y > 0.0
    ensures x' / y - x / y == (x' - x) / y
  {}

  /** On intents that pass the rules the score is affine in each factor, with slopes 0.4, 0.3 and 0.3 over the limits. */
  lemma ScoreIsAffine(config: RiskConfig, exposure: real, exposure': real, dailyLoss: real, dailyLoss': real,
                      intent: TradeIntent, intent': TradeIntent)
    requires PositiveLimits(config) && exposure >= 0.0 && exposure' >= 0.0 && dailyLoss >= 0.0 && dailyLoss' >= 0.0
    requires GasOf(intent) >= 0.0 && GasOf(intent') >= 0.0
    requires Validate(config, exposure, dailyLoss, intent) == Pass && Validate(config, exposure', dailyLoss', intent') == Pass
    ensures var more := exposure' + AmountEth(intent') - (exposure + AmountEth(intent));
            RiskScore(config, exposure', dailyLoss', intent') - RiskScore(config, exposure, dailyLoss, intent) ==
            0.4 * (more / config.maxPositionSizeEth)
            + 0.3 * ((GasOf(intent') - GasOf(intent)) / config.maxGasPriceGwei)
            + 0.3 * ((dailyLoss' - dailyLoss) / config.dailyLossLimitEth)
  {
    ScoreOfValidatedIsRaw(config, exposure, dailyLoss, intent);
    ScoreOfValidatedIsRaw(config, exposure', dailyLoss', intent');
    GasRatioIs(config, intent);
    GasRatioIs(config, intent');
    RatioDifference(exposure + AmountEth(intent), exposure' + AmountEth(intent'), config.maxPositionSizeEth);
    RatioDifference(GasOf(intent), GasOf(intent'), config.maxGasPriceGwei);
    RatioDifference(dailyLoss, dailyLoss', config.dailyLossLimitEth);
  }

  /** An ether is 10^18 wei. */
  lemma EtherIsWei(intent: TradeIntent)
    ensures AmountEth(intent) * 1_000_000_000_000_000_000.0 == intent.amountInWei as real
  {}

  /** Which rule speaks when several are broken: the first in the order of the checks, with its own figures. */
  lemma FirstBrokenRuleSpeaks(config: RiskConfig, exposure: real, dailyLoss: real, intent: TradeIntent)
    ensures var verdict, projected := Validate(config, exposure, dailyLoss, intent), exposure + AmountEth(intent);
            var noAmount, noDeadline := intent.amountInWei <= 0, intent.deadlineSecs == 0;
            var sane := !noAmount && !noDeadline && intent.tokenIn != intent.tokenOut;
            var fits, slips := projected <= config.maxPositionSizeEth, CheckSlippage(intent, config.maxSlippageBps) != Pass;
            var dear := intent.maxGasPriceGwei.Some? && intent.maxGasPriceGwei.value > config.maxGasPriceGwei;
            && (noAmount ==> verdict == Reject(ZeroAmount))
            && (!noAmount && noDeadline ==> verdict == Reject(ZeroDeadline))
            && (!noAmount && !noDeadline && !sane ==> verdict == Reject(SameToken))
            && (sane && !fits ==> verdict == Reject(ExposureLimitExceeded(projected, config.maxPositionSizeEth)))
            && (sane && fits && slips ==>
                  && verdict.Reject? && verdict.error.SlippageTooHigh? && verdict.error.maxBps == config.maxSlippageBps
                  && IsSlippage(intent, verdict.error.actualBps))
            && (sane && fits && !slips && dear ==>
                  verdict == Reject(GasPriceTooHigh(intent.maxGasPriceGwei.value, config.maxGasPriceGwei)))
            && (sane && fits && !slips && !dear && dailyLoss >= config.dailyLossLimitEth ==>
                  verdict == Reject(DailyLossLimitReached(dailyLoss)))
  {
    if intent.amountInWei > 0 {
      SlippageIsFloored(intent);
    }
  }

  /** The whole basis points of the amount that the minimum output gives up, up to the largest 64-bit number. */
  ghost predicate IsSlippage(intent: TradeIntent, bps: nat) {
    var given := 10_000 * (intent.amountInWei - intent.minAmountOutWei);
    && (given <= 0 ==> bps == 0)
    && (given > 0 ==> bps * intent.amountInWei <= given)
    && (bps < U64_RANGE - 1 ==> given < (bps + 1) * intent.amountInWei)
  }

  lemma CastIsFloor(x: real)
    ensures x <= 0.0 ==> ToU64(x) == 0
    ensures x > 0.0 ==> ToU64(x) as real <= x
    ensures ToU64(x) < U64_RANGE - 1 ==> x < (ToU64(x) + 1) as real
  {
    if 0.0 < x < U64_RANGE as real {
      assert x.Floor as real <= x < (x.Floor + 1) as real;
    }
  }

  lemma SlippageIsFloored(intent: TradeIntent)
    requires intent.amountInWei > 0
    ensures IsSlippage(intent, SlippageBps(intent.amountInWei, intent.minAmountOutWei))
  {
    var amount, gap := intent.amountInWei, intent.amountInWei - intent.minAmountOutWei;
    var bps := SlippageBps(amount, intent.minAmountOutWei);
    CastIsFloor(gap as real / amount as real * 10_000.0);
    QuotientBelow(gap as real, amount as real, bps as real);
    QuotientBelow(gap as real, amount as real, (bps + 1) as real);
    RatioBounds(gap as real, amount as real);
    ProductOfCasts(bps, amount);
    ProductOfCasts(bps + 1, amount);
  }

  /** What the weights mean: each factor alone at its limit scores its weight, and all three together score 1. */
  lemma ScoreWeights(config: RiskConfig, exposure: real, intent: TradeIntent)
    requires PositiveLimits(config)
    requires exposure + AmountEth(intent) == config.maxPositionSizeEth
    ensures intent.maxGasPriceGwei == None ==> RiskScore(config, exposure, 0.0, intent) == 0.4
    ensures intent.maxGasPriceGwei == Some(config.maxGasPriceGwei) ==> RiskScore(config, exposure, 0.0, intent) == 0.7
    ensures intent.maxGasPriceGwei == None ==> RiskScore(config, exposure, config.dailyLossLimitEth, intent) == 0.7
    ensures intent.maxGasPriceGwei == Some(config.maxGasPriceGwei) ==>
              RiskScore(config, exposure, config.dailyLossLimitEth, intent) == 1.0
  {
    var one := ExposureRatio(config, exposure, intent);
    assert one == 1.0;
    assert config.dailyLossLimitEth / config.dailyLossLimitEth == 1.0;
    assert config.maxGasPriceGwei / config.maxGasPriceGwei == 1.0;
  }
}
