/**
  What each agent publishes, as a function of what it has read and of nothing else:
  the strategies in list order over the signals, the fold of the risk rules over the intents, and
  the nonces in order over the validated trades.
 */
module Reference {
  import opened Types
  import opened Rules

  type Strategy = MarketSignal -> Option<TradeIntent>

  datatype ExecutionConfig = ExecutionConfig(
    gasLimit: nat,
    dryRun: bool,
    encode: (ValidatedTrade, nat, nat, real) -> seq<Byte>,
    sign: seq<Byte> -> Result<seq<Byte>, string>,
    send: seq<Byte> -> Result<TxHash, string>)

  datatype Config = Config(strategies: seq<Strategy>, risk: RiskConfig, execution: ExecutionConfig)

  const DEFAULT_GAS_PRICE_GWEI: real := 30.0

  // --- strategy agent ---

  /** The intents the strategies from index `from` on produce for one signal, in list order. */
  function Fire(strategies: seq<Strategy>, signal: MarketSignal, from: nat): seq<TradeIntent>
    requires from <= |strategies|
    decreases |strategies| - from
  {
    if from == |strategies| then []
    else
      match strategies[from](signal)
      case Some(intent) => [intent] + Fire(strategies, signal, from + 1)
      case None => Fire(strategies, signal, from + 1)
  }

  function StrategyOutput(strategies: seq<Strategy>, signals: seq<MarketSignal>): seq<TradeIntent> {
    if signals == [] then []
    else StrategyOutput(strategies, signals[..|signals| - 1]) + Fire(strategies, signals[|signals| - 1], 0)
  }

  lemma StrategyOutputNext(strategies: seq<Strategy>, signals: seq<MarketSignal>, signal: MarketSignal)
    ensures StrategyOutput(strategies, signals + [signal]) ==
            StrategyOutput(strategies, signals) + Fire(strategies, signal, 0)
  {
    assert (signals + [signal])[..|signals|] == signals;
  }

  lemma {:induction false} StrategyOutputPrefix(strategies: seq<Strategy>, some: seq<MarketSignal>, all: seq<MarketSignal>)
    requires some <= all
    ensures StrategyOutput(strategies, some) <= StrategyOutput(strategies, all)
  {
    if some != all {
      StrategyOutputPrefix(strategies, some, all[..|all| - 1]);
    }
  }

  // --- risk agent ---

  datatype RiskRun = RiskRun(exposure: real, trades: seq<ValidatedTrade>)

  /** Admit an intent against the exposure the earlier admissions left behind. */
  function Admit(config: RiskConfig, run: RiskRun, dailyLoss: real, intent: TradeIntent): RiskRun {
    if Validate(config, run.exposure, dailyLoss, intent) == Pass then
      var score := RiskScore(config, run.exposure, dailyLoss, intent);
      RiskRun(run.exposure + AmountEth(intent), run.trades + [ValidatedTrade(intent, score)])
    else run
  }

  function RiskOutput(config: RiskConfig, exposure: real, dailyLoss: real, intents: seq<TradeIntent>): RiskRun {
    if intents == [] then RiskRun(exposure, [])
    else
      var before := RiskOutput(config, exposure, dailyLoss, intents[..|intents| - 1]);
      Admit(config, before, dailyLoss, intents[|intents| - 1])
  }

  lemma RiskOutputNext(config: RiskConfig, exposure: real, dailyLoss: real, intents: seq<TradeIntent>, intent: TradeIntent)
    ensures RiskOutput(config, exposure, dailyLoss, intents + [intent]) ==
            Admit(config, RiskOutput(config, exposure, dailyLoss, intents), dailyLoss, intent)
  {
    assert (intents + [intent])[..|intents|] == intents;
  }

  lemma {:induction false} RiskOutputPrefix(config: RiskConfig, exposure: real, dailyLoss: real,
                                            some: seq<TradeIntent>, all: seq<TradeIntent>)
    requires some <= all
    ensures RiskOutput(config, exposure, dailyLoss, some).trades <= RiskOutput(config, exposure, dailyLoss, all).trades
  {
    if some != all {
      RiskOutputPrefix(config, exposure, dailyLoss, some, all[..|all| - 1]);
    }
  }

  // --- execution agent ---

  /** The atomic counter's successor: a 64-bit fetch-and-add wraps. */
  function NextNonce(nonce: U64): U64 {
    if nonce + 1 == U64_RANGE then 0 else nonce + 1
  }

  /** The nonce of the k-th trade taken since the counter stood at `initial`. */
  function NonceAt(initial: U64, k: nat): U64 {
    if k == 0 then initial else NextNonce(NonceAt(initial, k - 1))
  }

  /** The intent's own price when it has one, and 30 gwei otherwise. */
  function GasPrice(trade: ValidatedTrade): (price: real)
    ensures trade.intent.maxGasPriceGwei == None ==> price == 30.0
    ensures trade.intent.maxGasPriceGwei.Some? ==> price == trade.intent.maxGasPriceGwei.value
  {
    match trade.intent.maxGasPriceGwei
    case Some(price) => price
    case None => DEFAULT_GAS_PRICE_GWEI
  }

  /** Build, sign and broadcast one trade under the nonce it was given. */
  function ExecuteTrade(config: ExecutionConfig, trade: ValidatedTrade, nonce: nat): ExecutionOutcome {
    var gasPrice := GasPrice(trade);
    match config.sign(config.encode(trade, nonce, config.gasLimit, gasPrice))
    case Err(message) => Failed(SigningFailed(message))
    case Ok(signedTx) =>
      if config.dryRun then
        DryRun(nonce, config.gasLimit, gasPrice, trade.intent.tokenOut, trade.intent.amountInWei)
      else
        match config.send(signedTx)
        case Ok(txHash) => Success(txHash, config.gasLimit, gasPrice)
        case Err(message) => Failed(BroadcastFailed(message))
  }

  /**
    What an outcome says of the configuration: each kind of outcome happens exactly when signing, the dry-run switch
    and broadcasting make it happen, and reports the gas limit and the price the transaction was built with.
   */
  ghost predicate IsOutcome(config: ExecutionConfig, trade: ValidatedTrade, nonce: nat, outcome: ExecutionOutcome) {
    var price := GasPrice(trade);
    var signed := config.sign(config.encode(trade, nonce, config.gasLimit, price));
    && (signed.Err? ==> outcome == Failed(SigningFailed(signed.error)))
    && (signed.Ok? && config.dryRun ==>
          outcome == DryRun(nonce, config.gasLimit, price, trade.intent.tokenOut, trade.intent.amountInWei))
    && (signed.Ok? && !config.dryRun ==>
          match config.send(signed.value)
          case Ok(hash) => outcome == Success(hash, config.gasLimit, price)
          case Err(message) => outcome == Failed(BroadcastFailed(message)))
  }

  lemma OutcomeExactly(config: ExecutionConfig, trade: ValidatedTrade, nonce: nat)
    ensures IsOutcome(config, trade, nonce, ExecuteTrade(config, trade, nonce))
  {}

  /** A dry run never reports a broadcast, and what the broadcaster would have said makes no difference to it. */
  lemma DryRunNeverBroadcasts(config: ExecutionConfig, config': ExecutionConfig, trade: ValidatedTrade, nonce: nat)
    requires config.dryRun && config' == config.(send := config'.send)
    ensures var outcome := ExecuteTrade(config, trade, nonce);
            && !outcome.Success? && !(outcome.Failed? && outcome.reason.BroadcastFailed?)
            && ExecuteTrade(config', trade, nonce) == outcome
  {}

  /** A live run never reports a dry run, and succeeds exactly when signing and sending do. */
  lemma LiveRunBroadcasts(config: ExecutionConfig, trade: ValidatedTrade, nonce: nat, hash: TxHash)
    requires !config.dryRun
    ensures var outcome := ExecuteTrade(config, trade, nonce);
            var signed := config.sign(config.encode(trade, nonce, config.gasLimit, GasPrice(trade)));
            && !outcome.DryRun?
            && (outcome.Success? && outcome.txHash == hash <==> signed.Ok? && config.send(signed.value) == Ok(hash))
            && (outcome.Failed? && outcome.reason.SigningFailed? <==> signed.Err?)
  {}

  // --- the answers of a list of strategies, counted ---

  /** How many of the first `i` strategies answer the signal. */
  function Answering(strategies: seq<Strategy>, signal: MarketSignal, i: nat): nat
    requires i <= |strategies|
  {
    if i == 0 then 0 else Answering(strategies, signal, i - 1) + Indicator(strategies[i - 1](signal).Some?)
  }

  /** Every strategy that answers is heard, as many places down the list of intents as strategies before it answered. */
  lemma {:induction false} FireHasEveryAnswer(strategies: seq<Strategy>, signal: MarketSignal, from: nat, i: nat)
    requires from <= i <= |strategies|
    ensures Answering(strategies, signal, from) <= Answering(strategies, signal, i)
    ensures |Fire(strategies, signal, from)| == Answering(strategies, signal, |strategies|) - Answering(strategies, signal, from)
    ensures i < |strategies| && strategies[i](signal).Some? ==>
              var place := Answering(strategies, signal, i) - Answering(strategies, signal, from);
              place < |Fire(strategies, signal, from)| && Fire(strategies, signal, from)[place] == strategies[i](signal).value
    decreases |strategies| - from
  {
    if from < |strategies| {
      FireHasEveryAnswer(strategies, signal, from + 1, if i > from then i else from + 1);
    }
  }

  function ResultAt(config: ExecutionConfig, initial: U64, trades: seq<ValidatedTrade>, k: nat): ExecutionResult
    requires k < |trades|
  {
    ExecutionResult(trades[k], ExecuteTrade(config, trades[k], NonceAt(initial, k)))
  }

  function ExecutionOutput(config: ExecutionConfig, initial: U64, trades: seq<ValidatedTrade>): seq<ExecutionResult> {
    seq(|trades|, k requires 0 <= k < |trades| => ResultAt(config, initial, trades, k))
  }

  lemma ExecutionOutputNext(config: ExecutionConfig, initial: U64, trades: seq<ValidatedTrade>, trade: ValidatedTrade)
    ensures ExecutionOutput(config, initial, trades + [trade]) ==
            ExecutionOutput(config, initial, trades)
            + [ExecutionResult(trade, ExecuteTrade(config, trade, NonceAt(initial, |trades|)))]
  {}

  lemma SuccessorResidue(n: nat)
    ensures (n + 1) % U64_RANGE == if n % U64_RANGE + 1 == U64_RANGE then 0 else n % U64_RANGE + 1
  {
    var q := n / U64_RANGE;
    assert n == U64_RANGE * q + n % U64_RANGE;
    if n % U64_RANGE + 1 == U64_RANGE {
      assert n + 1 == U64_RANGE * (q + 1);
    } else {
      assert n + 1 == U64_RANGE * q + (n % U64_RANGE + 1);
    }
  }

  lemma SameResidue(a: nat, b: nat)
    requires a <= b
    ensures a % U64_RANGE == b % U64_RANGE <==> (b - a) % U64_RANGE == 0
  {
    var qa, qb := a / U64_RANGE, b / U64_RANGE;
    assert a == U64_RANGE * qa + a % U64_RANGE && b == U64_RANGE * qb + b % U64_RANGE;
    assert b - a == U64_RANGE * (qb - qa) + (b % U64_RANGE - a % U64_RANGE);
    assert b - a == U64_RANGE * ((b - a) / U64_RANGE) + (b - a) % U64_RANGE;
  }

  /** The counter after k trades, in closed form. */
  lemma {:induction false} NonceClosedForm(initial: U64, k: nat)
    ensures NonceAt(initial, k) == (initial + k) % U64_RANGE
  {
    if k > 0 {
      NonceClosedForm(initial, k - 1);
      SuccessorResidue(initial + (k - 1));
    }
  }

  /** Two trades share a nonce exactly when a whole turn of the 64-bit counter lies between them. */
  lemma NoncesDistinct(initial: U64, i: nat, j: nat)
    requires i <= j
    ensures NonceAt(initial, i) == NonceAt(initial, j) <==> (j - i) % U64_RANGE == 0
  {
    NonceClosedForm(initial, i);
    NonceClosedForm(initial, j);
    SameResidue(initial + i, initial + j);
    assert initial + j - (initial + i) == j - i;
  }
}
