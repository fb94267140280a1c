/**
  The values that travel on the bus (crates/common/src/types.rs and messages.rs).
  An envelope's id and timestamp are erased, a floating-point number is an exact real, and a
  decimal amount string is the integer it parses to (0 when it does not parse).
 */
module Types {

  datatype Option<+T> = None | Some(value: T)

  datatype Result<+T, +E> = Ok(value: T) | Err(error: E)

  type Byte = b: int | 0 <= b < 256

  type Address = bytes: seq<Byte> | |bytes| == 20 witness seq(20, _ => 0)

  type TxHash = bytes: seq<Byte> | |bytes| == 32 witness seq(32, _ => 0)

  function Indicator(b: bool): nat {
    if b then 1 else 0
  }

  const U32_RANGE: nat := 0x1_0000_0000
  const U64_RANGE: nat := 0x1_0000_0000_0000_0000
  const U128_RANGE: nat := 0x1_0000_0000_0000_0000_0000_0000_0000_0000

  type U32 = n: nat | n < U32_RANGE
  type U64 = n: nat | n < U64_RANGE

  datatype Dex = UniswapV2 | UniswapV3 | SushiSwap

  datatype TradeSide = Buy | Sell

  datatype TokenPair = TokenPair(tokenA: Address, tokenB: Address, dex: Dex)

  datatype PriceQuote = PriceQuote(pair: TokenPair, price: real, liquidity: real)

  datatype SignalType =
    | PriceDivergence(pairADex: Dex, pairBDex: Dex, spreadBps: real)
    | LargeSwap(dex: Dex, valueEth: real)
    | NewBlock(blockNumber: nat)

  datatype MarketSignal = MarketSignal(signalType: SignalType, quotes: seq<PriceQuote>, sourceTx: Option<TxHash>)

  datatype TradeIntent = TradeIntent(
    strategyName: string,
    tokenIn: Address,
    tokenOut: Address,
    amountInWei: int,
    minAmountOutWei: int,
    dex: Dex,
    side: TradeSide,
    expectedProfitBps: real,
    deadlineSecs: nat,
    maxGasPriceGwei: Option<real>)

  datatype ValidatedTrade = ValidatedTrade(intent: TradeIntent, riskScore: real)

  datatype FailureReason = SigningFailed(message: string) | BroadcastFailed(message: string)

  datatype ExecutionOutcome =
    | Success(txHash: TxHash, gasUsed: nat, effectiveGasPriceGwei: real)
    | Failed(reason: FailureReason)
    | DryRun(nonce: nat, gasLimit: nat, gasPriceGwei: real, to: Address, valueWei: int)

  datatype ExecutionResult = ExecutionResult(trade: ValidatedTrade, outcome: ExecutionOutcome)

  datatype Message =
    | Signal(signal: MarketSignal)
    | Intent(intent: TradeIntent)
    | Validated(trade: ValidatedTrade)
    | Executed(result: ExecutionResult)
}
