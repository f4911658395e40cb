/** The deterministic backtest: a ledger stepped interval by interval. `Simulate` is the meaning of
    a run; `Engine.RunSynchronizedProposals` is the loop that computes it. */
module Backtest {
  import opened Arithmetic
  import opened Policy

  const CANDLE_MILLIS: int := 900_000
  const DAY_MILLIS: int := 86_400_000
  const FUNDING_SCALE: int := 1_000_000_000_000
  const IOC_DEPTH: i64 := 0x7FFF_FFFF_FFFF_FFFF / 4

  const SYMBOLS: seq<Asset> := [BTC, ETH, SOL]

  datatype Candle = Candle(
    symbol: Asset,
    openTime: i64,
    closeTime: i64,
    open: i64,
    high: i64,
    low: i64,
    close: i64,
    volume: i64,
    fundingRate: i64,
    sizeDecimals: u8)

  datatype Execution = Execution(halfSpreadBps: u16, slippageBps: u16, takerFeeBps: u16)

  datatype Fill = Fill(
    symbol: Asset,
    side: Side,
    quantity: i64,
    price: i64,
    fee: i64,
    candleOpenTime: i64)

  datatype ScheduledProposal = ScheduledProposal(decisionOpenTime: i64, proposal: Proposal)

  datatype EquityPoint = EquityPoint(closeTime: i64, equity: i64)

  datatype Report = Report(
    endingCash: i64,
    endingEquity: i64,
    fees: i64,
    funding: i64,
    fills: seq<Fill>,
    equityCurve: seq<EquityPoint>,
    policyRejections: u32)

  datatype BacktestError = CandleOrder | ArithmeticOverflow | Rejected(reason: PolicyError)

  datatype Config = Config(rules: RiskRules, execution: Execution)

  type Positions = map<Asset, i64>

  datatype Ledger = Ledger(
    cash: i64,
    positions: Positions,
    fills: seq<Fill>,
    equityCurve: seq<EquityPoint>,
    fees: i64,
    funding: i64,
    rejections: u32,
    peakEquity: i64,
    day: int,
    dayStartEquity: i64,
    ordersToday: u16,
    scheduled: map<i64, Proposal>)

  function Checked(x: int): Result<i64, BacktestError> {
    ToI64(x, ArithmeticOverflow)
  }

  function PositionNotional(quantity: i64, price: i64): Result<i64, BacktestError> {
    Checked(TruncDiv(quantity * price, QUANTITY_SCALE))
  }

  function Held(positions: Positions, symbol: Asset): Result<i64, BacktestError> {
    if symbol in positions then Ok(positions[symbol]) else Err(CandleOrder)
  }

  /** Cash plus the positions marked at the closes of `candles`. */
  function PortfolioEquity(cash: i64, positions: Positions, candles: seq<Candle>)
    : Result<i64, BacktestError>
  {
    if candles == [] then Ok(cash)
    else
      var before :- PortfolioEquity(cash, positions, candles[..|candles| - 1]);
      var last := candles[|candles| - 1];
      var quantity :- Held(positions, last.symbol);
      var notional :- PositionNotional(quantity, last.close);
      Checked(before + notional)
  }

  // ---------------------------------------------------------------- one order

  /** The sum of two 16-bit settings wraps. */
  function ImpactBps(execution: Execution): u16 {
    (execution.halfSpreadBps + execution.slippageBps) % 0x1_0000
  }

  function FillPrice(execution: Execution, side: Side, next: Candle): Result<i64, BacktestError> {
    var direction := if side.Buy? then 1 else -1;
    Checked(TruncDiv(next.open * (BPS + direction * ImpactBps(execution)), BPS))
  }

  function SimulatedMarket(execution: Execution, decision: Candle): MarketState {
    MarketState(decision.symbol, decision.close, decision.close,
                Min(execution.halfSpreadBps * 2, U16_MAX), 0,
                IOC_DEPTH, IOC_DEPTH, decision.sizeDecimals, false)
  }

  function SimulatedContext(config: Config, decision: Candle, portfolio: PortfolioState)
    : PolicyContext
  {
    PolicyContext(config.rules, SimulatedMarket(config.execution, decision), portfolio,
                  portfolio.equity, None, config.rules.isolatedLeverage)
  }

  /** Fills a proposal at the next candle's open, if its limit crosses and policy approves. */
  function ExecuteNextOpen(config: Config, decision: Candle, next: Candle, proposal: Proposal,
                           portfolio: PortfolioState): Result<Option<Fill>, BacktestError>
  {
    if decision.symbol != next.symbol || decision.symbol != proposal.symbol
       || decision.closeTime >= next.closeTime || next.openTime < decision.closeTime then
      Err(CandleOrder)
    else
      var price :- FillPrice(config.execution, proposal.side, next);
      var crosses := if proposal.side.Buy? then proposal.limitPrice >= price
                     else proposal.limitPrice <= price;
      if !crosses then Ok(None)
      else
        match EvaluateProposal(proposal.(limitPrice := price),
                               SimulatedContext(config, decision, portfolio))
        case Err(e) => Err(Rejected(e))
        case Ok(order) =>
          var fee :- Checked(TruncDiv(order.actualNotional * config.execution.takerFeeBps, BPS));
          Ok(Some(Fill(proposal.symbol, proposal.side, order.quantity, price, fee, next.openTime)))
  }

  // ---------------------------------------------------------------- one interval

  function FundingPayment(quantity: i64, candle: Candle): Result<i64, BacktestError> {
    var notional :- PositionNotional(quantity, candle.close);
    Checked(TruncDiv(notional * candle.fundingRate, FUNDING_SCALE))
  }

  function ChargeFunding(ledger: Ledger, candle: Candle): Result<Ledger, BacktestError> {
    var quantity :- Held(ledger.positions, candle.symbol);
    var payment :- FundingPayment(quantity, candle);
    var cash :- Checked(ledger.cash - payment);
    var funding :- Checked(ledger.funding + payment);
    Ok(ledger.(cash := cash, funding := funding))
  }

  /** Debits the funding of the first `count` candles of the interval. */
  function PayFunding(ledger: Ledger, interval: seq<Candle>, count: nat)
    : Result<Ledger, BacktestError>
    requires count <= |interval|
  {
    if count == 0 then Ok(ledger)
    else
      var paid :- PayFunding(ledger, interval, count - 1);
      ChargeFunding(paid, interval[count - 1])
  }

  /** Funding, the day reset and the peak: everything before the interval's decision. */
  function OpenInterval(ledger: Ledger, interval: seq<Candle>): Result<(Ledger, i64), BacktestError>
    requires |interval| == 3
  {
    var paid :- PayFunding(ledger, interval, 3);
    var equity :- PortfolioEquity(paid.cash, paid.positions, interval);
    Ok((Roll(paid, DayOf(interval), equity), equity))
  }

  function DayOf(interval: seq<Candle>): int
    requires |interval| == 3
  {
    TruncDiv(interval[0].closeTime, DAY_MILLIS)
  }

  function Roll(ledger: Ledger, day: int, equity: i64): Ledger {
    var rolled := if day != ledger.day
                  then ledger.(day := day, dayStartEquity := equity, ordersToday := 0)
                  else ledger;
    rolled.(peakEquity := Max(rolled.peakEquity, equity))
  }

  function SymbolIndex(symbol: Asset): Option<nat> {
    match symbol
    case BTC => Some(0)
    case ETH => Some(1)
    case SOL => Some(2)
    case Unlisted(_) => None
  }

  function DecisionPortfolio(ledger: Ledger, equity: i64, position: i64): PortfolioState {
    PortfolioState(equity, ledger.cash, ledger.dayStartEquity, ledger.peakEquity, position,
                   ledger.ordersToday)
  }

  /** Books an executed fill. */
  function Book(ledger: Ledger, fill: Fill): Result<Ledger, BacktestError> {
    var notional :- PositionNotional(fill.quantity, fill.price);
    var held :- Held(ledger.positions, fill.symbol);
    if fill.side.Sell? && fill.quantity > held then Err(Rejected(ReduceOnlyViolation))
    else
      var direction := if fill.side.Buy? then 1 else -1;
      var moved :- Checked(ledger.cash - direction * notional);
      var cash :- Checked(moved - fill.fee);
      var position :- Checked(held + direction * fill.quantity);
      var fees :- Checked(ledger.fees + fill.fee);
      Ok(ledger.(cash := cash, positions := ledger.positions[fill.symbol := position], fees := fees,
                 ordersToday := Min(ledger.ordersToday + 1, U16_MAX),
                 fills := ledger.fills + [fill]))
  }

  /** Attempts the proposal; a policy refusal is only counted. */
  function Attempt(config: Config, ledger: Ledger, equity: i64, decision: Candle, next: Candle,
                   proposal: Proposal): Result<Ledger, BacktestError>
  {
    var quantity :- Held(ledger.positions, proposal.symbol);
    var position :- PositionNotional(quantity, decision.close);
    match ExecuteNextOpen(config, decision, next, proposal,
                          DecisionPortfolio(ledger, equity, position))
    case Ok(Some(fill)) => Book(ledger, fill)
    case Ok(None) => Ok(ledger)
    case Err(Rejected(_)) => Ok(ledger.(rejections := Min(ledger.rejections + 1, U32_MAX)))
    case Err(e) => Err(e)
  }

  function Decide(config: Config, begun: Ledger, equity: i64, interval: seq<Candle>,
                  next: Option<seq<Candle>>): Result<(Ledger, i64), BacktestError>
    requires |interval| == 3 && (next.Some? ==> |next.value| == 3)
  {
    var at := interval[0].openTime;
    if at !in begun.scheduled then Ok((begun, equity))
    else
      var proposal := begun.scheduled[at];
      var taken := begun.(scheduled := begun.scheduled - {at});
      if next.None? || SymbolIndex(proposal.symbol).None? then Err(CandleOrder)
      else
        var i := SymbolIndex(proposal.symbol).value;
        var traded :- Attempt(config, taken, equity, interval[i], next.value[i], proposal);
        var marked :- PortfolioEquity(traded.cash, traded.positions, interval);
        Ok((traded.(peakEquity := Max(traded.peakEquity, marked)), marked))
  }

  function Step(config: Config, ledger: Ledger, interval: seq<Candle>, next: Option<seq<Candle>>)
    : Result<Ledger, BacktestError>
    requires |interval| == 3 && (next.Some? ==> |next.value| == 3)
  {
    var begun :- OpenInterval(ledger, interval);
    var decided :- Decide(config, begun.0, begun.1, interval, next);
    Ok(decided.0.(equityCurve := decided.0.equityCurve
                                 + [EquityPoint(interval[0].closeTime, decided.1)]))
  }

  // ---------------------------------------------------------------- the whole run

  function IntervalCount(candles: seq<Candle>): nat {
    |candles| / 3
  }

  function Interval(candles: seq<Candle>, index: nat): (interval: seq<Candle>)
    requires index < IntervalCount(candles)
    ensures |interval| == 3
  {
    candles[3 * index..3 * index + 3]
  }

  function NextInterval(candles: seq<Candle>, index: nat): (next: Option<seq<Candle>>)
    requires index < IntervalCount(candles)
    ensures next.Some? ==> |next.value| == 3
  {
    if index + 1 < IntervalCount(candles) then Some(Interval(candles, index + 1)) else None
  }

  /** The ledger after the first `count` intervals. */
  function After(config: Config, candles: seq<Candle>, start: Ledger, count: nat)
    : Result<Ledger, BacktestError>
    requires count <= IntervalCount(candles)
  {
    if count == 0 then Ok(start)
    else
      var ledger :- After(config, candles, start, count - 1);
      Step(config, ledger, Interval(candles, count - 1), NextInterval(candles, count - 1))
  }

  predicate OnGrid(candles: seq<Candle>, index: nat, column: nat)
    requires index < IntervalCount(candles) && column < 3
  {
    var candle := candles[3 * index + column];
    && candle.symbol == SYMBOLS[column]
    && candle.openTime == candles[3 * index].openTime
    && candle.closeTime == candles[3 * index].openTime + CANDLE_MILLIS - 1
    && candle.sizeDecimals <= 8
    && (index > 0 ==> candle.openTime == candles[3 * (index - 1) + column].openTime + CANDLE_MILLIS)
  }

  predicate ValidGrid(candles: seq<Candle>) {
    forall index: nat, column: nat {:trigger OnGrid(candles, index, column)} ::
      index < IntervalCount(candles) && column < 3 ==> OnGrid(candles, index, column)
  }

  /** One proposal a decision time; `None` when two share one. */
  function Schedule(proposals: seq<ScheduledProposal>): Option<map<i64, Proposal>> {
    if proposals == [] then Some(map[])
    else
      var last := proposals[|proposals| - 1];
      match Schedule(proposals[..|proposals| - 1])
      case None => None
      case Some(before) =>
        if last.decisionOpenTime in before then None
        else Some(before[last.decisionOpenTime := last.proposal])
  }

  predicate ValidInput(candles: seq<Candle>, proposals: seq<ScheduledProposal>, cash: i64) {
    && cash > 0 && |candles| >= 6 && |candles| % 3 == 0
    && ValidGrid(candles)
    && Schedule(proposals).Some?
  }

  function Start(candles: seq<Candle>, proposals: seq<ScheduledProposal>, cash: i64): Ledger
    requires ValidInput(candles, proposals, cash)
  {
    Ledger(cash, map[BTC := 0, ETH := 0, SOL := 0], [], [], 0, 0, 0, cash,
           DayOf(Interval(candles, 0)), cash, 0, Schedule(proposals).value)
  }

  function Close(candles: seq<Candle>, ledger: Ledger): Result<Report, BacktestError>
    requires IntervalCount(candles) > 0
  {
    if ledger.scheduled != map[] then Err(CandleOrder)
    else
      var equity :- PortfolioEquity(ledger.cash, ledger.positions,
                                    Interval(candles, IntervalCount(candles) - 1));
      Ok(Report(ledger.cash, equity, ledger.fees, ledger.funding, ledger.fills,
                ledger.equityCurve, ledger.rejections))
  }

  function Simulate(config: Config, candles: seq<Candle>, proposals: seq<ScheduledProposal>,
                    cash: i64): Result<Report, BacktestError>
  {
    if !ValidInput(candles, proposals, cash) then Err(CandleOrder)
    else
      var ledger :- After(config, candles, Start(candles, proposals, cash), IntervalCount(candles));
      Close(candles, ledger)
  }
}
