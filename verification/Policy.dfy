/** The deterministic fixed-point order policy, with its branches in source order. */
module Policy {
  import opened Arithmetic

  const MIN_ORDER_MICRO_USDC: int := 10_000_000
  const QUANTITY_SCALE: int := 100_000_000
  const BPS: int := 10_000

  datatype Asset = BTC | ETH | SOL | Unlisted(name: string)

  datatype Side = Buy | Sell

  datatype Proposal = Proposal(
    symbol: Asset,
    side: Side,
    notionalBps: u16,
    limitPrice: i64,
    reduceOnly: bool)

  datatype MarketState = MarketState(
    symbol: Asset,
    markPrice: i64,
    oraclePrice: i64,
    spreadBps: u16,
    bookAgeSeconds: u16,
    askDepth: i64,
    bidDepth: i64,
    sizeDecimals: u8,
    delisted: bool)

  datatype PortfolioState = PortfolioState(
    equity: i64,
    availableCollateral: i64,
    dayStartEquity: i64,
    peakEquity: i64,
    symbolPosition: i64,
    ordersToday: u16)

  datatype RiskRules = RiskRules(
    cashReserveBps: u16,
    dailyLossBps: u16,
    drawdownBps: u16,
    maxOrderBps: u16,
    maxPositionBps: u16,
    maxSpreadBps: u16,
    maxOracleGapBps: u16,
    bookMaxAgeSeconds: u16,
    maxOrdersDay: u16,
    isolatedLeverage: u8,
    longOnly: bool,
    iocOnly: bool)

  const CEILING_RULES: RiskRules :=
    RiskRules(1_000, 200, 1_000, 200, 1_000, 40, 100, 10, 20, 1, false, true)

  predicate ValidateCeiling(rules: RiskRules) {
    && rules.cashReserveBps >= CEILING_RULES.cashReserveBps
    && rules.dailyLossBps <= CEILING_RULES.dailyLossBps
    && rules.drawdownBps <= CEILING_RULES.drawdownBps
    && rules.maxOrderBps <= CEILING_RULES.maxOrderBps
    && rules.maxPositionBps <= CEILING_RULES.maxPositionBps
    && rules.maxSpreadBps <= CEILING_RULES.maxSpreadBps
    && rules.bookMaxAgeSeconds <= CEILING_RULES.bookMaxAgeSeconds
    && rules.maxOrdersDay <= CEILING_RULES.maxOrdersDay
    && rules.isolatedLeverage == 1
    && rules.iocOnly
  }

  datatype PolicyContext = PolicyContext(
    rules: RiskRules,
    market: MarketState,
    portfolio: PortfolioState,
    startingCapital: i64,
    referencePrice: Option<i64>,
    isolatedLeverage: u8)
  {
    /** Wallet equity above the arena capital never increases sizing. */
    function Capital(): (capital: i64)
      ensures capital <= portfolio.equity && capital <= startingCapital
      ensures capital == portfolio.equity || capital == startingCapital
    {
      Min(portfolio.equity, startingCapital)
    }
  }

  datatype OrderDecision = OrderDecision(
    symbol: Asset,
    side: Side,
    quantity: i64,
    limitPrice: i64,
    actualNotional: i64,
    effectiveBps: u16,
    reduceOnly: bool)

  datatype PolicyError =
    | OutsideUniverse
    | InvalidMarket
    | DelistedMarket
    | StaleBook
    | WideSpread
    | ReduceOnlyViolation
    | DailyLoss
    | Drawdown
    | OrderLimit
    | OrderSize
    | PositionSize
    | CashReserve
    | BookDepth
    | PolicyOverflow

  predicate InUniverse(symbol: Asset) {
    symbol.BTC? || symbol.ETH? || symbol.SOL?
  }

  function BpsAmount(value: i64, bps: int): Result<i64, PolicyError> {
    ToI64(TruncDiv(value * bps, BPS), PolicyOverflow)
  }

  /** Loss measured against current equity, as the source divides. */
  function LossBps(high: i64, current: i64): Result<i64, PolicyError>
    requires current > 0
  {
    if high <= 0 || current >= high then Ok(0)
    else ToI64(Abs(high - current) * BPS / current, PolicyOverflow)
  }

  function CeilDiv(numerator: int, denominator: int): Result<int, PolicyError> {
    if numerator < 0 || denominator <= 0 || numerator + (denominator - 1) > I128_MAX
    then Err(PolicyOverflow)
    else Ok((numerator + (denominator - 1)) / denominator)
  }

  function RoundUp(value: i64, step: int): Result<i64, PolicyError> {
    var steps :- CeilDiv(value, step);
    ToI64(steps * step, PolicyOverflow)
  }

  predicate ReducesPosition(side: Side, position: i64) {
    match side
    case Buy => position < 0
    case Sell => position > 0
  }

  /** The checks made before any sizing; `None` lets the order through. */
  function Gate(proposal: Proposal, context: PolicyContext): Option<PolicyError> {
    var rules := context.rules;
    var market := context.market;
    var portfolio := context.portfolio;
    if !InUniverse(proposal.symbol) || proposal.symbol != market.symbol then
      Some(OutsideUniverse)
    else if market.markPrice <= 0 || market.oraclePrice <= 0 || proposal.limitPrice <= 0
            || (context.referencePrice.Some? && context.referencePrice.value <= 0)
            || market.sizeDecimals > 8 || portfolio.equity <= 0 || context.Capital() <= 0 then
      Some(InvalidMarket)
    else if market.delisted then Some(DelistedMarket)
    else if market.bookAgeSeconds > rules.bookMaxAgeSeconds then Some(StaleBook)
    else if market.spreadBps > rules.maxSpreadBps then Some(WideSpread)
    else if proposal.reduceOnly && !ReducesPosition(proposal.side, portfolio.symbolPosition) then
      Some(ReduceOnlyViolation)
    else
      match LossBps(portfolio.dayStartEquity, portfolio.equity)
      case Err(e) => Some(e)
      case Ok(daily) =>
        if daily >= rules.dailyLossBps then Some(DailyLoss)
        else
          match LossBps(portfolio.peakEquity, portfolio.equity)
          case Err(e) => Some(e)
          case Ok(drawdown) =>
            if drawdown >= rules.drawdownBps then Some(Drawdown)
            else if portfolio.ordersToday >= rules.maxOrdersDay then Some(OrderLimit)
            else None
  }

  function ReferencePrice(proposal: Proposal, context: PolicyContext): i64 {
    if context.referencePrice.Some? then context.referencePrice.value else proposal.limitPrice
  }

  function LotStep(sizeDecimals: u8): int
    requires sizeDecimals <= 8
  {
    Pow10(8 - sizeDecimals)
  }

  /** Quantity and its notional at the limit price. */
  function SizeOrder(proposal: Proposal, context: PolicyContext): Result<(i64, i64), PolicyError>
    requires Gate(proposal, context).None?
  {
    var requested :- BpsAmount(context.Capital(), proposal.notionalBps);
    var normalized := Max(requested, MIN_ORDER_MICRO_USDC);
    var raw :- CeilDiv(normalized * QUANTITY_SCALE, ReferencePrice(proposal, context));
    var rawQuantity :- ToI64(raw, PolicyOverflow);
    var quantity :- RoundUp(rawQuantity, LotStep(context.market.sizeDecimals));
    var notional :- ToI64(TruncDiv(quantity * proposal.limitPrice, QUANTITY_SCALE), PolicyOverflow);
    Ok((quantity, notional))
  }

  function ProjectedPosition(side: Side, position: i64, notional: i64): int {
    match side
    case Buy => position + notional
    case Sell => position - notional
  }

  function AvailableDepth(side: Side, market: MarketState): i64 {
    match side
    case Buy => market.askDepth
    case Sell => market.bidDepth
  }

  /** The limits on a sized order, in source order. */
  function Limit(proposal: Proposal, context: PolicyContext, notional: i64): Option<PolicyError> {
    var rules := context.rules;
    var portfolio := context.portfolio;
    var capital := context.Capital();
    match BpsAmount(capital, rules.maxOrderBps)
    case Err(e) => Some(e)
    case Ok(maxOrder) =>
      if notional > maxOrder then Some(OrderSize)
      else
        match LimitPosition(proposal, context, notional)
        case Some(e) => Some(e)
        case None =>
          if proposal.reduceOnly && notional < 0 then Some(PolicyOverflow)
          else if proposal.reduceOnly && notional > Abs(portfolio.symbolPosition) then
            Some(ReduceOnlyViolation)
          else if context.isolatedLeverage == 0 then Some(InvalidMarket)
          else
            match LimitCollateral(proposal, context, notional)
            case Some(e) => Some(e)
            case None =>
              if notional > AvailableDepth(proposal.side, context.market) then Some(BookDepth)
              else None
  }

  function LimitPosition(proposal: Proposal, context: PolicyContext, notional: i64)
    : Option<PolicyError>
  {
    if proposal.reduceOnly then None
    else
      var projected := ProjectedPosition(proposal.side, context.portfolio.symbolPosition, notional);
      if !FitsI64(projected) then Some(PolicyOverflow)
      else
        match BpsAmount(context.Capital(), context.rules.maxPositionBps)
        case Err(e) => Some(e)
        case Ok(maxPosition) =>
          if maxPosition < 0 then Some(PolicyOverflow)
          else if Abs(projected) > maxPosition then Some(PositionSize)
          else None
  }

  function LimitCollateral(proposal: Proposal, context: PolicyContext, notional: i64)
    : Option<PolicyError>
  {
    match BpsAmount(context.Capital(), context.rules.cashReserveBps)
    case Err(e) => Some(e)
    case Ok(reserve) =>
      match CeilDiv(notional, context.isolatedLeverage)
      case Err(e) => Some(e)
      case Ok(margin) =>
        if proposal.reduceOnly then None
        else if !FitsI64(margin) then Some(PolicyOverflow)
        else if !FitsI64(context.portfolio.availableCollateral - margin) then Some(PolicyOverflow)
        else if context.portfolio.availableCollateral - margin < reserve then Some(CashReserve)
        else None
  }

  function EvaluateProposal(proposal: Proposal, context: PolicyContext)
    : Result<OrderDecision, PolicyError>
  {
    match Gate(proposal, context)
    case Some(e) => Err(e)
    case None =>
      var sized :- SizeOrder(proposal, context);
      var (quantity, notional) := sized;
      match Limit(proposal, context, notional)
      case Some(e) => Err(e)
      case None =>
        var effective :- CeilDiv(notional * BPS, context.Capital());
        if effective > U16_MAX then Err(PolicyOverflow)
        else Ok(OrderDecision(proposal.symbol, proposal.side, quantity, proposal.limitPrice,
                              notional, effective, proposal.reduceOnly))
  }
}
