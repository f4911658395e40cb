/** What every successful backtest keeps: conservation, long-only positions, daily and drawdown
    limits, and no look-ahead. */
module BacktestTheorems {
  import opened Arithmetic
  import opened Policy
  import opened Backtest
  import PolicyTheorems

  // ---------------------------------------------------------------- what a list of fills implies

  function Notional(fill: Fill): int {
    TruncDiv(fill.quantity * fill.price, QUANTITY_SCALE)
  }

  function Direction(side: Side): int {
    if side.Buy? then 1 else -1
  }

  /** Signed sum of the fills of one symbol. */
  function NetQuantity(fills: seq<Fill>, symbol: Asset): int {
    if fills == [] then 0
    else
      var last := fills[|fills| - 1];
      NetQuantity(fills[..|fills| - 1], symbol)
      + (if last.symbol == symbol then Direction(last.side) * last.quantity else 0)
  }

  /** Notional bought minus notional sold. */
  function NetSpend(fills: seq<Fill>): int {
    if fills == [] then 0
    else
      var last := fills[|fills| - 1];
      NetSpend(fills[..|fills| - 1]) + Direction(last.side) * Notional(last)
  }

  function TotalFees(fills: seq<Fill>): int {
    if fills == [] then 0 else TotalFees(fills[..|fills| - 1]) + fills[|fills| - 1].fee
  }

  /** No prefix of the fills ever leaves a symbol short. */
  ghost predicate LongOnly(fills: seq<Fill>) {
    forall n, symbol :: 0 <= n <= |fills| && InUniverse(symbol)
      ==> NetQuantity(fills[..n], symbol) >= 0
  }

  function Payment(quantity: int, candle: Candle): int {
    TruncDiv(TruncDiv(quantity * candle.close, QUANTITY_SCALE) * candle.fundingRate, FUNDING_SCALE)
  }

  /** Funding owed over the interval on the quantities the fills so far add up to. */
  function FundingDue(fills: seq<Fill>, interval: seq<Candle>): int {
    if interval == [] then 0
    else
      var last := interval[|interval| - 1];
      FundingDue(fills, interval[..|interval| - 1])
      + Payment(NetQuantity(fills, last.symbol), last)
  }

  function MarkedValue(fills: seq<Fill>, interval: seq<Candle>): int {
    if interval == [] then 0
    else
      var last := interval[|interval| - 1];
      MarkedValue(fills, interval[..|interval| - 1])
      + TruncDiv(NetQuantity(fills, last.symbol) * last.close, QUANTITY_SCALE)
  }

  predicate Listed(interval: seq<Candle>) {
    forall i :: 0 <= i < |interval| ==> InUniverse(interval[i].symbol)
  }

  ghost predicate Books(ledger: Ledger, startingCash: int) {
    && ledger.positions.Keys == {BTC, ETH, SOL}
    && ledger.cash == startingCash - NetSpend(ledger.fills) - ledger.fees - ledger.funding
    && ledger.fees == TotalFees(ledger.fills)
    && (forall symbol :: InUniverse(symbol) ==>
          ledger.positions[symbol] == NetQuantity(ledger.fills, symbol))
    && LongOnly(ledger.fills)
  }

  // ---------------------------------------------------------------- one fill

  /** The order the policy approved behind a fill. */
  function ApprovedOrder(config: Config, decision: Candle, proposal: Proposal, price: i64,
                         portfolio: PortfolioState): Result<OrderDecision, PolicyError>
  {
    EvaluateProposal(proposal.(limitPrice := price), SimulatedContext(config, decision, portfolio))
  }

  /** The next open moved against the order by the half spread and the slippage, whose 16-bit sum
      wraps: up for a purchase, down for a sale. */
  function Quote(execution: Execution, side: Side, open: int): int {
    var impact := (execution.halfSpreadBps + execution.slippageBps) % 0x1_0000;
    match side
    case Buy => TruncDiv(open * (10_000 + impact), 10_000)
    case Sell => TruncDiv(open * (10_000 - impact), 10_000)
  }

  /** Dearer than the proposal would buy, or cheaper than it would sell. */
  predicate BeyondLimit(proposal: Proposal, price: int) {
    match proposal.side
    case Buy => price > proposal.limitPrice
    case Sell => price < proposal.limitPrice
  }

  /** The two candles are a decision and the next one of the proposal's asset. */
  predicate Consecutive(decision: Candle, next: Candle, proposal: Proposal) {
    && decision.symbol == next.symbol == proposal.symbol
    && decision.closeTime < next.closeTime && decision.closeTime <= next.openTime
  }

  /** Nothing is done, and the policy not asked, exactly when the price is beyond the limit. */
  lemma PassedIff(config: Config, decision: Candle, next: Candle, proposal: Proposal,
                  portfolio: PortfolioState)
    ensures var price := Quote(config.execution, proposal.side, next.open);
            ExecuteNextOpen(config, decision, next, proposal, portfolio) == Ok(None)
            <==> Consecutive(decision, next, proposal) && FitsI64(price) && BeyondLimit(proposal, price)
  {
    hide EvaluateProposal;
  }

  /** The policy refuses exactly a proposal whose price is within its limit and for which no order is
      admissible at that price. */
  lemma RefusedIff(config: Config, decision: Candle, next: Candle, proposal: Proposal,
                   portfolio: PortfolioState)
    ensures var price := Quote(config.execution, proposal.side, next.open);
            var outcome := ExecuteNextOpen(config, decision, next, proposal, portfolio);
            (outcome.Err? && outcome.error.Rejected?)
            <==> && Consecutive(decision, next, proposal)
                 && FitsI64(price) && !BeyondLimit(proposal, price)
                 && forall order: OrderDecision ::
                      !PolicyTheorems.Admissible(proposal.(limitPrice := price),
                                                 SimulatedContext(config, decision, portfolio), order)
  {
    hide EvaluateProposal, PolicyTheorems.Admissible, SimulatedContext;
    var price := Quote(config.execution, proposal.side, next.open);
    if FitsI64(price) {
      var executable := proposal.(limitPrice := price);
      var context := SimulatedContext(config, decision, portfolio);
      forall order: OrderDecision
        ensures EvaluateProposal(executable, context) == Ok(order)
                <==> PolicyTheorems.Admissible(executable, context, order)
      {
        PolicyTheorems.ApprovalIff(executable, context, order);
      }
    }
  }

  /** A fill carries exactly the approved quantity, price and notional; its price is the quote at the
      next open, within the proposal's limit, and its fee is the taker rate on the notional. */
  lemma FillIsTheApprovedOrder(config: Config, decision: Candle, next: Candle, proposal: Proposal,
                               portfolio: PortfolioState, fill: Fill)
    requires ExecuteNextOpen(config, decision, next, proposal, portfolio) == Ok(Some(fill))
    ensures var order := ApprovedOrder(config, decision, proposal, fill.price, portfolio);
            && order.Ok?
            && fill.symbol == proposal.symbol == order.value.symbol == decision.symbol
            && fill.side == proposal.side == order.value.side
            && fill.quantity == order.value.quantity > 0
            && fill.price == order.value.limitPrice > 0
            && Notional(fill) == order.value.actualNotional >= 0
            && fill.fee == TruncDiv(order.value.actualNotional * config.execution.takerFeeBps, BPS)
    ensures InUniverse(fill.symbol) && fill.candleOpenTime == next.openTime
    ensures fill.price == Quote(config.execution, proposal.side, next.open)
    ensures !BeyondLimit(proposal, fill.price)
    ensures portfolio.ordersToday < config.rules.maxOrdersDay
  {
    var context := SimulatedContext(config, decision, portfolio);
    var executable := proposal.(limitPrice := fill.price);
    var order := EvaluateProposal(executable, context).value;
    PolicyTheorems.ApprovalIff(executable, context, order);
    PolicyTheorems.SizedIsPositive(executable, context, order.quantity, order.actualNotional);
    PolicyTheorems.FloorNotionalIff(order.quantity, fill.price, order.actualNotional);
  }

  /** The fill is the order the policy approved on what its decision saw: the ledger, the equity and
      the decision candle, at the price of the next open; its notional is the approved one and its fee
      the taker rate on that. */
  predicate IsApproved(config: Config, ledger: Ledger, equity: i64, decision: Candle, next: Candle,
                       proposal: Proposal, fill: Fill)
  {
    && proposal.symbol in ledger.positions
    && var position := PositionNotional(ledger.positions[proposal.symbol], decision.close);
       && position.Ok?
       && var order := ApprovedOrder(config, decision, proposal, fill.price,
                                     DecisionPortfolio(ledger, equity, position.value));
          && order.Ok?
          && fill.price == Quote(config.execution, proposal.side, next.open)
          && !BeyondLimit(proposal, fill.price)
          && fill.symbol == order.value.symbol && fill.side == order.value.side
          && fill.quantity == order.value.quantity && fill.price == order.value.limitPrice
          && Notional(fill) == order.value.actualNotional
          && fill.fee == TruncDiv(order.value.actualNotional * config.execution.takerFeeBps, BPS)
          && fill.candleOpenTime == next.openTime
  }

  /** What the risk rules guarantee at the moment a fill is decided: drawdown on the equity seen by
      the decision, and, at leverage one, the cash left by a purchase. */
  predicate RiskRespected(config: Config, equity: int, peak: int, fill: Fill, cashAfter: int) {
    && 0 < equity <= peak
    && peak * BPS < equity * (BPS + config.rules.drawdownBps)
    && equity * BPS > peak * (BPS - config.rules.drawdownBps)
    && (fill.side.Buy? && config.rules.isolatedLeverage == 1 ==>
          cashAfter >= equity * config.rules.cashReserveBps / BPS - fill.fee)
  }

  lemma DrawdownBounds(equity: int, peak: int, bps: u16)
    requires 0 < equity <= peak
    requires PolicyTheorems.LossBelow(peak, equity, bps)
    ensures peak * BPS < equity * (BPS + bps)
    ensures equity * BPS > peak * (BPS - bps)
  {
    var loss := peak - equity;
    assert loss * BPS < bps * equity;
    assert equity * (BPS + bps) == equity * BPS + bps * equity;
    MulMono(equity, peak, bps);
    assert peak * (BPS - bps) == peak * BPS - bps * peak;
  }

  /** A reduce-only purchase needs a short position, which a long-only ledger never has. */
  lemma {:induction false} FillRespectsRisk(config: Config, decision: Candle, next: Candle,
                                            proposal: Proposal, ledger: Ledger, equity: i64,
                                            position: i64, fill: Fill)
    requires ExecuteNextOpen(config, decision, next, proposal,
                             DecisionPortfolio(ledger, equity, position)) == Ok(Some(fill))
    requires equity <= ledger.peakEquity
    requires decision.close > 0 ==> position >= 0
    ensures RiskRespected(config, equity, ledger.peakEquity, fill,
                          ledger.cash - Direction(fill.side) * Notional(fill) - fill.fee)
  {
    var portfolio := DecisionPortfolio(ledger, equity, position);
    FillIsTheApprovedOrder(config, decision, next, proposal, portfolio, fill);
    var context := SimulatedContext(config, decision, portfolio);
    var executable := proposal.(limitPrice := fill.price);
    var order := EvaluateProposal(executable, context).value;
    PolicyTheorems.ApprovalIff(executable, context, order);
    DrawdownBounds(equity, ledger.peakEquity, config.rules.drawdownBps);
  }

  // ---------------------------------------------------------------- one interval

  lemma FillsExtend(fills: seq<Fill>, fill: Fill)
    ensures forall symbol :: NetQuantity(fills + [fill], symbol) == NetQuantity(fills, symbol)
              + (if fill.symbol == symbol then Direction(fill.side) * fill.quantity else 0)
    ensures NetSpend(fills + [fill]) == NetSpend(fills) + Direction(fill.side) * Notional(fill)
    ensures TotalFees(fills + [fill]) == TotalFees(fills) + fill.fee
    ensures LongOnly(fills)
            && (InUniverse(fill.symbol) ==> NetQuantity(fills + [fill], fill.symbol) >= 0)
            ==> LongOnly(fills + [fill])
  {
    var longer := fills + [fill];
    assert longer[..|longer| - 1] == fills;
    if LongOnly(fills) && (InUniverse(fill.symbol) ==> NetQuantity(longer, fill.symbol) >= 0) {
      forall n, symbol | 0 <= n <= |longer| && InUniverse(symbol)
        ensures NetQuantity(longer[..n], symbol) >= 0
      {
        if n <= |fills| {
          assert longer[..n] == fills[..n];
        } else {
          assert longer[..n] == longer;
          assert fills[..|fills|] == fills;
        }
      }
    }
  }

  lemma ChargeKeepsBooks(ledger: Ledger, candle: Candle, startingCash: int)
    requires Books(ledger, startingCash) && InUniverse(candle.symbol)
    requires ChargeFunding(ledger, candle).Ok?
    ensures var paid := ChargeFunding(ledger, candle).value;
            && paid == ledger.(cash := paid.cash, funding := paid.funding)
            && paid.funding == ledger.funding
                               + Payment(NetQuantity(ledger.fills, candle.symbol), candle)
            && Books(paid, startingCash)
  {
    assert ledger.positions[candle.symbol] == NetQuantity(ledger.fills, candle.symbol);
  }

  lemma {:induction false} FundingKeepsBooks(ledger: Ledger, interval: seq<Candle>, count: nat,
                                             startingCash: int)
    requires count <= |interval| && Listed(interval)
    requires Books(ledger, startingCash) && PayFunding(ledger, interval, count).Ok?
    ensures var paid := PayFunding(ledger, interval, count).value;
            && paid == ledger.(cash := paid.cash, funding := paid.funding)
            && paid.funding == ledger.funding + FundingDue(ledger.fills, interval[..count])
            && Books(paid, startingCash)
  {
    hide ChargeFunding, Books, Payment;
    if count == 0 {
      assert interval[..0] == [];
    } else {
      FundingKeepsBooks(ledger, interval, count - 1, startingCash);
      assert interval[..count][..count - 1] == interval[..count - 1];
      ChargeKeepsBooks(PayFunding(ledger, interval, count - 1).value, interval[count - 1],
                       startingCash);
    }
  }

  lemma {:induction false} EquityIsCashPlusMarks(ledger: Ledger, interval: seq<Candle>, startingCash: int)
    requires Listed(interval) && Books(ledger, startingCash)
    requires PortfolioEquity(ledger.cash, ledger.positions, interval).Ok?
    ensures PortfolioEquity(ledger.cash, ledger.positions, interval).value
            == ledger.cash + MarkedValue(ledger.fills, interval)
  {
    if interval == [] {
    } else {
      EquityIsCashPlusMarks(ledger, interval[..|interval| - 1], startingCash);
      var last := interval[|interval| - 1];
      assert ledger.positions[last.symbol] == NetQuantity(ledger.fills, last.symbol);
    }
  }

  lemma HoldingsAreLong(ledger: Ledger, symbol: Asset, startingCash: int)
    requires Books(ledger, startingCash) && symbol in ledger.positions
    ensures InUniverse(symbol)
    ensures ledger.positions[symbol] == NetQuantity(ledger.fills, symbol) >= 0
  {
    assert symbol in ledger.positions.Keys;
    var n := |ledger.fills|;
    assert InUniverse(symbol);
    assert NetQuantity(ledger.fills[..n], symbol) >= 0;
    assert ledger.fills[..n] == ledger.fills;
  }

  lemma BookingKeepsBooks(ledger: Ledger, fill: Fill, startingCash: int)
    requires Books(ledger, startingCash) && InUniverse(fill.symbol) && fill.quantity > 0
    requires Book(ledger, fill).Ok?
    ensures var booked := Book(ledger, fill).value;
            && Books(booked, startingCash)
            && booked.fills == ledger.fills + [fill]
            && booked.cash == ledger.cash - Direction(fill.side) * Notional(fill) - fill.fee
            && booked.ordersToday == Min(ledger.ordersToday + 1, U16_MAX)
            && booked == ledger.(cash := booked.cash, positions := booked.positions,
                                 fees := booked.fees, fills := booked.fills,
                                 ordersToday := booked.ordersToday)
  {
    FillsExtend(ledger.fills, fill);
    var booked := Book(ledger, fill).value;
    var held := ledger.positions[fill.symbol];
    HoldingsAreLong(ledger, fill.symbol, startingCash);
    assert booked.positions.Keys == {BTC, ETH, SOL};
  }

  /** How one attempt may change the ledger. */
  ghost predicate Attempted(config: Config, ledger: Ledger, equity: i64, decision: Candle,
                            next: Candle, proposal: Proposal, after: Ledger)
  {
    || after == ledger.(rejections := after.rejections)
    || (&& |after.fills| == |ledger.fills| + 1
        && after.fills[..|ledger.fills|] == ledger.fills
        && ledger.ordersToday < config.rules.maxOrdersDay
        && after == ledger.(cash := after.cash, positions := after.positions, fees := after.fees,
                            fills := after.fills, ordersToday := ledger.ordersToday + 1)
        && RiskRespected(config, equity, ledger.peakEquity, after.fills[|ledger.fills|],
                         after.cash)
        && IsApproved(config, ledger, equity, decision, next, proposal,
                      after.fills[|ledger.fills|]))
  }

  lemma AttemptKeepsBooks(config: Config, ledger: Ledger, equity: i64, decision: Candle, next: Candle,
                          proposal: Proposal, startingCash: int)
    requires Books(ledger, startingCash) && equity <= ledger.peakEquity
    requires Attempt(config, ledger, equity, decision, next, proposal).Ok?
    ensures var after := Attempt(config, ledger, equity, decision, next, proposal).value;
            Books(after, startingCash)
            && Attempted(config, ledger, equity, decision, next, proposal, after)
  {
    hide ExecuteNextOpen, Book, RiskRespected, EvaluateProposal;
    var quantity := ledger.positions[proposal.symbol];
    HoldingsAreLong(ledger, proposal.symbol, startingCash);
    var position := PositionNotional(quantity, decision.close).value;
    var portfolio := DecisionPortfolio(ledger, equity, position);
    var outcome := ExecuteNextOpen(config, decision, next, proposal, portfolio);
    if outcome.Ok? && outcome.value.Some? {
      var fill := outcome.value.value;
      FillIsTheApprovedOrder(config, decision, next, proposal, portfolio, fill);
      if decision.close > 0 {
        MulMono(0, quantity, decision.close);
      }
      FillRespectsRisk(config, decision, next, proposal, ledger, equity, position, fill);
      BookingKeepsBooks(ledger, fill, startingCash);
    }
  }

  /** How one interval may change the ledger: at most one fill, the order the policy approved for the
      scheduled proposal, decided within the day's order budget and the risk rules on the equity and
      peak the decision saw. */
  ghost predicate Stepped(config: Config, ledger: Ledger, interval: seq<Candle>,
                          next: Option<seq<Candle>>, after: Ledger)
    requires |interval| == 3 && (next.Some? ==> |next.value| == 3)
  {
    && OpenInterval(ledger, interval).Ok?
    && var (begun, equity) := OpenInterval(ledger, interval).value;
    && begun.fills == ledger.fills && begun.day == DayOf(interval) == after.day
    && begun.ordersToday == (if ledger.day == DayOf(interval) then ledger.ordersToday else 0)
    && after.funding == ledger.funding + FundingDue(ledger.fills, interval)
    && |after.equityCurve| == |ledger.equityCurve| + 1
    && after.equityCurve[..|ledger.equityCurve|] == ledger.equityCurve
    && (|| (after.fills == ledger.fills && after.ordersToday == begun.ordersToday)
        || (&& |after.fills| == |ledger.fills| + 1
            && after.fills[..|ledger.fills|] == ledger.fills
            && after.ordersToday == begun.ordersToday + 1 <= config.rules.maxOrdersDay
            && RiskRespected(config, equity, begun.peakEquity, after.fills[|ledger.fills|],
                             after.cash)
            && interval[0].openTime in begun.scheduled && next.Some?
            && var proposal := begun.scheduled[interval[0].openTime];
               && SymbolIndex(proposal.symbol).Some?
               && var i := SymbolIndex(proposal.symbol).value;
                  IsApproved(config, begun, equity, interval[i], next.value[i], proposal,
                             after.fills[|ledger.fills|])))
  }

  lemma OpeningKeepsBooks(ledger: Ledger, interval: seq<Candle>, startingCash: int)
    requires |interval| == 3 && Listed(interval) && Books(ledger, startingCash)
    requires OpenInterval(ledger, interval).Ok?
    ensures var (begun, equity) := OpenInterval(ledger, interval).value;
            && Books(begun, startingCash) && equity <= begun.peakEquity
            && begun.fills == ledger.fills && begun.equityCurve == ledger.equityCurve
            && begun.day == DayOf(interval)
            && begun.ordersToday == (if ledger.day == DayOf(interval) then ledger.ordersToday else 0)
            && begun.funding == ledger.funding + FundingDue(ledger.fills, interval)
  {
    hide PayFunding, PortfolioEquity, Listed, FundingDue;
    FundingKeepsBooks(ledger, interval, 3, startingCash);
    assert interval[..3] == interval;
    assert Books(PayFunding(ledger, interval, 3).value, startingCash);
  }

  /** What is left of the schedule has no part in an approval. */
  lemma ApprovedWhateverIsScheduled(config: Config, ledger: Ledger, other: Ledger, equity: i64,
                                    decision: Candle, next: Candle, proposal: Proposal, fill: Fill)
    requires IsApproved(config, ledger, equity, decision, next, proposal, fill)
    requires other == ledger.(scheduled := other.scheduled)
    ensures IsApproved(config, other, equity, decision, next, proposal, fill)
  {
  }

  lemma StepKeepsBooks(config: Config, ledger: Ledger, interval: seq<Candle>, next: Option<seq<Candle>>,
                       startingCash: int)
    requires |interval| == 3 && (next.Some? ==> |next.value| == 3) && Listed(interval)
    requires Books(ledger, startingCash)
    requires Step(config, ledger, interval, next).Ok?
    ensures var after := Step(config, ledger, interval, next).value;
            Books(after, startingCash) && Stepped(config, ledger, interval, next, after)
  {
    hide OpenInterval, Attempt, PortfolioEquity, RiskRespected, Listed, FundingDue, IsApproved;
    OpeningKeepsBooks(ledger, interval, startingCash);
    var (begun, equity) := OpenInterval(ledger, interval).value;
    var at := interval[0].openTime;
    if at in begun.scheduled {
      var proposal := begun.scheduled[at];
      var taken := begun.(scheduled := begun.scheduled - {at});
      assert Books(taken, startingCash);
      var i := SymbolIndex(proposal.symbol).value;
      AttemptKeepsBooks(config, taken, equity, interval[i], next.value[i], proposal, startingCash);
      var after := Attempt(config, taken, equity, interval[i], next.value[i], proposal).value;
      if |after.fills| > |begun.fills| {
        ApprovedWhateverIsScheduled(config, taken, begun, equity, interval[i], next.value[i], proposal,
                                    after.fills[|begun.fills|]);
      }
    }
  }

  // ---------------------------------------------------------------- every run

  lemma GridIsListed(candles: seq<Candle>, index: nat)
    requires ValidGrid(candles) && index < IntervalCount(candles)
    ensures Listed(Interval(candles, index))
  {
    assert OnGrid(candles, index, 0) && OnGrid(candles, index, 1) && OnGrid(candles, index, 2);
  }

  /** The invariant of every prefix of every run, and its last step. */
  lemma {:induction false} RunKeepsBooks(config: Config, candles: seq<Candle>, start: Ledger, count: nat)
    requires ValidGrid(candles) && count <= IntervalCount(candles)
    requires Books(start, start.cash)
    requires After(config, candles, start, count).Ok?
    ensures Books(After(config, candles, start, count).value, start.cash)
    ensures count > 0 ==>
              && After(config, candles, start, count - 1).Ok?
              && Books(After(config, candles, start, count - 1).value, start.cash)
              && Stepped(config, After(config, candles, start, count - 1).value,
                         Interval(candles, count - 1), NextInterval(candles, count - 1),
                         After(config, candles, start, count).value)
  {
    hide Step, Stepped, Books, Listed, ValidGrid;
    if count == 0 {
    } else {
      RunKeepsBooks(config, candles, start, count - 1);
      GridIsListed(candles, count - 1);
      StepKeepsBooks(config, After(config, candles, start, count - 1).value,
                     Interval(candles, count - 1), NextInterval(candles, count - 1), start.cash);
    }
  }

  lemma StartKeepsBooks(candles: seq<Candle>, proposals: seq<ScheduledProposal>, cash: i64)
    requires ValidInput(candles, proposals, cash)
    ensures Books(Start(candles, proposals, cash), cash)
  {
    var start := Start(candles, proposals, cash);
    assert start.fills == [];
  }

  /** Funding owed over the first `count` intervals, each on the quantities then held. */
  function FundingOwed(config: Config, candles: seq<Candle>, start: Ledger, count: nat): int
    requires count <= IntervalCount(candles)
    requires After(config, candles, start, count).Ok?
  {
    hide Step;
    if count == 0 then 0
    else
      FundingOwed(config, candles, start, count - 1)
      + FundingDue(After(config, candles, start, count - 1).value.fills,
                   Interval(candles, count - 1))
  }

  lemma {:induction false} FundingAddsUp(config: Config, candles: seq<Candle>, start: Ledger, count: nat)
    requires ValidGrid(candles) && count <= IntervalCount(candles)
    requires Books(start, start.cash)
    requires After(config, candles, start, count).Ok?
    ensures After(config, candles, start, count).value.funding
            == start.funding + FundingOwed(config, candles, start, count)
  {
    hide Step, Books, ValidGrid, OpenInterval, FundingDue, RiskRespected, IsApproved;
    if count == 0 {
    } else {
      RunKeepsBooks(config, candles, start, count);
      FundingAddsUp(config, candles, start, count - 1);
    }
  }

  /** Conservation of money and quantity over every successful run. */
  lemma {:induction false} Conservation(config: Config, candles: seq<Candle>,
                                        proposals: seq<ScheduledProposal>, cash: i64, report: Report)
    requires Simulate(config, candles, proposals, cash) == Ok(report)
    ensures report.endingCash == cash - NetSpend(report.fills) - report.fees - report.funding
    ensures report.fees == TotalFees(report.fills)
    ensures LongOnly(report.fills)
    ensures ValidInput(candles, proposals, cash)
    ensures var n := IntervalCount(candles);
            var start := Start(candles, proposals, cash);
            && After(config, candles, start, n).Ok?
            && report.funding == FundingOwed(config, candles, start, n)
            && report.endingEquity
               == report.endingCash + MarkedValue(report.fills, Interval(candles, n - 1))
  {
    hide Step, Stepped, PortfolioEquity, FundingDue, MarkedValue, Listed;
    var n := IntervalCount(candles);
    var start := Start(candles, proposals, cash);
    StartKeepsBooks(candles, proposals, cash);
    RunKeepsBooks(config, candles, start, n);
    FundingAddsUp(config, candles, start, n);
    GridIsListed(candles, n - 1);
    EquityIsCashPlusMarks(After(config, candles, start, n).value, Interval(candles, n - 1), cash);
  }

  // ---------------------------------------------------------------- risk limits of a whole run

  lemma {:induction false} PrefixSucceeds(config: Config, candles: seq<Candle>, start: Ledger,
                                          count: nat, total: nat)
    requires count <= total <= IntervalCount(candles)
    requires After(config, candles, start, total).Ok?
    ensures After(config, candles, start, count).Ok?
    decreases total - count
  {
    hide Step;
    if count < total {
      PrefixSucceeds(config, candles, start, count, total - 1);
    }
  }

  /** Fills decided in the first `count` intervals whose trading day is `day`. */
  function FillsDecidedOn(config: Config, candles: seq<Candle>, start: Ledger, count: nat,
                          day: int): int
    requires count <= IntervalCount(candles)
    requires After(config, candles, start, count).Ok?
  {
    hide Step;
    if count == 0 then 0
    else
      FillsDecidedOn(config, candles, start, count - 1, day)
      + (if DayOf(Interval(candles, count - 1)) == day
         then |After(config, candles, start, count).value.fills|
              - |After(config, candles, start, count - 1).value.fills|
         else 0)
  }

  lemma DaysNeverGoBack(candles: seq<Candle>, index: nat)
    requires ValidGrid(candles) && 0 < index < IntervalCount(candles)
    ensures DayOf(Interval(candles, index - 1)) <= DayOf(Interval(candles, index))
  {
    assert OnGrid(candles, index - 1, 0) && OnGrid(candles, index, 0);
    var before, now := candles[3 * (index - 1)].closeTime, candles[3 * index].closeTime;
    TruncDivMono(before, now, DAY_MILLIS);
  }

  lemma {:induction false} DayCounts(config: Config, candles: seq<Candle>, start: Ledger, count: nat,
                                     day: int)
    requires ValidGrid(candles) && 0 < IntervalCount(candles) && count <= IntervalCount(candles)
    requires Books(start, start.cash) && start.ordersToday == 0
    requires start.day == DayOf(Interval(candles, 0))
    requires After(config, candles, start, count).Ok?
    ensures var ledger := After(config, candles, start, count).value;
            && ledger.day == DayOf(Interval(candles, if count == 0 then 0 else count - 1))
            && (day == ledger.day ==>
                  FillsDecidedOn(config, candles, start, count, day) == ledger.ordersToday)
            && (day > ledger.day ==> FillsDecidedOn(config, candles, start, count, day) == 0)
            && FillsDecidedOn(config, candles, start, count, day) <= config.rules.maxOrdersDay
  {
    hide Step, Books, ValidGrid, OpenInterval, FundingDue, RiskRespected, IsApproved;
    if count == 0 {
    } else {
      RunKeepsBooks(config, candles, start, count);
      DayCounts(config, candles, start, count - 1, day);
      if count > 1 {
        DaysNeverGoBack(candles, count - 1);
      }
    }
  }

  /** Whole-run limits: no trading day decides more fills than the rules allow, and every fill is the
      order the policy approved, within the drawdown and reserve limits, on what its decision saw. */
  lemma WholeRunLimits(config: Config, candles: seq<Candle>, proposals: seq<ScheduledProposal>,
                       cash: i64, day: int, index: nat)
    requires Simulate(config, candles, proposals, cash).Ok?
    requires index < IntervalCount(candles)
    ensures var start := Start(candles, proposals, cash);
            && After(config, candles, start, IntervalCount(candles)).Ok?
            && FillsDecidedOn(config, candles, start, IntervalCount(candles), day)
               <= config.rules.maxOrdersDay
            && After(config, candles, start, index).Ok?
            && After(config, candles, start, index + 1).Ok?
            && Stepped(config, After(config, candles, start, index).value,
                       Interval(candles, index), NextInterval(candles, index),
                       After(config, candles, start, index + 1).value)
  {
    hide Step, Stepped, Books;
    var start := Start(candles, proposals, cash);
    StartKeepsBooks(candles, proposals, cash);
    DayCounts(config, candles, start, IntervalCount(candles), day);
    PrefixSucceeds(config, candles, start, index + 1, IntervalCount(candles));
    RunKeepsBooks(config, candles, start, index + 1);
  }

  // ---------------------------------------------------------------- causality

  /** The only parts of the next interval a decision may depend on. */
  predicate SameOpening(a: seq<Candle>, b: seq<Candle>) {
    && |a| == |b| == 3
    && forall i :: 0 <= i < 3 ==>
         && a[i].symbol == b[i].symbol && a[i].openTime == b[i].openTime
         && a[i].closeTime == b[i].closeTime && a[i].open == b[i].open
  }

  lemma AttemptSeesOnlyTheNextOpening(config: Config, ledger: Ledger, equity: i64, decision: Candle,
                                      a: Candle, b: Candle, proposal: Proposal)
    requires a.symbol == b.symbol && a.openTime == b.openTime
    requires a.closeTime == b.closeTime && a.open == b.open
    ensures Attempt(config, ledger, equity, decision, a, proposal)
            == Attempt(config, ledger, equity, decision, b, proposal)
  {
    hide EvaluateProposal, Book;
  }

  lemma StepSeesOnlyTheNextOpening(config: Config, ledger: Ledger, interval: seq<Candle>,
                                   a: seq<Candle>, b: seq<Candle>)
    requires |interval| == 3 && SameOpening(a, b)
    ensures Step(config, ledger, interval, Some(a)) == Step(config, ledger, interval, Some(b))
  {
    hide OpenInterval, Attempt, PortfolioEquity;
    if OpenInterval(ledger, interval).Ok? {
      var (begun, equity) := OpenInterval(ledger, interval).value;
      var at := interval[0].openTime;
      if at in begun.scheduled && SymbolIndex(begun.scheduled[at].symbol).Some? {
        var i := SymbolIndex(begun.scheduled[at].symbol).value;
        AttemptSeesOnlyTheNextOpening(config, begun.(scheduled := begun.scheduled - {at}), equity,
                                      interval[i], a[i], b[i], begun.scheduled[at]);
      }
    }
  }

  /** Both series agree through interval `k` and on the openings of interval `k + 1`. */
  predicate AgreeThrough(a: seq<Candle>, b: seq<Candle>, k: nat) {
    && k + 1 < IntervalCount(a) && k + 1 < IntervalCount(b)
    && a[..3 * k + 3] == b[..3 * k + 3]
    && SameOpening(Interval(a, k + 1), Interval(b, k + 1))
  }

  lemma SameIntervals(a: seq<Candle>, b: seq<Candle>, k: nat, index: nat)
    requires AgreeThrough(a, b, k) && index <= k
    ensures Interval(a, index) == Interval(b, index)
  {
    assert Interval(a, index) == a[..3 * k + 3][3 * index..3 * index + 3];
    assert Interval(b, index) == b[..3 * k + 3][3 * index..3 * index + 3];
  }

  lemma {:induction false} SameLedger(config: Config, a: seq<Candle>, b: seq<Candle>, start: Ledger,
                                      k: nat, count: nat)
    requires AgreeThrough(a, b, k) && count <= k + 1
    ensures After(config, a, start, count) == After(config, b, start, count)
  {
    hide Step;
    if count == 0 {
    } else {
      SameLedger(config, a, b, start, k, count - 1);
      SameIntervals(a, b, k, count - 1);
      if count <= k {
        SameIntervals(a, b, k, count);
      }
      if After(config, a, start, count - 1).Ok? {
        if count == k + 1 {
          StepSeesOnlyTheNextOpening(config, After(config, a, start, count - 1).value,
                                     Interval(a, k), Interval(a, k + 1), Interval(b, k + 1));
        }
      }
    }
  }

  lemma {:induction false} HistoryIsKept(config: Config, candles: seq<Candle>, start: Ledger,
                                         count: nat, total: nat)
    requires ValidGrid(candles) && count <= total <= IntervalCount(candles)
    requires Books(start, start.cash) && start.equityCurve == []
    requires After(config, candles, start, total).Ok?
    ensures After(config, candles, start, count).Ok?
    ensures var early := After(config, candles, start, count).value;
            var late := After(config, candles, start, total).value;
            && |early.equityCurve| == count && |late.equityCurve| == total
            && late.equityCurve[..count] == early.equityCurve
            && early.fills <= late.fills
    decreases total
  {
    hide Step, Books, ValidGrid, OpenInterval, FundingDue, RiskRespected, IsApproved;
    RunKeepsBooks(config, candles, start, total);
    if count < total {
      HistoryIsKept(config, candles, start, count, total - 1);
      var middle := After(config, candles, start, total - 1).value;
      var late := After(config, candles, start, total).value;
      assert late.equityCurve[..count] == late.equityCurve[..|middle.equityCurve|][..count];
      assert middle.fills == late.fills[..|middle.fills|];
    } else if total > 0 {
      HistoryIsKept(config, candles, start, total - 1, total - 1);
    }
  }

  /** No look-ahead: whatever the later candles are, both runs share the equity curve through
      interval `k` and every fill decided through interval `k`. */
  lemma {:induction false} NoLookAhead(config: Config, a: seq<Candle>, b: seq<Candle>,
                                       proposals: seq<ScheduledProposal>, cash: i64, k: nat, ra: Report,
                                       rb: Report)
    requires Simulate(config, a, proposals, cash) == Ok(ra)
    requires Simulate(config, b, proposals, cash) == Ok(rb)
    requires AgreeThrough(a, b, k)
    ensures |ra.equityCurve| > k && |rb.equityCurve| > k
    ensures ra.equityCurve[..k + 1] == rb.equityCurve[..k + 1]
    ensures var throughA := After(config, a, Start(a, proposals, cash), k + 1);
            var throughB := After(config, b, Start(b, proposals, cash), k + 1);
            && throughA.Ok? && throughA == throughB
            && throughA.value.fills <= ra.fills && throughA.value.fills <= rb.fills
  {
    hide Step, Books, ValidGrid, PortfolioEquity;
    var start := Start(a, proposals, cash);
    SameIntervals(a, b, k, 0);
    assert start == Start(b, proposals, cash);
    StartKeepsBooks(a, proposals, cash);
    SameLedger(config, a, b, start, k, k + 1);
    HistoryIsKept(config, a, start, k + 1, IntervalCount(a));
    HistoryIsKept(config, b, start, k + 1, IntervalCount(b));
  }
}
