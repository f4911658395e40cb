/** The history of a backtest, told without the ledger: what each interval saw, what became of its
    proposal, and what it left. */
module BacktestHistory {
  import opened Arithmetic
  import opened Policy
  import opened Backtest
  import opened BacktestTheorems
  import PolicyTheorems

  // ---------------------------------------------------------------- the history

  /** What became of an interval's proposal. */
  datatype Outcome = Idle | Passed | Refused | Filled(fill: Fill)

  /** The equity an interval's decision saw, the outcome, and the equity it left. */
  datatype Entry = Entry(seen: int, outcome: Outcome, point: int)

  type History = seq<Entry>

  function FillsOf(history: History): seq<Fill> {
    if history == [] then []
    else
      var outcome := history[|history| - 1].outcome;
      FillsOf(history[..|history| - 1]) + (if outcome.Filled? then [outcome.fill] else [])
  }

  function Refusals(history: History): nat {
    if history == [] then 0
    else
      Refusals(history[..|history| - 1])
      + (if history[|history| - 1].outcome.Refused? then 1 else 0)
  }

  /** Funding charged so far, each interval's on the fills before it. */
  function Funded(candles: seq<Candle>, history: History): int
    requires |history| <= IntervalCount(candles)
  {
    if history == [] then 0
    else
      var before := history[..|history| - 1];
      Funded(candles, before) + FundingDue(FillsOf(before), Interval(candles, |before|))
  }

  /** The starting cash less what the fills spent and cost and the funding charged. */
  function CashLeft(candles: seq<Candle>, cash: int, history: History): int
    requires |history| <= IntervalCount(candles)
  {
    var fills := FillsOf(history);
    cash - NetSpend(fills) - TotalFees(fills) - Funded(candles, history)
  }

  /** The cash at the next decision: its interval's funding is charged first. */
  function CashSeen(candles: seq<Candle>, cash: int, before: History): int
    requires |before| < IntervalCount(candles)
  {
    CashLeft(candles, cash, before) - FundingDue(FillsOf(before), Interval(candles, |before|))
  }

  /** The trading day of an interval, by the close of its first candle. */
  function Day(candles: seq<Candle>, index: nat): int
    requires index < IntervalCount(candles)
  {
    TruncDiv(candles[3 * index].closeTime, 24 * 60 * 60 * 1_000)
  }

  /** The equity the next decision's day began with: the first that the day's decisions saw, or the
      starting cash on the first day. */
  function DayBegan(candles: seq<Candle>, cash: int, before: History, seen: int): int
    requires |before| < IntervalCount(candles)
  {
    if before == [] then cash
    else
      var n := |before| - 1;
      if Day(candles, n + 1) != Day(candles, n) then seen
      else DayBegan(candles, cash, before[..n], before[n].seen)
  }

  function OrdersOn(candles: seq<Candle>, history: History, day: int): nat
    requires |history| <= IntervalCount(candles)
  {
    if history == [] then 0
    else
      var n := |history| - 1;
      OrdersOn(candles, history[..n], day)
      + (if history[n].outcome.Filled? && Day(candles, n) == day then 1 else 0)
  }

  /** The highest of the starting cash and every equity seen or left. */
  function Highest(cash: int, history: History): int {
    if history == [] then cash
    else
      var last := history[|history| - 1];
      Max(Highest(cash, history[..|history| - 1]), Max(last.seen, last.point))
  }

  /** The policy question the next decision asks about a proposal for its candle in the column. */
  predicate Asks(config: Config, candles: seq<Candle>, cash: int, before: History, seen: int,
                 column: nat, context: PolicyContext)
    requires |before| < IntervalCount(candles) && column < 3
  {
    var decision := Interval(candles, |before|)[column];
    var market, portfolio := context.market, context.portfolio;
    && context.rules == config.rules && context.isolatedLeverage == config.rules.isolatedLeverage
    && context.startingCapital == seen && context.referencePrice.None?
    && market.symbol == decision.symbol && !market.delisted && market.bookAgeSeconds == 0
    && market.markPrice == market.oraclePrice == decision.close
    && market.spreadBps == (if config.execution.halfSpreadBps < 0x8000
                            then 2 * config.execution.halfSpreadBps else 0xFFFF)
    && market.askDepth == market.bidDepth == 0x7FFF_FFFF_FFFF_FFFF / 4
    && market.sizeDecimals == decision.sizeDecimals
    && portfolio.equity == seen
    && portfolio.availableCollateral == CashSeen(candles, cash, before)
    && portfolio.dayStartEquity == DayBegan(candles, cash, before, seen)
    && portfolio.peakEquity == Max(Highest(cash, before), seen)
    && portfolio.symbolPosition
       == TruncDiv(NetQuantity(FillsOf(before), decision.symbol) * decision.close, QUANTITY_SCALE)
    && portfolio.ordersToday == OrdersOn(candles, before, Day(candles, |before|))
  }

  /** The fill of an approved order: its quantity at the quoted price, with the taker fee on its
      notional. */
  predicate FillsOrder(config: Config, next: Candle, price: int, order: OrderDecision, fill: Fill) {
    && fill.symbol == order.symbol && fill.side == order.side && fill.quantity == order.quantity
    && fill.price == price && fill.candleOpenTime == next.openTime
    && fill.fee == TruncDiv(order.actualNotional * config.execution.takerFeeBps, 10_000)
  }

  /** The policy's ruling: the fill of an admissible order, or a refusal when there is none. */
  ghost predicate Ruled(config: Config, executable: Proposal, context: PolicyContext, next: Candle,
                        outcome: Outcome)
  {
    match outcome
    case Filled(fill) =>
      exists order :: && PolicyTheorems.Admissible(executable, context, order)
                      && FillsOrder(config, next, executable.limitPrice, order, fill)
    case Refused =>
      forall order: OrderDecision :: !PolicyTheorems.Admissible(executable, context, order)
    case _ => false
  }

  /** What must become of a proposal for the asset of the column: passed if the quoted price is beyond
      its limit; otherwise filled with the order the policy admits, or refused if it admits none. */
  ghost predicate Becomes(config: Config, candles: seq<Candle>, cash: int, before: History, seen: int,
                          column: nat, proposal: Proposal, outcome: Outcome)
    requires |before| < IntervalCount(candles) && column < 3
  {
    && proposal.symbol == [BTC, ETH, SOL][column] && |before| + 1 < IntervalCount(candles)
    && var next := Interval(candles, |before| + 1)[column];
       var price := Quote(config.execution, proposal.side, next.open);
       && FitsI64(price)
       && if BeyondLimit(proposal, price) then outcome == Passed
          else
            exists context :: && Asks(config, candles, cash, before, seen, column, context)
                              && Ruled(config, proposal.(limitPrice := price), context, next, outcome)
  }

  /** The proposal is scheduled for the interval. */
  predicate IsDue(candles: seq<Candle>, proposals: seq<ScheduledProposal>, index: nat, k: nat)
    requires index < IntervalCount(candles) && k < |proposals|
  {
    proposals[k].decisionOpenTime == candles[3 * index].openTime
  }

  /** The outcome is right for the proposal of the interval, or for none. */
  ghost predicate Decides(config: Config, candles: seq<Candle>, proposals: seq<ScheduledProposal>,
                          cash: int, before: History, seen: int, outcome: Outcome)
    requires |before| < IntervalCount(candles)
  {
    if exists k :: 0 <= k < |proposals| && IsDue(candles, proposals, |before|, k) then
      exists k, column ::
        && 0 <= k < |proposals| && IsDue(candles, proposals, |before|, k) && 0 <= column < 3
        && Becomes(config, candles, cash, before, seen, column, proposals[k].proposal, outcome)
    else outcome == Idle
  }

  /** The last entry is right, given those before it. */
  ghost predicate LastIsRight(config: Config, candles: seq<Candle>, proposals: seq<ScheduledProposal>,
                              cash: int, history: History)
    requires 0 < |history| <= IntervalCount(candles)
  {
    var before, entry := history[..|history| - 1], history[|history| - 1];
    var interval := Interval(candles, |before|);
    && entry.seen == CashSeen(candles, cash, before) + MarkedValue(FillsOf(before), interval)
    && Decides(config, candles, proposals, cash, before, entry.seen, entry.outcome)
    && entry.point == CashLeft(candles, cash, history) + MarkedValue(FillsOf(history), interval)
  }

  predicate IsMet(candles: seq<Candle>, proposals: seq<ScheduledProposal>, count: nat, k: nat)
    requires count <= IntervalCount(candles) && k < |proposals|
  {
    exists index :: 0 <= index < count && IsDue(candles, proposals, index, k)
  }

  /** Every entry is right, given those before it. */
  ghost predicate AllRight(config: Config, candles: seq<Candle>, proposals: seq<ScheduledProposal>,
                           cash: int, history: History)
    requires |history| <= IntervalCount(candles)
  {
    history == []
    || (&& AllRight(config, candles, proposals, cash, history[..|history| - 1])
        && LastIsRight(config, candles, proposals, cash, history))
  }

  /** The history of a run: an entry for every interval, and an interval for every proposal. */
  ghost predicate IsHistory(config: Config, candles: seq<Candle>, proposals: seq<ScheduledProposal>,
                            cash: int, history: History)
  {
    && |history| == IntervalCount(candles)
    && AllRight(config, candles, proposals, cash, history)
    && forall k :: 0 <= k < |proposals| ==> IsMet(candles, proposals, |history|, k)
  }

  predicate CurveTells(candles: seq<Candle>, history: History, curve: seq<EquityPoint>)
    requires |history| <= IntervalCount(candles)
  {
    && |curve| == |history|
    && forall index :: 0 <= index < |history| ==>
         && curve[index].closeTime == candles[3 * index].closeTime
         && curve[index].equity == history[index].point
  }

  function Capped(count: nat): nat {
    if count < 0xFFFF_FFFF then count else 0xFFFF_FFFF
  }

  /** The report of a history. */
  predicate Tells(candles: seq<Candle>, cash: int, history: History, report: Report)
    requires |history| == IntervalCount(candles) > 0
  {
    var count, fills := |history|, FillsOf(history);
    && report.fills == fills && report.fees == TotalFees(fills)
    && report.funding == Funded(candles, history)
    && report.endingCash == CashLeft(candles, cash, history)
    && report.endingEquity == report.endingCash + MarkedValue(fills, Interval(candles, count - 1))
    && report.policyRejections == Capped(Refusals(history))
    && CurveTells(candles, history, report.equityCurve)
  }

  // ---------------------------------------------------------------- the ledger keeps a history

  /** What is left of the schedule. */
  predicate Remaining(candles: seq<Candle>, schedule: map<i64, Proposal>, count: nat,
                      left: map<i64, Proposal>)
    requires count <= IntervalCount(candles)
  {
    && (forall time :: time in left ==> time in schedule && left[time] == schedule[time])
    && forall time :: time in schedule ==>
         (time in left <==> forall index :: 0 <= index < count ==> candles[3 * index].openTime != time)
  }

  predicate DayTells(candles: seq<Candle>, cash: int, history: History, ledger: Ledger)
    requires |history| <= IntervalCount(candles) && 0 < IntervalCount(candles)
  {
    var n := |history| - 1;
    if history == [] then
      ledger.day == Day(candles, 0) && ledger.dayStartEquity == cash && ledger.ordersToday == 0
    else
      && ledger.day == Day(candles, n)
      && ledger.dayStartEquity == DayBegan(candles, cash, history[..n], history[n].seen)
      && ledger.ordersToday == OrdersOn(candles, history, ledger.day)
  }

  /** The ledger says of the past what the history tells. */
  ghost predicate Records(candles: seq<Candle>, schedule: map<i64, Proposal>, cash: int,
                          history: History, ledger: Ledger)
    requires |history| <= IntervalCount(candles) && 0 < IntervalCount(candles)
  {
    && Books(ledger, cash) && ledger.fills == FillsOf(history)
    && ledger.funding == Funded(candles, history)
    && ledger.rejections == Capped(Refusals(history))
    && ledger.peakEquity == Highest(cash, history)
    && DayTells(candles, cash, history, ledger)
    && CurveTells(candles, history, ledger.equityCurve)
    && Remaining(candles, schedule, |history|, ledger.scheduled)
  }

  lemma {:induction false} OpenTimes(candles: seq<Candle>, index: nat)
    requires ValidGrid(candles) && index < IntervalCount(candles)
    ensures candles[3 * index].openTime == candles[0].openTime + index * 900_000
  {
    assert OnGrid(candles, index, 0);
    if index > 0 {
      OpenTimes(candles, index - 1);
    }
  }

  lemma {:induction false} ScheduleHolds(proposals: seq<ScheduledProposal>)
    requires Schedule(proposals).Some?
    ensures var schedule := Schedule(proposals).value;
            && (forall k :: 0 <= k < |proposals| ==>
                  && proposals[k].decisionOpenTime in schedule
                  && schedule[proposals[k].decisionOpenTime] == proposals[k].proposal)
            && forall time :: time in schedule ==>
                 exists k :: 0 <= k < |proposals| && proposals[k].decisionOpenTime == time
  {
    if proposals != [] {
      var n := |proposals| - 1;
      ScheduleHolds(proposals[..n]);
      var schedule := Schedule(proposals).value;
      forall k | 0 <= k < |proposals|
        ensures proposals[k].decisionOpenTime in schedule
        ensures schedule[proposals[k].decisionOpenTime] == proposals[k].proposal
      {
        if k < n {
          assert proposals[..n][k] == proposals[k];
        }
      }
      forall time | time in schedule
        ensures exists k :: 0 <= k < |proposals| && proposals[k].decisionOpenTime == time
      {
        if time == proposals[n].decisionOpenTime {
          assert proposals[n].decisionOpenTime == time;
        } else {
          var k :| 0 <= k < n && proposals[..n][k].decisionOpenTime == time;
          assert proposals[k].decisionOpenTime == time;
        }
      }
    }
  }

  lemma {:induction false} NoOrdersYet(candles: seq<Candle>, history: History, day: int)
    requires ValidGrid(candles) && |history| <= IntervalCount(candles)
    requires history != [] ==> Day(candles, |history| - 1) < day
    ensures OrdersOn(candles, history, day) == 0
  {
    hide ValidGrid;
    if history != [] {
      var n := |history| - 1;
      if n > 0 {
        DaysNeverGoBack(candles, n);
        SameDay(candles, n);
        SameDay(candles, n - 1);
      }
      NoOrdersYet(candles, history[..n], day);
    }
  }

  lemma SameDay(candles: seq<Candle>, index: nat)
    requires index < IntervalCount(candles)
    ensures DayOf(Interval(candles, index)) == Day(candles, index)
  {
  }

  /** What the next decision sees. */
  predicate Sees(candles: seq<Candle>, cash: int, history: History, begun: Ledger, equity: int)
    requires |history| < IntervalCount(candles)
  {
    && begun.cash == CashSeen(candles, cash, history)
    && equity == begun.cash + MarkedValue(FillsOf(history), Interval(candles, |history|))
    && begun.peakEquity == Max(Highest(cash, history), equity)
    && begun.day == Day(candles, |history|)
    && begun.dayStartEquity == DayBegan(candles, cash, history, equity)
    && begun.ordersToday == OrdersOn(candles, history, begun.day)
  }

  lemma OpeningRecords(candles: seq<Candle>, schedule: map<i64, Proposal>, cash: int, history: History,
                       ledger: Ledger)
    requires ValidGrid(candles) && |history| < IntervalCount(candles)
    requires Records(candles, schedule, cash, history, ledger)
    requires OpenInterval(ledger, Interval(candles, |history|)).Ok?
    ensures var (begun, equity) := OpenInterval(ledger, Interval(candles, |history|)).value;
            && Sees(candles, cash, history, begun, equity)
            && Books(begun, cash) && equity <= begun.peakEquity
            && begun == ledger.(cash := begun.cash, funding := begun.funding, day := begun.day,
                                dayStartEquity := begun.dayStartEquity,
                                peakEquity := begun.peakEquity, ordersToday := begun.ordersToday)
            && begun.funding == Funded(candles, history)
                                + FundingDue(FillsOf(history), Interval(candles, |history|))
  {
    hide PayFunding, PortfolioEquity, FundingDue, MarkedValue, Listed, ValidGrid, CurveTells, Remaining,
         Funded, FillsOf, Highest, Interval, NetSpend, LongOnly;
    var interval := Interval(candles, |history|);
    GridIsListed(candles, |history|);
    FundingKeepsBooks(ledger, interval, 3, cash);
    assert interval[..3] == interval;
    var paid := PayFunding(ledger, interval, 3).value;
    EquityIsCashPlusMarks(paid, interval, cash);
    SameDay(candles, |history|);
    RollTells(candles, cash, history, paid, PortfolioEquity(paid.cash, paid.positions, interval).value);
  }

  lemma RollTells(candles: seq<Candle>, cash: int, history: History, paid: Ledger, equity: i64)
    requires ValidGrid(candles) && |history| < IntervalCount(candles)
    requires DayTells(candles, cash, history, paid)
    ensures var rolled := Roll(paid, Day(candles, |history|), equity);
            && rolled.day == Day(candles, |history|)
            && rolled.dayStartEquity == DayBegan(candles, cash, history, equity)
            && rolled.ordersToday == OrdersOn(candles, history, rolled.day)
  {
    hide ValidGrid, Day;
    if history != [] {
      var n := |history| - 1;
      if Day(candles, n + 1) != Day(candles, n) {
        DaysNeverGoBack(candles, n + 1);
        SameDay(candles, n + 1);
        SameDay(candles, n);
        NoOrdersYet(candles, history, Day(candles, n + 1));
      }
    }
  }

  /** What an attempt makes of the ledger. */
  predicate Traded(taken: Ledger, outcome: Outcome, traded: Ledger) {
    && traded == taken.(cash := traded.cash, positions := traded.positions, fees := traded.fees,
                        fills := traded.fills, ordersToday := traded.ordersToday,
                        rejections := traded.rejections)
    && traded.fills == taken.fills + (if outcome.Filled? then [outcome.fill] else [])
    && traded.ordersToday == taken.ordersToday + (if outcome.Filled? then 1 else 0)
    && traded.rejections == (if outcome.Refused? then Capped(taken.rejections + 1) else taken.rejections)
  }

  lemma AsksIt(config: Config, candles: seq<Candle>, cash: int, history: History, taken: Ledger,
               equity: i64, column: nat, position: i64)
    requires ValidGrid(candles) && |history| < IntervalCount(candles) && column < 3
    requires Books(taken, cash) && taken.fills == FillsOf(history)
    requires Sees(candles, cash, history, taken, equity)
    requires var decision := Interval(candles, |history|)[column];
             && decision.symbol in taken.positions
             && PositionNotional(taken.positions[decision.symbol], decision.close) == Ok(position)
    ensures Asks(config, candles, cash, history, equity, column,
                 SimulatedContext(config, Interval(candles, |history|)[column],
                                  DecisionPortfolio(taken, equity, position)))
  {
    hide CashSeen, FundingDue, MarkedValue, NetSpend, LongOnly, Highest, DayBegan, OrdersOn, Funded, Day,
         FillsOf, ValidGrid;
    GridIsListed(candles, |history|);
  }

  /** The outcome of an attempt, and what it makes of the ledger. */
  lemma AttemptBecomes(config: Config, candles: seq<Candle>, cash: int, history: History, taken: Ledger,
                       equity: i64, column: nat, proposal: Proposal)
    returns (outcome: Outcome)
    requires ValidGrid(candles) && |history| + 1 < IntervalCount(candles) && column < 3
    requires proposal.symbol == [BTC, ETH, SOL][column]
    requires Books(taken, cash) && taken.fills == FillsOf(history)
    requires Sees(candles, cash, history, taken, equity) && equity <= taken.peakEquity
    requires Attempt(config, taken, equity, Interval(candles, |history|)[column],
                     Interval(candles, |history| + 1)[column], proposal).Ok?
    ensures var traded := Attempt(config, taken, equity, Interval(candles, |history|)[column],
                                  Interval(candles, |history| + 1)[column], proposal).value;
            && Becomes(config, candles, cash, history, equity, column, proposal, outcome)
            && Traded(taken, outcome, traded) && Books(traded, cash)
  {
    hide ExecuteNextOpen, Book, EvaluateProposal, ValidGrid, CashSeen, Sees, Books, Asks, FillsOf,
         SimulatedContext, PolicyTheorems.Admissible, Interval;
    var decision, next := Interval(candles, |history|)[column], Interval(candles, |history| + 1)[column];
    assert decision.symbol == proposal.symbol by { GridSymbol(candles, |history|, column); }
    var quantity := taken.positions[proposal.symbol];
    var position := PositionNotional(quantity, decision.close).value;
    var portfolio := DecisionPortfolio(taken, equity, position);
    var context := SimulatedContext(config, decision, portfolio);
    AsksIt(config, candles, cash, history, taken, equity, column, position);
    PassedIff(config, decision, next, proposal, portfolio);
    RefusedIff(config, decision, next, proposal, portfolio);
    var executed := ExecuteNextOpen(config, decision, next, proposal, portfolio);
    match executed {
      case Ok(None) => outcome := Passed;
      case Ok(Some(fill)) =>
        outcome := Filled(fill);
        FilledRight(config, decision, next, proposal, portfolio, fill);
        AttemptKeepsBooks(config, taken, equity, decision, next, proposal, cash);
        FillIsTheApprovedOrder(config, decision, next, proposal, portfolio, fill);
        BookingKeepsBooks(taken, fill, cash);
      case Err(_) =>
        outcome := Refused;
        AttemptKeepsBooks(config, taken, equity, decision, next, proposal, cash);
    }
  }

  lemma GridSymbol(candles: seq<Candle>, index: nat, column: nat)
    requires ValidGrid(candles) && index < IntervalCount(candles) && column < 3
    ensures Interval(candles, index)[column].symbol == [BTC, ETH, SOL][column]
  {
    assert OnGrid(candles, index, column);
  }

  lemma FilledRight(config: Config, decision: Candle, next: Candle, proposal: Proposal,
                    portfolio: PortfolioState, fill: Fill)
    requires ExecuteNextOpen(config, decision, next, proposal, portfolio) == Ok(Some(fill))
    ensures var price := Quote(config.execution, proposal.side, next.open);
            && FitsI64(price) && !BeyondLimit(proposal, price)
            && Ruled(config, proposal.(limitPrice := price), SimulatedContext(config, decision, portfolio),
                     next, Filled(fill))
  {
    hide EvaluateProposal, SimulatedContext, PolicyTheorems.Admissible;
    FillIsTheApprovedOrder(config, decision, next, proposal, portfolio, fill);
    var executable := proposal.(limitPrice := fill.price);
    var order := ApprovedOrder(config, decision, proposal, fill.price, portfolio).value;
    PolicyTheorems.ApprovalIff(executable, SimulatedContext(config, decision, portfolio), order);
    assert FillsOrder(config, next, fill.price, order, fill);
  }

  /** What is scheduled for the interval is what is still left for it. */
  lemma DueIsLeft(candles: seq<Candle>, proposals: seq<ScheduledProposal>, index: nat,
                  left: map<i64, Proposal>)
    requires ValidGrid(candles) && index < IntervalCount(candles) && Schedule(proposals).Some?
    requires Remaining(candles, Schedule(proposals).value, index, left)
    ensures candles[3 * index].openTime in left
            <==> exists k :: 0 <= k < |proposals| && IsDue(candles, proposals, index, k)
    ensures candles[3 * index].openTime in left ==>
              exists k :: && 0 <= k < |proposals| && IsDue(candles, proposals, index, k)
                          && proposals[k].proposal == left[candles[3 * index].openTime]
  {
    hide ValidGrid;
    var time := candles[3 * index].openTime;
    ScheduleHolds(proposals);
    OpenTimes(candles, index);
    forall m | 0 <= m < index ensures candles[3 * m].openTime != time {
      OpenTimes(candles, m);
    }
    if k :| 0 <= k < |proposals| && IsDue(candles, proposals, index, k) {
      assert time in left;
    }
    if time in left {
      var k :| 0 <= k < |proposals| && proposals[k].decisionOpenTime == time;
      assert IsDue(candles, proposals, index, k);
    }
  }

  lemma TakenIsLess(candles: seq<Candle>, schedule: map<i64, Proposal>, index: nat,
                    left: map<i64, Proposal>)
    requires index < IntervalCount(candles) && Remaining(candles, schedule, index, left)
    ensures Remaining(candles, schedule, index + 1, left - {candles[3 * index].openTime})
  {
    var time, less := candles[3 * index].openTime, left - {candles[3 * index].openTime};
    forall t | t in schedule
      ensures t in less <==> forall m :: 0 <= m < index + 1 ==> candles[3 * m].openTime != t
    {
      if t in left && t != time {
        assert forall m :: 0 <= m < index + 1 ==> candles[3 * m].openTime != t;
      }
    }
  }

  /** The decision of an interval and what it leaves. */
  lemma DecisionBecomes(config: Config, candles: seq<Candle>, proposals: seq<ScheduledProposal>,
                        cash: int, history: History, begun: Ledger, equity: i64)
    returns (outcome: Outcome)
    requires ValidGrid(candles) && |history| < IntervalCount(candles) && Schedule(proposals).Some?
    requires Books(begun, cash) && begun.fills == FillsOf(history)
    requires Sees(candles, cash, history, begun, equity) && equity <= begun.peakEquity
    requires Remaining(candles, Schedule(proposals).value, |history|, begun.scheduled)
    requires Decide(config, begun, equity, Interval(candles, |history|),
                    NextInterval(candles, |history|)).Ok?
    ensures var (decided, left) := Decide(config, begun, equity, Interval(candles, |history|),
                                          NextInterval(candles, |history|)).value;
            && Decides(config, candles, proposals, cash, history, equity, outcome)
            && Traded(begun.(scheduled := decided.scheduled, peakEquity := decided.peakEquity), outcome,
                      decided)
            && Books(decided, cash) && decided.peakEquity == Max(begun.peakEquity, left)
            && left == decided.cash + MarkedValue(decided.fills, Interval(candles, |history|))
            && Remaining(candles, Schedule(proposals).value, |history| + 1, decided.scheduled)
  {
    hide Attempt, PortfolioEquity, ValidGrid, CashSeen, Sees, Books, FillsOf, Becomes, Remaining, Interval,
         MarkedValue, IsDue, Listed;
    var n, interval := |history|, Interval(candles, |history|);
    var at := interval[0].openTime;
    assert at == candles[3 * n].openTime by { IntervalOpens(candles, n); }
    DueIsLeft(candles, proposals, n, begun.scheduled);
    TakenIsLess(candles, Schedule(proposals).value, n, begun.scheduled);
    GridIsListed(candles, n);
    if at in begun.scheduled {
      var proposal, taken := begun.scheduled[at], begun.(scheduled := begun.scheduled - {at});
      var column := SymbolIndex(proposal.symbol).value;
      StillSees(candles, cash, history, begun, taken, equity);
      outcome := AttemptBecomes(config, candles, cash, history, taken, equity, column, proposal);
      var traded := Attempt(config, taken, equity, interval[column],
                            NextInterval(candles, n).value[column], proposal).value;
      EquityIsCashPlusMarks(traded, interval, cash);
      var decided := Decide(config, begun, equity, interval, NextInterval(candles, n)).value.0;
      SameBooks(traded, traded.(peakEquity := decided.peakEquity), cash);
    } else {
      outcome := Idle;
      SeesMarks(candles, cash, history, begun, equity);
      assert begun.scheduled - {at} == begun.scheduled;
    }
  }

  lemma IntervalOpens(candles: seq<Candle>, index: nat)
    requires index < IntervalCount(candles)
    ensures Interval(candles, index)[0] == candles[3 * index]
  {
  }

  lemma SeesMarks(candles: seq<Candle>, cash: int, history: History, begun: Ledger, equity: int)
    requires |history| < IntervalCount(candles) && Sees(candles, cash, history, begun, equity)
    ensures equity == begun.cash + MarkedValue(FillsOf(history), Interval(candles, |history|))
    ensures equity <= begun.peakEquity
  {
  }

  /** What is scheduled, and the peak, have no part in the books. */
  lemma SameBooks(ledger: Ledger, other: Ledger, cash: int)
    requires Books(ledger, cash)
    requires other == ledger.(peakEquity := other.peakEquity, scheduled := other.scheduled)
    ensures Books(other, cash)
  {
    hide NetSpend, LongOnly, TotalFees, NetQuantity;
  }

  lemma StillSees(candles: seq<Candle>, cash: int, history: History, begun: Ledger, taken: Ledger,
                  equity: int)
    requires |history| < IntervalCount(candles) && Sees(candles, cash, history, begun, equity)
    requires taken == begun.(scheduled := taken.scheduled) && Books(begun, cash)
    ensures Sees(candles, cash, history, taken, equity) && Books(taken, cash)
  {
    SameBooks(begun, taken, cash);
    hide Books;
  }

  /** One entry more. */
  lemma OneMore(candles: seq<Candle>, cash: int, history: History, entry: Entry)
    requires |history| < IntervalCount(candles)
    ensures var longer, n := history + [entry], |history|;
            && longer[..|longer| - 1] == history
            && FillsOf(longer) == FillsOf(history)
                                  + (if entry.outcome.Filled? then [entry.outcome.fill] else [])
            && Refusals(longer) == Refusals(history) + (if entry.outcome.Refused? then 1 else 0)
            && Funded(candles, longer)
               == Funded(candles, history) + FundingDue(FillsOf(history), Interval(candles, n))
            && Highest(cash, longer) == Max(Highest(cash, history), Max(entry.seen, entry.point))
            && OrdersOn(candles, longer, Day(candles, n))
               == OrdersOn(candles, history, Day(candles, n)) + (if entry.outcome.Filled? then 1 else 0)
  {
    hide FundingDue, Interval, Day;
    var longer := history + [entry];
    assert longer[..|longer| - 1] == history;
  }

  lemma BooksFacts(ledger: Ledger, cash: int)
    requires Books(ledger, cash)
    ensures ledger.fees == TotalFees(ledger.fills)
    ensures ledger.cash == cash - NetSpend(ledger.fills) - TotalFees(ledger.fills) - ledger.funding
    ensures forall curve :: Books(ledger.(equityCurve := curve), cash)
  {
    hide NetSpend, LongOnly, TotalFees, NetQuantity;
  }

  /** What an interval makes of the ledger, by way of the ledger its decision saw, and its entry. */
  ghost predicate Moves(candles: seq<Candle>, schedule: map<i64, Proposal>, cash: int, history: History,
                        ledger: Ledger, begun: Ledger, decided: Ledger, entry: Entry)
    requires |history| < IntervalCount(candles)
  {
    && Records(candles, schedule, cash, history, ledger)
    && begun == ledger.(cash := begun.cash, funding := begun.funding, day := begun.day,
                        dayStartEquity := begun.dayStartEquity, peakEquity := begun.peakEquity,
                        ordersToday := begun.ordersToday)
    && begun.funding == Funded(candles, history)
                        + FundingDue(FillsOf(history), Interval(candles, |history|))
    && Sees(candles, cash, history, begun, entry.seen)
    && Traded(begun.(scheduled := decided.scheduled, peakEquity := decided.peakEquity), entry.outcome,
              decided)
    && Books(decided, cash) && decided.peakEquity == Max(begun.peakEquity, entry.point)
    && entry.point == decided.cash + MarkedValue(decided.fills, Interval(candles, |history|))
    && Remaining(candles, schedule, |history| + 1, decided.scheduled)
  }

  lemma EntryIsRight(config: Config, candles: seq<Candle>, proposals: seq<ScheduledProposal>, cash: int,
                     history: History, ledger: Ledger, begun: Ledger, decided: Ledger, entry: Entry)
    requires |history| < IntervalCount(candles) && Schedule(proposals).Some?
    requires Moves(candles, Schedule(proposals).value, cash, history, ledger, begun, decided, entry)
    requires Decides(config, candles, proposals, cash, history, entry.seen, entry.outcome)
    ensures LastIsRight(config, candles, proposals, cash, history + [entry])
  {
    OneMore(candles, cash, history, entry);
    hide Decides, Remaining, Interval, MarkedValue, FundingDue, Funded, NetSpend, TotalFees, FillsOf, Books,
         Highest, OrdersOn, DayBegan, Day, Refusals, Schedule, DayTells, CurveTells;
    BooksFacts(decided, cash);
    assert CashLeft(candles, cash, history + [entry]) == decided.cash;
  }

  lemma DayGoesOn(candles: seq<Candle>, schedule: map<i64, Proposal>, cash: int, history: History,
                  ledger: Ledger, begun: Ledger, decided: Ledger, entry: Entry)
    requires |history| < IntervalCount(candles)
    requires Moves(candles, schedule, cash, history, ledger, begun, decided, entry)
    ensures DayTells(candles, cash, history + [entry], decided)
  {
    OneMore(candles, cash, history, entry);
    hide Remaining, Interval, MarkedValue, FundingDue, Funded, FillsOf, Books, Highest, OrdersOn, DayBegan,
         Day, Refusals, CurveTells, CashSeen;
  }

  lemma CurveGoesOn(candles: seq<Candle>, history: History, curve: seq<EquityPoint>, entry: Entry,
                    point: EquityPoint)
    requires |history| < IntervalCount(candles) && CurveTells(candles, history, curve)
    requires point.closeTime == candles[3 * |history|].closeTime && point.equity == entry.point
    ensures CurveTells(candles, history + [entry], curve + [point])
  {
  }

  lemma LedgerGoesOn(candles: seq<Candle>, schedule: map<i64, Proposal>, cash: int, history: History,
                     ledger: Ledger, begun: Ledger, decided: Ledger, entry: Entry)
    requires |history| < IntervalCount(candles) && FitsI64(entry.point)
    requires Moves(candles, schedule, cash, history, ledger, begun, decided, entry)
    ensures Records(candles, schedule, cash, history + [entry],
                    decided.(equityCurve := decided.equityCurve
                               + [EquityPoint(candles[3 * |history|].closeTime, entry.point)]))
  {
    DayGoesOn(candles, schedule, cash, history, ledger, begun, decided, entry);
    MovedFacts(candles, schedule, cash, history, ledger, begun, decided, entry);
    hide Moves, Remaining, FundingDue, Funded, FillsOf, Books, Highest, OrdersOn, DayBegan, Day, Refusals,
         CurveTells, Capped, Interval;
    BooksFacts(decided, cash);
  }

  lemma MovedFacts(candles: seq<Candle>, schedule: map<i64, Proposal>, cash: int, history: History,
                   ledger: Ledger, begun: Ledger, decided: Ledger, entry: Entry)
    requires |history| < IntervalCount(candles) && FitsI64(entry.point)
    requires Moves(candles, schedule, cash, history, ledger, begun, decided, entry)
    ensures var longer := history + [entry];
            && Books(decided, cash) && decided.fills == FillsOf(longer)
            && decided.funding == Funded(candles, longer)
            && decided.rejections == Capped(Refusals(longer))
            && decided.peakEquity == Highest(cash, longer)
            && CurveTells(candles, longer,
                          decided.equityCurve
                          + [EquityPoint(candles[3 * |history|].closeTime, entry.point)])
            && Remaining(candles, schedule, |longer|, decided.scheduled)
  {
    OneMore(candles, cash, history, entry);
    hide Remaining, Interval, MarkedValue, FundingDue, Funded, FillsOf, Books, Highest, OrdersOn, DayBegan,
         DayTells, Day, Refusals, CurveTells, CashSeen;
    CurveGoesOn(candles, history, ledger.equityCurve, entry,
                EquityPoint(candles[3 * |history|].closeTime, entry.point));
  }

  /** One interval adds one right entry to the history. */
  lemma StepRecords(config: Config, candles: seq<Candle>, proposals: seq<ScheduledProposal>, cash: int,
                    history: History, ledger: Ledger)
    returns (entry: Entry)
    requires ValidGrid(candles) && |history| < IntervalCount(candles) && Schedule(proposals).Some?
    requires Records(candles, Schedule(proposals).value, cash, history, ledger)
    requires Step(config, ledger, Interval(candles, |history|), NextInterval(candles, |history|)).Ok?
    ensures var after := Step(config, ledger, Interval(candles, |history|),
                              NextInterval(candles, |history|)).value;
            && LastIsRight(config, candles, proposals, cash, history + [entry])
            && Records(candles, Schedule(proposals).value, cash, history + [entry], after)
  {
    hide OpenInterval, Decide, ValidGrid, Decides, Remaining, MarkedValue, Books, Interval, Funded,
         FundingDue, Sees, LastIsRight, FillsOf, Refusals, Highest, DayTells, CurveTells, Schedule;
    var interval, next := Interval(candles, |history|), NextInterval(candles, |history|);
    var schedule := Schedule(proposals).value;
    var (begun, equity) := OpenInterval(ledger, interval).value;
    OpeningRecords(candles, schedule, cash, history, ledger);
    var outcome := DecisionBecomes(config, candles, proposals, cash, history, begun, equity);
    var (decided, left) := Decide(config, begun, equity, interval, next).value;
    entry := Entry(equity, outcome, left);
    IntervalOpens(candles, |history|);
    EntryIsRight(config, candles, proposals, cash, history, ledger, begun, decided, entry);
    LedgerGoesOn(candles, schedule, cash, history, ledger, begun, decided, entry);
  }

  // ---------------------------------------------------------------- every run has its history

  lemma {:induction false} HistoryThrough(config: Config, candles: seq<Candle>,
                                          proposals: seq<ScheduledProposal>, cash: i64, count: nat)
    returns (history: History)
    requires ValidInput(candles, proposals, cash) && count <= IntervalCount(candles)
    requires After(config, candles, Start(candles, proposals, cash), count).Ok?
    ensures |history| == count && AllRight(config, candles, proposals, cash, history)
    ensures Records(candles, Schedule(proposals).value, cash, history,
                    After(config, candles, Start(candles, proposals, cash), count).value)
  {
    hide Step, ValidGrid, Records, LastIsRight, Schedule;
    if count == 0 {
      history := [];
      StartRecords(candles, proposals, cash);
    } else {
      var before := HistoryThrough(config, candles, proposals, cash, count - 1);
      var entry := StepRecords(config, candles, proposals, cash, before,
                               After(config, candles, Start(candles, proposals, cash), count - 1).value);
      history := before + [entry];
      assert history[..|history| - 1] == before;
    }
  }

  lemma StartRecords(candles: seq<Candle>, proposals: seq<ScheduledProposal>, cash: i64)
    requires ValidInput(candles, proposals, cash)
    ensures Records(candles, Schedule(proposals).value, cash, [], Start(candles, proposals, cash))
  {
    hide ValidGrid, Schedule;
    StartKeepsBooks(candles, proposals, cash);
    SameDay(candles, 0);
  }

  /** Every successful run has a history: each interval saw the equity its fills and funding had left,
      each scheduled proposal was due in exactly one interval, where it was passed over because the quoted
      price was beyond its limit, filled with the order the policy admits, or refused because it admits
      none; and the report tells just that. */
  lemma EveryRunHasItsHistory(config: Config, candles: seq<Candle>, proposals: seq<ScheduledProposal>,
                              cash: i64, report: Report)
    returns (history: History)
    requires Simulate(config, candles, proposals, cash) == Ok(report)
    ensures IsHistory(config, candles, proposals, cash, history)
    ensures |candles| >= 6 && Tells(candles, cash, history, report)
  {
    hide ValidGrid, AllRight, Schedule, Start, After, CashLeft, MarkedValue, PortfolioEquity, Funded,
         FillsOf, Refusals, CurveTells, DayTells, Highest, TotalFees, NetSpend;
    var count := IntervalCount(candles);
    history := HistoryThrough(config, candles, proposals, cash, count);
    var ledger := After(config, candles, Start(candles, proposals, cash), count).value;
    GridIsListed(candles, count - 1);
    EquityIsCashPlusMarks(ledger, Interval(candles, count - 1), cash);
    CashIsLeft(candles, cash, history, ledger);
    AllAreMet(candles, proposals, count, ledger.scheduled);
  }

  lemma CashIsLeft(candles: seq<Candle>, cash: int, history: History, ledger: Ledger)
    requires |history| <= IntervalCount(candles) && Books(ledger, cash)
    requires ledger.fills == FillsOf(history) && ledger.funding == Funded(candles, history)
    ensures ledger.cash == CashLeft(candles, cash, history) && ledger.fees == TotalFees(ledger.fills)
  {
    BooksFacts(ledger, cash);
  }

  lemma AllAreMet(candles: seq<Candle>, proposals: seq<ScheduledProposal>, count: nat,
                  left: map<i64, Proposal>)
    requires count <= IntervalCount(candles) && Schedule(proposals).Some?
    requires Remaining(candles, Schedule(proposals).value, count, left) && left == map[]
    ensures forall k :: 0 <= k < |proposals| ==> IsMet(candles, proposals, count, k)
  {
    ScheduleHolds(proposals);
    hide Schedule;
    forall k | 0 <= k < |proposals| ensures IsMet(candles, proposals, count, k) {
      var time := proposals[k].decisionOpenTime;
      assert time !in left;
      var index :| 0 <= index < count && candles[3 * index].openTime == time;
      assert IsDue(candles, proposals, index, k);
    }
  }

  /** A proposal is due in one interval only. */
  lemma DueOnce(candles: seq<Candle>, proposals: seq<ScheduledProposal>, k: nat, i: nat, j: nat)
    requires ValidGrid(candles) && k < |proposals|
    requires i < IntervalCount(candles) && j < IntervalCount(candles)
    requires IsDue(candles, proposals, i, k) && IsDue(candles, proposals, j, k)
    ensures i == j
  {
    OpenTimes(candles, i);
    OpenTimes(candles, j);
  }

  // ---------------------------------------------------------------- and only one

  lemma QuestionUnique(config: Config, candles: seq<Candle>, cash: int, before: History, seen: int,
                       column: nat, a: PolicyContext, b: PolicyContext)
    requires |before| < IntervalCount(candles) && column < 3
    requires Asks(config, candles, cash, before, seen, column, a)
    requires Asks(config, candles, cash, before, seen, column, b)
    ensures a == b
  {
    hide CashSeen, DayBegan, Highest, OrdersOn, FillsOf, NetQuantity, Interval;
    assert a.market == b.market && a.portfolio == b.portfolio;
  }

  lemma RulingUnique(config: Config, executable: Proposal, context: PolicyContext, next: Candle,
                     a: Outcome, b: Outcome)
    requires Ruled(config, executable, context, next, a) && Ruled(config, executable, context, next, b)
    ensures a == b
  {
    hide PolicyTheorems.Admissible, EvaluateProposal;
    forall order: OrderDecision
      ensures PolicyTheorems.Admissible(executable, context, order)
              <==> EvaluateProposal(executable, context) == Ok(order)
    {
      PolicyTheorems.ApprovalIff(executable, context, order);
    }
  }

  lemma OutcomeUnique(config: Config, candles: seq<Candle>, cash: int, before: History, seen: int,
                      c: nat, d: nat, proposal: Proposal, a: Outcome, b: Outcome)
    requires |before| < IntervalCount(candles) && c < 3 && d < 3
    requires Becomes(config, candles, cash, before, seen, c, proposal, a)
    requires Becomes(config, candles, cash, before, seen, d, proposal, b)
    ensures a == b
  {
    hide Asks, Ruled, Quote, BeyondLimit, Interval;
    var next := Interval(candles, |before| + 1)[c];
    var price := Quote(config.execution, proposal.side, next.open);
    assert c == d;
    if !BeyondLimit(proposal, price) {
      var executable := proposal.(limitPrice := price);
      var x :| Asks(config, candles, cash, before, seen, c, x) && Ruled(config, executable, x, next, a);
      var y :| Asks(config, candles, cash, before, seen, c, y) && Ruled(config, executable, y, next, b);
      QuestionUnique(config, candles, cash, before, seen, c, x, y);
      RulingUnique(config, executable, x, next, a, b);
    }
  }

  lemma DecisionUnique(config: Config, candles: seq<Candle>, proposals: seq<ScheduledProposal>,
                       cash: int, before: History, seen: int, a: Outcome, b: Outcome)
    requires |before| < IntervalCount(candles) && Schedule(proposals).Some?
    requires Decides(config, candles, proposals, cash, before, seen, a)
    requires Decides(config, candles, proposals, cash, before, seen, b)
    ensures a == b
  {
    hide Becomes, Schedule;
    ScheduleHolds(proposals);
    var n := |before|;
    if exists k :: 0 <= k < |proposals| && IsDue(candles, proposals, n, k) {
      var k, c :| 0 <= k < |proposals| && IsDue(candles, proposals, n, k) && 0 <= c < 3
                  && Becomes(config, candles, cash, before, seen, c, proposals[k].proposal, a);
      var l, d :| 0 <= l < |proposals| && IsDue(candles, proposals, n, l) && 0 <= d < 3
                  && Becomes(config, candles, cash, before, seen, d, proposals[l].proposal, b);
      OutcomeUnique(config, candles, cash, before, seen, c, d, proposals[k].proposal, a, b);
    }
  }

  lemma LastUnique(config: Config, candles: seq<Candle>, proposals: seq<ScheduledProposal>, cash: int,
                   before: History, a: Entry, b: Entry)
    requires |before| < IntervalCount(candles) && Schedule(proposals).Some?
    requires LastIsRight(config, candles, proposals, cash, before + [a])
    requires LastIsRight(config, candles, proposals, cash, before + [b])
    ensures a == b
  {
    OneMore(candles, cash, before, a);
    OneMore(candles, cash, before, b);
    hide Decides, CashSeen, MarkedValue, Schedule, FundingDue, Interval, NetSpend, TotalFees, Highest,
         OrdersOn, FillsOf, Funded;
    DecisionUnique(config, candles, proposals, cash, before, a.seen, a.outcome, b.outcome);
    assert a.point == b.point;
  }

  /** A run has one history, so its report is the only one that tells it. */
  lemma {:induction false} HistoryUnique(config: Config, candles: seq<Candle>,
                                         proposals: seq<ScheduledProposal>, cash: int, a: History,
                                         b: History)
    requires |a| == |b| <= IntervalCount(candles) && Schedule(proposals).Some?
    requires AllRight(config, candles, proposals, cash, a)
    requires AllRight(config, candles, proposals, cash, b)
    ensures a == b
  {
    hide LastIsRight, Schedule;
    if a != [] {
      var n := |a| - 1;
      HistoryUnique(config, candles, proposals, cash, a[..n], b[..n]);
      assert a == a[..n] + [a[n]] && b == b[..n] + [b[n]];
      LastUnique(config, candles, proposals, cash, a[..n], a[n], b[n]);
    }
  }
}
