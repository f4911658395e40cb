/** Exactly when a backtest succeeds, and with which report: its history is right and every amount along
    it is representable. */
module BacktestExact {
  import opened Arithmetic
  import opened Policy
  import opened Backtest
  import opened BacktestTheorems
  import opened BacktestHistory
  import PolicyTheorems

  // ---------------------------------------------------------------- amounts that fit

  /** Funding of the candle in the column: its notional, its payment, and cash and total after it. */
  predicate ChargeFits(candles: seq<Candle>, cash: int, before: History, column: nat)
    requires |before| < IntervalCount(candles) && column < 3
  {
    var interval, fills := Interval(candles, |before|), FillsOf(before);
    var candle, due := interval[column], FundingDue(fills, interval[..column + 1]);
    && FitsI64(TruncDiv(NetQuantity(fills, candle.symbol) * candle.close, QUANTITY_SCALE))
    && FitsI64(Payment(NetQuantity(fills, candle.symbol), candle))
    && FitsI64(CashLeft(candles, cash, before) - due)
    && FitsI64(Funded(candles, before) + due)
  }

  predicate FundingFits(candles: seq<Candle>, cash: int, before: History, count: nat)
    requires |before| < IntervalCount(candles) && count <= 3
  {
    forall column :: 0 <= column < count ==> ChargeFits(candles, cash, before, column)
  }

  /** Every mark, and every sum of cash and the marks so far. */
  predicate MarksFit(fills: seq<Fill>, interval: seq<Candle>, cash: int) {
    forall column :: 0 <= column < |interval| ==> MarkFits(fills, interval, cash, column)
  }

  predicate MarkFits(fills: seq<Fill>, interval: seq<Candle>, cash: int, column: nat)
    requires column < |interval|
  {
    var candle := interval[column];
    && FitsI64(TruncDiv(NetQuantity(fills, candle.symbol) * candle.close, QUANTITY_SCALE))
    && FitsI64(cash + MarkedValue(fills, interval[..column + 1]))
  }

  /** The fill's notional, the cash before and after its fee, the position, which a sale does not
      oversell, and the fees. */
  predicate FillFits(fills: seq<Fill>, cash: int, fill: Fill) {
    var spent := Direction(fill.side) * Notional(fill);
    && FitsI64(Notional(fill)) && FitsI64(cash - spent) && FitsI64(cash - spent - fill.fee)
    && 0 <= NetQuantity(fills + [fill], fill.symbol) <= I64_MAX
    && FitsI64(TotalFees(fills + [fill]))
  }

  predicate LastFits(candles: seq<Candle>, cash: int, history: History)
    requires 0 < |history| <= IntervalCount(candles)
  {
    var before, outcome := history[..|history| - 1], history[|history| - 1].outcome;
    var interval := Interval(candles, |before|);
    && FundingFits(candles, cash, before, 3)
    && MarksFit(FillsOf(before), interval, CashSeen(candles, cash, before))
    && (outcome.Filled? ==> FillFits(FillsOf(before), CashSeen(candles, cash, before), outcome.fill))
    && (outcome != Idle ==> MarksFit(FillsOf(history), interval, CashLeft(candles, cash, history)))
  }

  predicate AllFits(candles: seq<Candle>, cash: int, history: History)
    requires |history| <= IntervalCount(candles)
  {
    history == []
    || (AllFits(candles, cash, history[..|history| - 1]) && LastFits(candles, cash, history))
  }

  // ---------------------------------------------------------------- funding and marks

  lemma {:induction false} FundingIff(candles: seq<Candle>, schedule: map<i64, Proposal>, cash: int,
                                      history: History, ledger: Ledger, count: nat)
    requires ValidGrid(candles) && |history| < IntervalCount(candles) && count <= 3
    requires Records(candles, schedule, cash, history, ledger)
    ensures PayFunding(ledger, Interval(candles, |history|), count).Ok?
            <==> FundingFits(candles, cash, history, count)
  {
    hide ValidGrid, ChargeFits, Records, Funded, Interval, ChargeFunding, FundingDue;
    var interval := Interval(candles, |history|);
    if count > 0 {
      FundingIff(candles, schedule, cash, history, ledger, count - 1);
      if PayFunding(ledger, interval, count - 1).Ok? {
        GridIsListed(candles, |history|);
        BooksOf(candles, schedule, cash, history, ledger);
        FundingKeepsBooks(ledger, interval, count - 1, cash);
        ChargeIff(candles, cash, history, PayFunding(ledger, interval, count - 1).value, count - 1);
        assert FundingFits(candles, cash, history, count)
               <==> ChargeFits(candles, cash, history, count - 1);
      }
    }
  }

  lemma BooksOf(candles: seq<Candle>, schedule: map<i64, Proposal>, cash: int, history: History,
                ledger: Ledger)
    requires |history| <= IntervalCount(candles) && 0 < IntervalCount(candles)
    requires Records(candles, schedule, cash, history, ledger)
    ensures Books(ledger, cash) && ledger.fills == FillsOf(history)
    ensures ledger.funding == Funded(candles, history)
    ensures ledger.cash == CashLeft(candles, cash, history)
  {
    hide Remaining, CurveTells, DayTells, Highest;
    BooksFacts(ledger, cash);
  }

  lemma ChargeIff(candles: seq<Candle>, cash: int, history: History, paid: Ledger, column: nat)
    requires ValidGrid(candles) && |history| < IntervalCount(candles) && column < 3
    requires Books(paid, cash) && paid.fills == FillsOf(history)
    requires paid.funding == Funded(candles, history)
                             + FundingDue(FillsOf(history), Interval(candles, |history|)[..column])
    ensures ChargeFunding(paid, Interval(candles, |history|)[column]).Ok?
            <==> ChargeFits(candles, cash, history, column)
  {
    hide ValidGrid, Funded, LongOnly, Interval, NetSpend, TotalFees, NetQuantity, FillsOf;
    GridIsListed(candles, |history|);
    var interval := Interval(candles, |history|);
    assert interval[..column + 1][..column] == interval[..column];
    assert paid.positions[interval[column].symbol] == NetQuantity(paid.fills, interval[column].symbol);
  }

  lemma {:induction false} MarksIff(ledger: Ledger, interval: seq<Candle>, cash: int)
    requires Listed(interval) && Books(ledger, cash)
    ensures PortfolioEquity(ledger.cash, ledger.positions, interval).Ok?
            <==> MarksFit(ledger.fills, interval, ledger.cash)
  {
    hide MarkFits, NetQuantity, MarkedValue, LongOnly, NetSpend, TotalFees;
    if interval != [] {
      var n := |interval| - 1;
      MarksIff(ledger, interval[..n], cash);
      FewerMarks(ledger.fills, interval, ledger.cash);
      var last := interval[n];
      assert ledger.positions[last.symbol] == NetQuantity(ledger.fills, last.symbol);
      if PortfolioEquity(ledger.cash, ledger.positions, interval[..n]).Ok? {
        EquityIsCashPlusMarks(ledger, interval[..n], cash);
        LastMark(ledger.fills, interval, ledger.cash);
      }
    }
  }

  lemma FewerMarks(fills: seq<Fill>, interval: seq<Candle>, cash: int)
    requires interval != []
    ensures var n := |interval| - 1;
            MarksFit(fills, interval, cash)
            <==> MarksFit(fills, interval[..n], cash) && MarkFits(fills, interval, cash, n)
  {
    hide NetQuantity, MarkedValue;
    var n := |interval| - 1;
    forall column | 0 <= column < n
      ensures MarkFits(fills, interval[..n], cash, column) <==> MarkFits(fills, interval, cash, column)
    {
      assert interval[..n][..column + 1] == interval[..column + 1];
    }
  }

  lemma LastMark(fills: seq<Fill>, interval: seq<Candle>, cash: int)
    requires interval != []
    ensures var n, last := |interval| - 1, interval[|interval| - 1];
            var mark := TruncDiv(NetQuantity(fills, last.symbol) * last.close, QUANTITY_SCALE);
            MarkFits(fills, interval, cash, n)
            <==> FitsI64(mark) && FitsI64(cash + MarkedValue(fills, interval[..n]) + mark)
  {
    assert interval[..|interval|] == interval;
  }

  // ---------------------------------------------------------------- the decision

  lemma BookIff(ledger: Ledger, fill: Fill, cash: int)
    requires Books(ledger, cash) && InUniverse(fill.symbol) && fill.quantity > 0
    ensures Book(ledger, fill).Ok? <==> FillFits(ledger.fills, ledger.cash, fill)
  {
    hide LongOnly, NetSpend;
    FillsExtend(ledger.fills, fill);
    HoldingsAreLong(ledger, fill.symbol, cash);
  }

  /** Exactly when an attempt fills. */
  lemma FilledIff(config: Config, decision: Candle, next: Candle, proposal: Proposal,
                  portfolio: PortfolioState, fill: Fill)
    ensures var price := Quote(config.execution, proposal.side, next.open);
            ExecuteNextOpen(config, decision, next, proposal, portfolio) == Ok(Some(fill))
            <==> && Consecutive(decision, next, proposal) && FitsI64(price)
                 && !BeyondLimit(proposal, price)
                 && Ruled(config, proposal.(limitPrice := price),
                          SimulatedContext(config, decision, portfolio), next, Filled(fill))
  {
    hide EvaluateProposal, SimulatedContext, PolicyTheorems.Admissible;
    var price := Quote(config.execution, proposal.side, next.open);
    if ExecuteNextOpen(config, decision, next, proposal, portfolio) == Ok(Some(fill)) {
      FilledRight(config, decision, next, proposal, portfolio, fill);
    } else if Consecutive(decision, next, proposal) && FitsI64(price) && !BeyondLimit(proposal, price) {
      var executable := proposal.(limitPrice := price);
      var context := SimulatedContext(config, decision, portfolio);
      forall order: OrderDecision | PolicyTheorems.Admissible(executable, context, order)
        ensures EvaluateProposal(executable, context) == Ok(order)
        ensures order.symbol == proposal.symbol && order.side == proposal.side
      {
        PolicyTheorems.ApprovalIff(executable, context, order);
        AdmittedOrder(executable, context, order);
      }
    }
  }

  lemma AdmittedOrder(proposal: Proposal, context: PolicyContext, order: OrderDecision)
    requires PolicyTheorems.Admissible(proposal, context, order)
    ensures order.symbol == proposal.symbol && order.side == proposal.side && order.quantity > 0
    ensures InUniverse(order.symbol)
  {
    PolicyTheorems.SizedIsPositive(proposal, context, order.quantity, order.actualNotional);
  }

  lemma GridIsConsecutive(candles: seq<Candle>, index: nat, column: nat, proposal: Proposal)
    requires ValidGrid(candles) && index + 1 < IntervalCount(candles) && column < 3
    requires proposal.symbol == [BTC, ETH, SOL][column]
    ensures Consecutive(Interval(candles, index)[column], Interval(candles, index + 1)[column], proposal)
  {
    assert OnGrid(candles, index, column) && OnGrid(candles, index + 1, column);
    assert OnGrid(candles, index, 0) && OnGrid(candles, index + 1, 0);
  }

  predicate OutcomeFits(fills: seq<Fill>, cash: int, outcome: Outcome) {
    outcome.Filled? ==> FillFits(fills, cash, outcome.fill)
  }

  /** An attempt whose proposal becomes something that fits succeeds. */
  lemma {:induction false} AttemptSucceeds(config: Config, candles: seq<Candle>, cash: int,
                                           history: History, taken: Ledger, equity: i64, column: nat,
                                           proposal: Proposal, outcome: Outcome)
    requires ValidGrid(candles) && |history| < IntervalCount(candles) && column < 3
    requires Books(taken, cash) && taken.fills == FillsOf(history)
    requires Sees(candles, cash, history, taken, equity) && equity <= taken.peakEquity
    requires Becomes(config, candles, cash, history, equity, column, proposal, outcome)
    requires OutcomeFits(taken.fills, taken.cash, outcome)
    requires MarksFit(taken.fills, Interval(candles, |history|), taken.cash)
    ensures |history| + 1 < IntervalCount(candles) && proposal.symbol == [BTC, ETH, SOL][column]
    ensures Attempt(config, taken, equity, Interval(candles, |history|)[column],
                    Interval(candles, |history| + 1)[column], proposal).Ok?
  {
    hide ExecuteNextOpen, Book, EvaluateProposal, ValidGrid, CashSeen, Sees, Asks, FillsOf, Ruled, FillFits,
         SimulatedContext, PolicyTheorems.Admissible, Interval, NetQuantity, NetSpend, LongOnly, TotalFees;
    var decision, next := Interval(candles, |history|)[column], Interval(candles, |history| + 1)[column];
    assert decision.symbol == proposal.symbol by { GridSymbol(candles, |history|, column); }
    GridIsConsecutive(candles, |history|, column, proposal);
    assert MarkFits(taken.fills, Interval(candles, |history|), taken.cash, column);
    assert taken.positions[proposal.symbol] == NetQuantity(taken.fills, proposal.symbol);
    var position := PositionNotional(taken.positions[proposal.symbol], decision.close).value;
    var portfolio := DecisionPortfolio(taken, equity, position);
    AsksIt(config, candles, cash, history, taken, equity, column, position);
    hide Books, MarkFits;
    var price := Quote(config.execution, proposal.side, next.open);
    PassedIff(config, decision, next, proposal, portfolio);
    if !BeyondLimit(proposal, price) {
      var executable := proposal.(limitPrice := price);
      var context :| Asks(config, candles, cash, history, equity, column, context)
                     && Ruled(config, executable, context, next, outcome);
      QuestionUnique(config, candles, cash, history, equity, column, context,
                     SimulatedContext(config, decision, portfolio));
      ExecutedAsRuled(config, decision, next, proposal, portfolio, outcome);
      if outcome.Filled? {
        BookIff(taken, outcome.fill, cash);
      }
    }
  }

  /** What the policy rules is what the attempt at the next open returns. */
  lemma ExecutedAsRuled(config: Config, decision: Candle, next: Candle, proposal: Proposal,
                        portfolio: PortfolioState, outcome: Outcome)
    requires var price := Quote(config.execution, proposal.side, next.open);
             && Consecutive(decision, next, proposal) && FitsI64(price)
             && !BeyondLimit(proposal, price)
             && Ruled(config, proposal.(limitPrice := price),
                      SimulatedContext(config, decision, portfolio), next, outcome)
    ensures var executed := ExecuteNextOpen(config, decision, next, proposal, portfolio);
            match outcome
            case Filled(fill) =>
              executed == Ok(Some(fill)) && fill.quantity > 0 && InUniverse(fill.symbol)
            case Refused => executed.Err? && executed.error.Rejected?
            case _ => false
  {
    hide ExecuteNextOpen, EvaluateProposal, PolicyTheorems.Admissible, SimulatedContext;
    RefusedIff(config, decision, next, proposal, portfolio);
    if outcome.Filled? {
      FilledIff(config, decision, next, proposal, portfolio, outcome.fill);
      var executable := proposal.(limitPrice := Quote(config.execution, proposal.side, next.open));
      var context := SimulatedContext(config, decision, portfolio);
      var order :| PolicyTheorems.Admissible(executable, context, order)
                   && FillsOrder(config, next, executable.limitPrice, order, outcome.fill);
      AdmittedOrder(executable, context, order);
    }
  }

  /** Conversely, an attempt that succeeds has booked a fill that fits. */
  lemma AttemptedFits(config: Config, taken: Ledger, equity: i64, decision: Candle, next: Candle,
                      proposal: Proposal, outcome: Outcome, cash: int)
    requires Books(taken, cash) && equity <= taken.peakEquity
    requires Attempt(config, taken, equity, decision, next, proposal).Ok?
    requires Traded(taken, outcome, Attempt(config, taken, equity, decision, next, proposal).value)
    ensures OutcomeFits(taken.fills, taken.cash, outcome)
  {
    hide ExecuteNextOpen, Book, EvaluateProposal, FillFits, Books, RiskRespected;
    var quantity := taken.positions[proposal.symbol];
    var position := PositionNotional(quantity, decision.close).value;
    var portfolio := DecisionPortfolio(taken, equity, position);
    var executed := ExecuteNextOpen(config, decision, next, proposal, portfolio);
    if outcome.Filled? && executed.Ok? && executed.value.Some? {
      var fill := executed.value.value;
      FillIsTheApprovedOrder(config, decision, next, proposal, portfolio, fill);
      BookIff(taken, fill, cash);
      BookingKeepsBooks(taken, fill, cash);
      assert taken.fills + [outcome.fill] == taken.fills + [fill];
      assert (taken.fills + [outcome.fill])[|taken.fills|] == outcome.fill;
    }
  }

  /** What a decision leaves can be marked. */
  predicate LeavesFit(fills: seq<Fill>, interval: seq<Candle>, cash: int, outcome: Outcome) {
    outcome != Idle ==> MarksFit(fills, interval, cash)
  }

  /** The proposal that is due is the one still scheduled. */
  lemma {:induction false} DueIsScheduled(candles: seq<Candle>, proposals: seq<ScheduledProposal>,
                                          index: nat, left: map<i64, Proposal>, k: nat)
    requires ValidGrid(candles) && index < IntervalCount(candles) && Schedule(proposals).Some?
    requires Remaining(candles, Schedule(proposals).value, index, left)
    requires k < |proposals| && IsDue(candles, proposals, index, k)
    ensures candles[3 * index].openTime in left
    ensures left[candles[3 * index].openTime] == proposals[k].proposal
  {
    hide ValidGrid;
    DueIsLeft(candles, proposals, index, left);
    ScheduleHolds(proposals);
  }

  /** A decision whose outcome fits, and leaves what can be marked, succeeds. */
  lemma DecideSucceeds(config: Config, candles: seq<Candle>, proposals: seq<ScheduledProposal>,
                       cash: int, history: History, begun: Ledger, equity: i64, outcome: Outcome,
                       point: int)
    requires ValidGrid(candles) && |history| < IntervalCount(candles) && Schedule(proposals).Some?
    requires Books(begun, cash) && begun.fills == FillsOf(history)
    requires begun.funding == Funded(candles, history)
                              + FundingDue(FillsOf(history), Interval(candles, |history|))
    requires Sees(candles, cash, history, begun, equity) && equity <= begun.peakEquity
    requires Remaining(candles, Schedule(proposals).value, |history|, begun.scheduled)
    requires Decides(config, candles, proposals, cash, history, equity, outcome)
    requires OutcomeFits(begun.fills, begun.cash, outcome)
    requires MarksFit(begun.fills, Interval(candles, |history|), begun.cash)
    requires var longer := history + [Entry(equity, outcome, point)];
             LeavesFit(FillsOf(longer), Interval(candles, |history|), CashLeft(candles, cash, longer),
                       outcome)
    ensures Decide(config, begun, equity, Interval(candles, |history|),
                   NextInterval(candles, |history|)).Ok?
  {
    hide Attempt, PortfolioEquity, ValidGrid, CashSeen, CashLeft, Sees, Books, FillsOf, Becomes,
         Remaining, Interval, MarkedValue, IsDue, Listed, MarksFit, FillFits, Schedule;
    var n, interval := |history|, Interval(candles, |history|);
    var at := interval[0].openTime;
    assert at == candles[3 * n].openTime by { IntervalOpens(candles, n); }
    DueIsLeft(candles, proposals, n, begun.scheduled);
    if at in begun.scheduled {
      var k, column :| 0 <= k < |proposals| && IsDue(candles, proposals, n, k) && 0 <= column < 3
                       && Becomes(config, candles, cash, history, equity, column,
                                  proposals[k].proposal, outcome);
      DueIsScheduled(candles, proposals, n, begun.scheduled, k);
      var proposal, taken := begun.scheduled[at], begun.(scheduled := begun.scheduled - {at});
      StillSees(candles, cash, history, begun, taken, equity);
      AttemptSucceeds(config, candles, cash, history, taken, equity, column, proposal, outcome);
      assert SymbolIndex(proposal.symbol) == Some(column);
      BecomesSomething(config, candles, cash, history, equity, column, proposal, outcome);
      AttemptLeaves(config, candles, cash, history, taken, equity, column, proposal, outcome, point);
    }
  }

  lemma BecomesSomething(config: Config, candles: seq<Candle>, cash: int, history: History, seen: int,
                         column: nat, proposal: Proposal, outcome: Outcome)
    requires |history| < IntervalCount(candles) && column < 3
    requires Becomes(config, candles, cash, history, seen, column, proposal, outcome)
    ensures outcome != Idle && |history| + 1 < IntervalCount(candles)
  {
    hide Asks, PolicyTheorems.Admissible, Quote, BeyondLimit;
  }

  /** What an attempt leaves can be marked exactly when its amounts fit. */
  lemma AttemptLeaves(config: Config, candles: seq<Candle>, cash: int, history: History, taken: Ledger,
                      equity: i64, column: nat, proposal: Proposal, outcome: Outcome, point: int)
    requires ValidGrid(candles) && |history| + 1 < IntervalCount(candles) && column < 3
    requires proposal.symbol == [BTC, ETH, SOL][column]
    requires Books(taken, cash) && taken.fills == FillsOf(history)
    requires taken.funding == Funded(candles, history)
                              + FundingDue(FillsOf(history), Interval(candles, |history|))
    requires Sees(candles, cash, history, taken, equity) && equity <= taken.peakEquity
    requires Becomes(config, candles, cash, history, equity, column, proposal, outcome)
    requires Attempt(config, taken, equity, Interval(candles, |history|)[column],
                     Interval(candles, |history| + 1)[column], proposal).Ok?
    ensures var traded := Attempt(config, taken, equity, Interval(candles, |history|)[column],
                                  Interval(candles, |history| + 1)[column], proposal).value;
            var longer := history + [Entry(equity, outcome, point)];
            PortfolioEquity(traded.cash, traded.positions, Interval(candles, |history|)).Ok?
            <==> MarksFit(FillsOf(longer), Interval(candles, |history|), CashLeft(candles, cash, longer))
  {
    hide Attempt, PortfolioEquity, ValidGrid, CashSeen, Sees, Books, FillsOf, Becomes, Interval, Funded,
         FundingDue, NetSpend, TotalFees, Listed, MarksFit, Highest, OrdersOn;
    var entry := Entry(equity, outcome, point);
    var traded := Attempt(config, taken, equity, Interval(candles, |history|)[column],
                          Interval(candles, |history| + 1)[column], proposal).value;
    var became := AttemptBecomes(config, candles, cash, history, taken, equity, column, proposal);
    OutcomeUnique(config, candles, cash, history, equity, column, column, proposal, outcome, became);
    OneMore(candles, cash, history, entry);
    BooksFacts(traded, cash);
    GridIsListed(candles, |history|);
    MarksIff(traded, Interval(candles, |history|), cash);
    assert traded.cash == CashLeft(candles, cash, history + [entry]);
  }

  /** Conversely, a decision that succeeds fits. */
  lemma DecidedFits(config: Config, candles: seq<Candle>, proposals: seq<ScheduledProposal>, cash: int,
                    history: History, begun: Ledger, equity: i64, outcome: Outcome, point: int)
    requires ValidGrid(candles) && |history| < IntervalCount(candles) && Schedule(proposals).Some?
    requires Books(begun, cash) && begun.fills == FillsOf(history)
    requires begun.funding == Funded(candles, history)
                              + FundingDue(FillsOf(history), Interval(candles, |history|))
    requires Sees(candles, cash, history, begun, equity) && equity <= begun.peakEquity
    requires Remaining(candles, Schedule(proposals).value, |history|, begun.scheduled)
    requires Decides(config, candles, proposals, cash, history, equity, outcome)
    requires Decide(config, begun, equity, Interval(candles, |history|),
                    NextInterval(candles, |history|)).Ok?
    ensures OutcomeFits(begun.fills, begun.cash, outcome)
    ensures var longer := history + [Entry(equity, outcome, point)];
            LeavesFit(FillsOf(longer), Interval(candles, |history|), CashLeft(candles, cash, longer),
                      outcome)
  {
    hide Attempt, PortfolioEquity, ValidGrid, CashSeen, CashLeft, Sees, Books, FillsOf, Becomes,
         Remaining, Interval, MarkedValue, IsDue, Listed, MarksFit, FillFits, Schedule;
    var n, interval := |history|, Interval(candles, |history|);
    var at := interval[0].openTime;
    assert at == candles[3 * n].openTime by { IntervalOpens(candles, n); }
    DueIsLeft(candles, proposals, n, begun.scheduled);
    if at in begun.scheduled {
      var k, column :| 0 <= k < |proposals| && IsDue(candles, proposals, n, k) && 0 <= column < 3
                       && Becomes(config, candles, cash, history, equity, column,
                                  proposals[k].proposal, outcome);
      DueIsScheduled(candles, proposals, n, begun.scheduled, k);
      var proposal, taken := begun.scheduled[at], begun.(scheduled := begun.scheduled - {at});
      StillSees(candles, cash, history, begun, taken, equity);
      BecomesFor(config, candles, cash, history, equity, column, proposal, outcome);
      var became := AttemptBecomes(config, candles, cash, history, taken, equity, column, proposal);
      OutcomeUnique(config, candles, cash, history, equity, column, column, proposal, outcome, became);
      AttemptLeaves(config, candles, cash, history, taken, equity, column, proposal, outcome, point);
      AttemptedFits(config, taken, equity, interval[column], Interval(candles, n + 1)[column], proposal,
                    outcome, cash);
    }
  }

  lemma BecomesFor(config: Config, candles: seq<Candle>, cash: int, history: History, seen: int,
                   column: nat, proposal: Proposal, outcome: Outcome)
    requires |history| < IntervalCount(candles) && column < 3
    requires Becomes(config, candles, cash, history, seen, column, proposal, outcome)
    ensures proposal.symbol == [BTC, ETH, SOL][column] && SymbolIndex(proposal.symbol) == Some(column)
    ensures |history| + 1 < IntervalCount(candles)
  {
    hide Asks, Ruled, Quote, BeyondLimit;
  }

  // ---------------------------------------------------------------- one interval

  lemma OpeningIff(candles: seq<Candle>, schedule: map<i64, Proposal>, cash: int, history: History,
                   ledger: Ledger)
    requires ValidGrid(candles) && |history| < IntervalCount(candles)
    requires Records(candles, schedule, cash, history, ledger)
    ensures OpenInterval(ledger, Interval(candles, |history|)).Ok?
            <==> && FundingFits(candles, cash, history, 3)
                 && MarksFit(FillsOf(history), Interval(candles, |history|),
                             CashSeen(candles, cash, history))
  {
    hide ValidGrid, Records, Interval, PayFunding, FundingDue, Funded, FundingFits, MarksFit,
         PortfolioEquity, NetSpend, TotalFees, FillsOf, Listed, Books;
    var interval := Interval(candles, |history|);
    FundingIff(candles, schedule, cash, history, ledger, 3);
    if PayFunding(ledger, interval, 3).Ok? {
      GridIsListed(candles, |history|);
      BooksOf(candles, schedule, cash, history, ledger);
      FundingKeepsBooks(ledger, interval, 3, cash);
      assert interval[..3] == interval;
      var paid := PayFunding(ledger, interval, 3).value;
      MarksIff(paid, interval, cash);
      BooksFacts(paid, cash);
      assert paid.cash == CashSeen(candles, cash, history);
    }
  }

  /** An interval succeeds exactly when the amounts of its right entry fit. */
  lemma StepSucceeds(config: Config, candles: seq<Candle>, proposals: seq<ScheduledProposal>, cash: int,
                     history: History, ledger: Ledger, entry: Entry)
    requires ValidGrid(candles) && |history| < IntervalCount(candles) && Schedule(proposals).Some?
    requires Records(candles, Schedule(proposals).value, cash, history, ledger)
    requires LastIsRight(config, candles, proposals, cash, history + [entry])
    requires LastFits(candles, cash, history + [entry])
    ensures Step(config, ledger, Interval(candles, |history|), NextInterval(candles, |history|)).Ok?
  {
    hide OpenInterval, Decide, ValidGrid, Decides, Remaining, MarkedValue, Books, Interval, Funded,
         FundingDue, FillsOf, Refusals, Highest, DayTells, CurveTells, Schedule, CashLeft, CashSeen,
         MarksFit, FillFits, FundingFits, DayBegan, OrdersOn, Day;
    var interval, schedule := Interval(candles, |history|), Schedule(proposals).value;
    assert (history + [entry])[..|history|] == history;
    OpeningIff(candles, schedule, cash, history, ledger);
    var (begun, equity) := OpenInterval(ledger, interval).value;
    OpeningRecords(candles, schedule, cash, history, ledger);
    assert equity == entry.seen;
    DecideSucceeds(config, candles, proposals, cash, history, begun, equity, entry.outcome, entry.point);
  }

  lemma StepFits(config: Config, candles: seq<Candle>, proposals: seq<ScheduledProposal>, cash: int,
                 history: History, ledger: Ledger, entry: Entry)
    requires ValidGrid(candles) && |history| < IntervalCount(candles) && Schedule(proposals).Some?
    requires Records(candles, Schedule(proposals).value, cash, history, ledger)
    requires LastIsRight(config, candles, proposals, cash, history + [entry])
    requires Step(config, ledger, Interval(candles, |history|), NextInterval(candles, |history|)).Ok?
    ensures LastFits(candles, cash, history + [entry])
  {
    hide OpenInterval, Decide, ValidGrid, Decides, Remaining, MarkedValue, Books, Interval, Funded,
         FundingDue, FillsOf, Refusals, Highest, DayTells, CurveTells, Schedule, CashLeft, CashSeen,
         MarksFit, FillFits, FundingFits, DayBegan, OrdersOn, Day;
    var interval, schedule := Interval(candles, |history|), Schedule(proposals).value;
    assert (history + [entry])[..|history|] == history;
    OpeningIff(candles, schedule, cash, history, ledger);
    var (begun, equity) := OpenInterval(ledger, interval).value;
    OpeningRecords(candles, schedule, cash, history, ledger);
    assert equity == entry.seen;
    DecidedFits(config, candles, proposals, cash, history, begun, equity, entry.outcome, entry.point);
  }

  // ---------------------------------------------------------------- the whole run

  lemma {:induction false} RightThrough(config: Config, candles: seq<Candle>,
                                        proposals: seq<ScheduledProposal>, cash: int, history: History,
                                        count: nat)
    requires count <= |history| <= IntervalCount(candles)
    requires AllRight(config, candles, proposals, cash, history)
    ensures AllRight(config, candles, proposals, cash, history[..count])
    ensures AllFits(candles, cash, history) ==> AllFits(candles, cash, history[..count])
    decreases |history|
  {
    hide LastIsRight, LastFits;
    if count < |history| {
      var n := |history| - 1;
      RightThrough(config, candles, proposals, cash, history[..n], count);
      assert history[..n][..count] == history[..count];
    } else {
      assert history[..count] == history;
    }
  }

  lemma {:induction false} RunSucceeds(config: Config, candles: seq<Candle>,
                                       proposals: seq<ScheduledProposal>, cash: i64, history: History,
                                       count: nat)
    requires ValidInput(candles, proposals, cash) && count <= |history| <= IntervalCount(candles)
    requires AllRight(config, candles, proposals, cash, history) && AllFits(candles, cash, history)
    ensures After(config, candles, Start(candles, proposals, cash), count).Ok?
  {
    hide Step, ValidGrid, Records, LastIsRight, LastFits, Schedule, AllRight, AllFits, Start;
    if count > 0 {
      RunSucceeds(config, candles, proposals, cash, history, count - 1);
      var before := HistoryThrough(config, candles, proposals, cash, count - 1);
      RightThrough(config, candles, proposals, cash, history, count - 1);
      RightThrough(config, candles, proposals, cash, history, count);
      HistoryUnique(config, candles, proposals, cash, before, history[..count - 1]);
      LastOf(config, candles, proposals, cash, history[..count]);
      assert history[..count] == before + [history[count - 1]];
      StepSucceeds(config, candles, proposals, cash, before,
                   After(config, candles, Start(candles, proposals, cash), count - 1).value,
                   history[count - 1]);
    }
  }

  lemma LastOf(config: Config, candles: seq<Candle>, proposals: seq<ScheduledProposal>, cash: int,
               history: History)
    requires 0 < |history| <= IntervalCount(candles)
    requires AllRight(config, candles, proposals, cash, history) && AllFits(candles, cash, history)
    ensures LastIsRight(config, candles, proposals, cash, history) && LastFits(candles, cash, history)
  {
    hide LastIsRight, LastFits;
  }

  lemma {:induction false} RunFits(config: Config, candles: seq<Candle>,
                                   proposals: seq<ScheduledProposal>, cash: i64, history: History,
                                   count: nat)
    requires ValidInput(candles, proposals, cash) && count == |history| <= IntervalCount(candles)
    requires AllRight(config, candles, proposals, cash, history)
    requires After(config, candles, Start(candles, proposals, cash), count).Ok?
    ensures AllFits(candles, cash, history)
    decreases count
  {
    hide Step, ValidGrid, Records, LastIsRight, LastFits, Schedule, Start;
    if count > 0 {
      var before, n := history[..count - 1], count - 1;
      RunFits(config, candles, proposals, cash, before, n);
      var kept := HistoryThrough(config, candles, proposals, cash, n);
      HistoryUnique(config, candles, proposals, cash, before, kept);
      assert history == before + [history[n]];
      StepFits(config, candles, proposals, cash, before,
               After(config, candles, Start(candles, proposals, cash), n).value, history[n]);
    }
  }

  // ---------------------------------------------------------------- acceptable input

  /** The candle in the column of the interval: its asset, and its quarter of an hour counted from the
      first one. */
  predicate InPlace(candles: seq<Candle>, index: nat, column: nat)
    requires index < IntervalCount(candles) && column < 3
  {
    var candle, opens := candles[3 * index + column], candles[0].openTime + index * 900_000;
    && candle.symbol == [BTC, ETH, SOL][column] && candle.sizeDecimals <= 8
    && candle.openTime == opens && candle.closeTime == opens + 899_999
  }

  /** Positive cash, at least two whole intervals in place, and no two proposals for one time. */
  predicate Acceptable(candles: seq<Candle>, proposals: seq<ScheduledProposal>, cash: i64) {
    && cash > 0 && |candles| >= 6 && |candles| % 3 == 0
    && (forall index: nat, column: nat {:trigger InPlace(candles, index, column)} ::
          index < IntervalCount(candles) && column < 3 ==> InPlace(candles, index, column))
    && forall i, j :: 0 <= i < j < |proposals| ==>
         proposals[i].decisionOpenTime != proposals[j].decisionOpenTime
  }

  lemma AcceptableIff(candles: seq<Candle>, proposals: seq<ScheduledProposal>, cash: i64)
    ensures ValidInput(candles, proposals, cash) <==> Acceptable(candles, proposals, cash)
  {
    hide OnGrid, InPlace, Schedule;
    ScheduleIff(proposals);
    if ValidGrid(candles) {
      forall index: nat, column: nat | index < IntervalCount(candles) && column < 3
        ensures InPlace(candles, index, column)
      {
        GridInPlace(candles, index, column);
      }
    }
    if Acceptable(candles, proposals, cash) {
      forall index: nat, column: nat | index < IntervalCount(candles) && column < 3
        ensures OnGrid(candles, index, column)
      {
        PlacedOnGrid(candles, index, column);
      }
    }
  }

  lemma GridInPlace(candles: seq<Candle>, index: nat, column: nat)
    requires ValidGrid(candles) && index < IntervalCount(candles) && column < 3
    ensures InPlace(candles, index, column)
  {
    OpenTimes(candles, index);
    assert OnGrid(candles, index, column);
  }

  lemma PlacedOnGrid(candles: seq<Candle>, index: nat, column: nat)
    requires index < IntervalCount(candles) && column < 3
    requires InPlace(candles, index, column) && InPlace(candles, index, 0)
    requires index > 0 ==> InPlace(candles, index - 1, column)
    ensures OnGrid(candles, index, column)
  {
  }

  lemma {:induction false} ScheduleIff(proposals: seq<ScheduledProposal>)
    ensures Schedule(proposals).Some?
            <==> forall i, j :: 0 <= i < j < |proposals| ==>
                   proposals[i].decisionOpenTime != proposals[j].decisionOpenTime
  {
    if proposals != [] {
      var n := |proposals| - 1;
      var before := proposals[..n];
      ScheduleIff(before);
      if Schedule(before).Some? {
        ScheduleHolds(before);
        if proposals[n].decisionOpenTime in Schedule(before).value {
          var k :| 0 <= k < n && before[k].decisionOpenTime == proposals[n].decisionOpenTime;
          assert proposals[k].decisionOpenTime == proposals[n].decisionOpenTime;
        } else {
          assert forall i :: 0 <= i < n ==> before[i].decisionOpenTime in Schedule(before).value;
        }
      } else {
        var i, j :| 0 <= i < j < n && before[i].decisionOpenTime == before[j].decisionOpenTime;
        assert proposals[i].decisionOpenTime == proposals[j].decisionOpenTime;
      }
    }
  }

  /** The history of a run, whose amounts fit, and its report. */
  ghost predicate Explains(config: Config, candles: seq<Candle>, proposals: seq<ScheduledProposal>,
                           cash: i64, history: History, report: Report)
    requires IntervalCount(candles) > 0
  {
    && IsHistory(config, candles, proposals, cash, history)
    && AllFits(candles, cash, history) && Tells(candles, cash, history, report)
  }

  /** A backtest succeeds, with just this report, exactly when its input is acceptable and it has a history
      whose amounts fit and which the report tells. */
  lemma SimulatesIff(config: Config, candles: seq<Candle>, proposals: seq<ScheduledProposal>, cash: i64,
                     report: Report)
    ensures Simulate(config, candles, proposals, cash) == Ok(report)
            <==> && Acceptable(candles, proposals, cash)
                 && exists history :: Explains(config, candles, proposals, cash, history, report)
  {
    AcceptableIff(candles, proposals, cash);
    hide ValidGrid, IsHistory, AllFits, Tells, After, Schedule, Close, Start, InPlace;
    if Simulate(config, candles, proposals, cash) == Ok(report) {
      var history := EveryRunHasItsHistory(config, candles, proposals, cash, report);
      HistoryIsRight(config, candles, proposals, cash, history);
      RunFits(config, candles, proposals, cash, history, |history|);
      assert Explains(config, candles, proposals, cash, history, report);
    }
    if ValidInput(candles, proposals, cash)
       && exists history :: Explains(config, candles, proposals, cash, history, report) {
      var history :| Explains(config, candles, proposals, cash, history, report);
      ExplainedSucceeds(config, candles, proposals, cash, history, report);
    }
  }

  lemma HistoryIsRight(config: Config, candles: seq<Candle>, proposals: seq<ScheduledProposal>,
                       cash: int, history: History)
    requires IsHistory(config, candles, proposals, cash, history)
    ensures |history| == IntervalCount(candles)
    ensures AllRight(config, candles, proposals, cash, history)
  {
    hide AllRight, IsMet;
  }

  lemma ExplainedSucceeds(config: Config, candles: seq<Candle>, proposals: seq<ScheduledProposal>,
                          cash: i64, history: History, report: Report)
    requires ValidInput(candles, proposals, cash)
    requires Explains(config, candles, proposals, cash, history, report)
    ensures Simulate(config, candles, proposals, cash) == Ok(report)
  {
    hide ValidGrid, AllRight, AllFits, Tells, After, Schedule, Close, Start, IsMet;
    var count := IntervalCount(candles);
    RunSucceeds(config, candles, proposals, cash, history, count);
    CloseSucceeds(config, candles, proposals, cash, history);
    var other := Simulate(config, candles, proposals, cash).value;
    var again := EveryRunHasItsHistory(config, candles, proposals, cash, other);
    HistoryIsRight(config, candles, proposals, cash, again);
    HistoryUnique(config, candles, proposals, cash, history, again);
    ToldOnce(candles, cash, history, report, other);
  }

  lemma ToldOnce(candles: seq<Candle>, cash: int, history: History, a: Report, b: Report)
    requires |history| == IntervalCount(candles) > 0
    requires Tells(candles, cash, history, a) && Tells(candles, cash, history, b)
    ensures a == b
  {
    hide FillsOf, Funded, CashLeft, MarkedValue, Refusals, TotalFees, Interval;
    assert a.equityCurve == b.equityCurve;
  }

  lemma CloseSucceeds(config: Config, candles: seq<Candle>, proposals: seq<ScheduledProposal>,
                      cash: i64, history: History)
    requires ValidInput(candles, proposals, cash)
    requires IsHistory(config, candles, proposals, cash, history) && AllFits(candles, cash, history)
    requires After(config, candles, Start(candles, proposals, cash), IntervalCount(candles)).Ok?
    ensures Close(candles, After(config, candles, Start(candles, proposals, cash),
                                 IntervalCount(candles)).value).Ok?
  {
    hide ValidGrid, AllRight, After, Schedule, Start, PortfolioEquity, MarksFit, Books, FillsOf, CashLeft,
         Funded, Remaining, Refusals, Highest, CurveTells, DayTells, LastFits, IsMet, LastIsRight;
    var count := IntervalCount(candles);
    var ledger := After(config, candles, Start(candles, proposals, cash), count).value;
    var kept := HistoryThrough(config, candles, proposals, cash, count);
    HistoryUnique(config, candles, proposals, cash, history, kept);
    BooksOf(candles, Schedule(proposals).value, cash, history, ledger);
    GridIsListed(candles, count - 1);
    MarksIff(ledger, Interval(candles, count - 1), cash);
    LastOf(config, candles, proposals, cash, history);
    LeavesMarked(candles, cash, history);
    NothingLeft(candles, proposals, count, ledger.scheduled);
  }

  lemma NothingLeft(candles: seq<Candle>, proposals: seq<ScheduledProposal>, count: nat,
                    left: map<i64, Proposal>)
    requires count <= IntervalCount(candles) && Schedule(proposals).Some?
    requires Remaining(candles, Schedule(proposals).value, count, left)
    requires forall k :: 0 <= k < |proposals| ==> IsMet(candles, proposals, count, k)
    ensures left == map[]
  {
    ScheduleHolds(proposals);
    hide Schedule;
    forall time | time in Schedule(proposals).value ensures time !in left {
      var k :| 0 <= k < |proposals| && proposals[k].decisionOpenTime == time;
      assert IsMet(candles, proposals, count, k);
      var index :| 0 <= index < count && IsDue(candles, proposals, index, k);
      assert candles[3 * index].openTime == time;
    }
    assert left.Keys == {};
  }

  /** Whatever the outcome, what an interval leaves can be marked. */
  lemma LeavesMarked(candles: seq<Candle>, cash: int, history: History)
    requires 0 < |history| <= IntervalCount(candles) && LastFits(candles, cash, history)
    ensures MarksFit(FillsOf(history), Interval(candles, |history| - 1), CashLeft(candles, cash, history))
  {
    hide MarksFit, FillFits, FundingFits, FundingDue, NetSpend, TotalFees, Interval;
    var before := history[..|history| - 1];
    if history[|history| - 1].outcome == Idle {
      assert FillsOf(history) == FillsOf(before);
    }
  }
}
