/** The backtest loop itself, updating its locals interval by interval, proved to compute
    `Backtest.Simulate`. */
module BacktestEngine {
  import opened Arithmetic
  import opened Policy
  import opened Backtest
  import BacktestTheorems

  lemma {:induction false} ScheduleFails(proposals: seq<ScheduledProposal>, count: nat)
    requires count <= |proposals| && Schedule(proposals[..count]).None?
    ensures Schedule(proposals).None?
    decreases |proposals| - count
  {
    if count < |proposals| {
      assert proposals[..count + 1][..count] == proposals[..count];
      ScheduleFails(proposals, count + 1);
    } else {
      assert proposals[..count] == proposals;
    }
  }

  lemma {:induction false} FailureStays(config: Config, candles: seq<Candle>, start: Ledger, count: nat,
                                        total: nat)
    requires count <= total <= IntervalCount(candles)
    requires After(config, candles, start, count).Err?
    ensures After(config, candles, start, total) == After(config, candles, start, count)
    decreases total
  {
    hide Step;
    if count < total {
      FailureStays(config, candles, start, count, total - 1);
    }
  }

  class Engine {
    const rules: RiskRules
    const execution: Execution

    constructor (rules: RiskRules, execution: Execution)
      ensures this.rules == rules && this.execution == execution
    {
      this.rules := rules;
      this.execution := execution;
    }

    function Configured(): Config {
      Config(rules, execution)
    }

    method CheckGrid(candles: seq<Candle>) returns (valid: bool)
      ensures valid <==> ValidGrid(candles)
    {
      for index := 0 to IntervalCount(candles)
        invariant forall i: nat, c: nat {:trigger OnGrid(candles, i, c)} ::
          i < index && c < 3 ==> OnGrid(candles, i, c)
      {
        for column := 0 to 3
          invariant forall c: nat {:trigger OnGrid(candles, index, c)} ::
            c < column ==> OnGrid(candles, index, c)
        {
          if !OnGrid(candles, index, column) {
            return false;
          }
        }
      }
      return true;
    }

    method BuildSchedule(proposals: seq<ScheduledProposal>)
      returns (scheduled: Option<map<i64, Proposal>>)
      ensures scheduled == Schedule(proposals)
    {
      var entries: map<i64, Proposal> := map[];
      for i := 0 to |proposals|
        invariant Schedule(proposals[..i]) == Some(entries)
      {
        assert proposals[..i + 1][..i] == proposals[..i];
        if proposals[i].decisionOpenTime in entries {
          ScheduleFails(proposals, i + 1);
          return None;
        }
        entries := entries[proposals[i].decisionOpenTime := proposals[i].proposal];
      }
      assert proposals[..|proposals|] == proposals;
      return Some(entries);
    }

    /** Debits the three candles' funding in turn. */
    method Fund(ledger: Ledger, interval: seq<Candle>)
      returns (paid: Result<Ledger, BacktestError>)
      requires |interval| == 3
      ensures paid == PayFunding(ledger, interval, 3)
    {
      hide ChargeFunding;
      var current := ledger;
      for column := 0 to 3
        invariant PayFunding(ledger, interval, column) == Ok(current)
      {
        var charged := ChargeFunding(current, interval[column]);
        if charged.Err? {
          FundingFailureStays(ledger, interval, column + 1);
          return charged;
        }
        current := charged.value;
      }
      return Ok(current);
    }

    static lemma {:induction false} FundingFailureStays(ledger: Ledger, interval: seq<Candle>, count: nat)
      requires count <= |interval| == 3 && PayFunding(ledger, interval, count).Err?
      ensures PayFunding(ledger, interval, 3) == PayFunding(ledger, interval, count)
      decreases 3 - count
    {
      if count < 3 {
        FundingFailureStays(ledger, interval, count + 1);
      }
    }

    method RunSynchronizedProposals(candles: seq<Candle>, proposals: seq<ScheduledProposal>,
                                    startingCash: i64)
      returns (report: Result<Report, BacktestError>)
      ensures report == Simulate(Configured(), candles, proposals, startingCash)
    {
      hide Step, OnGrid, Decide, OpenInterval, Roll, PayFunding, PortfolioEquity, Start;
      if startingCash <= 0 || |candles| < 6 || |candles| % 3 != 0 {
        return Err(CandleOrder);
      }
      var onGrid := CheckGrid(candles);
      if !onGrid {
        return Err(CandleOrder);
      }
      var scheduled := BuildSchedule(proposals);
      if scheduled.None? {
        return Err(CandleOrder);
      }
      var ledger := Start(candles, proposals, startingCash);
      var count := IntervalCount(candles);
      for index := 0 to count
        invariant After(Configured(), candles, Start(candles, proposals, startingCash), index)
                  == Ok(ledger)
      {
        var stepped := RunInterval(ledger, Interval(candles, index), NextInterval(candles, index));
        if stepped.Err? {
          FailureStays(Configured(), candles, Start(candles, proposals, startingCash),
                       index + 1, count);
          return Err(stepped.error);
        }
        ledger := stepped.value;
      }
      return Close(candles, ledger);
    }

    /** One pass of the main loop: funding, marking, day reset, decision, equity point. */
    method RunInterval(ledger: Ledger, interval: seq<Candle>, next: Option<seq<Candle>>)
      returns (after: Result<Ledger, BacktestError>)
      requires |interval| == 3 && (next.Some? ==> |next.value| == 3)
      ensures after == Step(Configured(), ledger, interval, next)
    {
      hide Attempt, PayFunding, PortfolioEquity;
      var paid := Fund(ledger, interval);
      if paid.Err? {
        return Err(paid.error);
      }
      var marked := PortfolioEquity(paid.value.cash, paid.value.positions, interval);
      if marked.Err? {
        return Err(marked.error);
      }
      var equity := marked.value;
      var current := paid.value;
      var day := DayOf(interval);
      if day != current.day {
        current := current.(day := day, dayStartEquity := equity, ordersToday := 0);
      }
      current := current.(peakEquity := Max(current.peakEquity, equity));
      var at := interval[0].openTime;
      if at in current.scheduled {
        var proposal := current.scheduled[at];
        current := current.(scheduled := current.scheduled - {at});
        var column := SymbolIndex(proposal.symbol);
        if next.None? || column.None? {
          return Err(CandleOrder);
        }
        var traded := Attempt(Configured(), current, equity, interval[column.value],
                              next.value[column.value], proposal);
        if traded.Err? {
          return Err(traded.error);
        }
        current := traded.value;
        var remarked := PortfolioEquity(current.cash, current.positions, interval);
        if remarked.Err? {
          return Err(remarked.error);
        }
        equity := remarked.value;
        current := current.(peakEquity := Max(current.peakEquity, equity));
      }
      return Ok(current.(equityCurve := current.equityCurve
                                        + [EquityPoint(interval[0].closeTime, equity)]));
    }
  }
}
