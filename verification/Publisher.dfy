/** The dataset publisher: window check, per-symbol normalization of venue records, interleaving,
    and the agreement of what it publishes with the agent's validator. */
module Publisher {
  import opened Arithmetic
  import opened Policy
  import opened Backtest
  import opened Decimal
  import opened Dataset

  const MAX_CANDLES_PER_SYMBOL: int := 5_000

  datatype PublisherError = InvalidWindow | InconsistentSource

  datatype CandleResponse = CandleResponse(
    openTime: i64,
    closeTime: i64,
    symbol: Asset,
    interval: string,
    open: string,
    close: string,
    high: string,
    low: string,
    volume: string)

  datatype FundingResponse = FundingResponse(coin: Asset, fundingRate: string, time: i64)

  // ---------------------------------------------------------------- the window

  function ValidateWindow(start: i64, end: i64): Result<nat, PublisherError> {
    if start < 0 || end <= start || start % FUNDING_MILLIS != 0 || end % FUNDING_MILLIS != 0
       || (end - start) % CANDLE_MILLIS != 0 then
      Err(InvalidWindow)
    else
      var intervals := (end - start) / CANDLE_MILLIS;
      if 2 <= intervals <= MAX_CANDLES_PER_SYMBOL then Ok(intervals) else Err(InvalidWindow)
  }

  /** A valid window is a whole number of hours, hence a multiple of four quarter hours. */
  lemma WindowIsWholeHours(start: i64, end: i64, intervals: nat)
    requires ValidateWindow(start, end) == Ok(intervals)
    ensures 0 <= start && start % FUNDING_MILLIS == 0
    ensures end == start + intervals * CANDLE_MILLIS
    ensures intervals % 4 == 0 && 4 <= intervals <= MAX_CANDLES_PER_SYMBOL
  {
    var hours := end / FUNDING_MILLIS - start / FUNDING_MILLIS;
    assert end - start == hours * FUNDING_MILLIS;
    assert intervals == 4 * hours;
  }

  // ---------------------------------------------------------------- funding by hour

  function HourOf(time: int): int {
    time / FUNDING_MILLIS * FUNDING_MILLIS
  }

  function Rate(record: FundingResponse): Result<i64, DecimalError> {
    ParseScaled(record.fundingRate, 12)
  }

  predicate FundingUsable(record: FundingResponse, symbol: Asset, start: int) {
    record.coin == symbol && HourOf(record.time) >= start && Rate(record).Ok?
  }

  predicate DistinctHours(funding: seq<FundingResponse>) {
    forall i, j :: 0 <= i < j < |funding| ==> HourOf(funding[i].time) != HourOf(funding[j].time)
  }

  /** The hours the records belong to. */
  function HoursOf(funding: seq<FundingResponse>): set<int> {
    if funding == [] then {}
    else HoursOf(funding[..|funding| - 1]) + {HourOf(funding[|funding| - 1].time)}
  }

  lemma {:induction false} HourListed(funding: seq<FundingResponse>, hour: int)
    ensures hour in HoursOf(funding)
            <==> exists i :: 0 <= i < |funding| && HourOf(funding[i].time) == hour
  {
    hide HourOf;
    if funding != [] {
      var n := |funding| - 1;
      HourListed(funding[..n], hour);
      assert forall i :: 0 <= i < n ==> funding[..n][i] == funding[i];
    }
  }

  lemma NewHour(funding: seq<FundingResponse>)
    requires funding != [] && DistinctHours(funding)
    ensures HourOf(funding[|funding| - 1].time) !in HoursOf(funding[..|funding| - 1])
  {
    hide HourOf, HoursOf;
    HourListed(funding[..|funding| - 1], HourOf(funding[|funding| - 1].time));
  }

  /** The parsed rates by the hour they belong to. */
  function RatesByHour(funding: seq<FundingResponse>): (rates: map<int, int>)
    requires forall i :: 0 <= i < |funding| ==> Rate(funding[i]).Ok?
    ensures rates.Keys == HoursOf(funding)
  {
    hide HourOf, ParseScaled;
    if funding == [] then map[]
    else
      var last := funding[|funding| - 1];
      var earlier := funding[..|funding| - 1];
      RatesByHour(earlier)[HourOf(last.time) := Rate(last).value]
  }

  /** The hours a window of `intervals` quarter hours must have funding for. */
  function ExpectedHours(start: int, intervals: nat): set<int> {
    set i | 0 <= i < intervals / 4 :: start + i * FUNDING_MILLIS
  }

  function RateAt(rates: map<int, int>, time: int): int {
    if time in rates then rates[time] else 0
  }

  // ---------------------------------------------------------------- one symbol

  function OpenAt(start: int, index: nat): int {
    start + index * CANDLE_MILLIS
  }

  predicate CandleUsable(candle: CandleResponse, symbol: Asset, openTime: int) {
    && candle.symbol == symbol && candle.interval == "15m"
    && candle.openTime == openTime && candle.closeTime == openTime + CANDLE_MILLIS - 1
    && ParseScaled(candle.open, 6).Ok? && ParseScaled(candle.high, 6).Ok?
    && ParseScaled(candle.low, 6).Ok? && ParseScaled(candle.close, 6).Ok?
    && ParseScaledRounded(candle.volume, 8).Ok?
  }

  predicate Usable(symbol: Asset, intervals: nat, start: int, candles: seq<CandleResponse>,
                   funding: seq<FundingResponse>)
  {
    && |candles| == intervals
    && (forall i :: 0 <= i < |funding| ==> FundingUsable(funding[i], symbol, start))
    && DistinctHours(funding)
    && |funding| == intervals / 4
    && HoursOf(funding) == ExpectedHours(start, intervals)
    && (forall i :: 0 <= i < intervals ==> CandleUsable(candles[i], symbol, OpenAt(start, i)))
  }

  function NormalizedRow(symbol: Asset, sizeDecimals: u8, openTime: i64, candle: CandleResponse,
                         rate: i64): Candle
    requires CandleUsable(candle, symbol, openTime)
  {
    Candle(symbol, openTime, candle.closeTime, ParseScaled(candle.open, 6).value,
           ParseScaled(candle.high, 6).value, ParseScaled(candle.low, 6).value,
           ParseScaled(candle.close, 6).value, ParseScaledRounded(candle.volume, 8).value, rate,
           sizeDecimals)
  }

  /** The rows of one symbol: each source candle at its place in the window, carrying the funding
      rate of the hour it opens. */
  predicate IsNormalized(symbol: Asset, sizeDecimals: u8, intervals: nat, start: int,
                         candles: seq<CandleResponse>, funding: seq<FundingResponse>,
                         rows: seq<Candle>)
    requires Usable(symbol, intervals, start, candles, funding)
  {
    && |rows| == intervals
    && forall i :: 0 <= i < intervals ==>
         && FitsI64(OpenAt(start, i)) && FitsI64(RateAt(RatesByHour(funding), OpenAt(start, i)))
         && rows[i] == NormalizedRow(symbol, sizeDecimals, OpenAt(start, i), candles[i],
                                     RateAt(RatesByHour(funding), OpenAt(start, i)))
  }

  lemma {:induction false} RatesFit(funding: seq<FundingResponse>)
    requires forall i :: 0 <= i < |funding| ==> Rate(funding[i]).Ok?
    ensures forall hour :: hour in RatesByHour(funding) ==> FitsI64(RatesByHour(funding)[hour])
  {
    hide HourOf, ParseScaled;
    if funding != [] {
      RatesFit(funding[..|funding| - 1]);
    }
  }

  /** Fills the map of rates by hour, failing on a foreign, early, unreadable or repeated record. */
  method CollectFunding(symbol: Asset, start: int, funding: seq<FundingResponse>)
    returns (rates: Option<map<int, int>>)
    ensures rates.Some? <==> (forall i :: 0 <= i < |funding| ==> FundingUsable(funding[i], symbol, start))
                             && DistinctHours(funding)
    ensures rates.Some? ==> rates.value == RatesByHour(funding)
  {
    hide HourOf, ParseScaled, HoursOf, DistinctHours, RatesByHour;
    var byHour: map<int, int> := map[];
    NoRecords();
    assert funding[..0] == [];
    for n := 0 to |funding|
      invariant forall i :: 0 <= i < n ==> FundingUsable(funding[i], symbol, start)
      invariant DistinctHours(funding[..n])
      invariant byHour == RatesByHour(funding[..n])
    {
      var record := funding[n];
      var hour := HourOf(record.time);
      var rate := Rate(record);
      if record.coin != symbol || hour < start || rate.Err? {
        assert !FundingUsable(funding[n], symbol, start);
        return None;
      }
      if hour in byHour {
        RepeatedHour(funding, n);
        return None;
      }
      NextHour(funding, n);
      byHour := byHour[hour := rate.value];
    }
    assert funding[..|funding|] == funding;
    return Some(byHour);
  }

  lemma NoRecords()
    ensures DistinctHours([]) && RatesByHour([]) == map[]
  {
  }

  /** A record in an hour already seen. */
  lemma RepeatedHour(funding: seq<FundingResponse>, n: nat)
    requires n < |funding| && HourOf(funding[n].time) in HoursOf(funding[..n])
    ensures !DistinctHours(funding)
  {
    hide HourOf, HoursOf;
    HourListed(funding[..n], HourOf(funding[n].time));
    var i :| 0 <= i < n && HourOf(funding[..n][i].time) == HourOf(funding[n].time);
    assert HourOf(funding[i].time) == HourOf(funding[n].time);
  }

  /** A readable record in a new hour. */
  lemma NextHour(funding: seq<FundingResponse>, n: nat)
    requires n < |funding| && DistinctHours(funding[..n])
    requires HourOf(funding[n].time) !in HoursOf(funding[..n])
    requires forall i :: 0 <= i <= n ==> Rate(funding[i]).Ok?
    ensures DistinctHours(funding[..n + 1])
    ensures RatesByHour(funding[..n + 1])
            == RatesByHour(funding[..n])[HourOf(funding[n].time) := Rate(funding[n]).value]
  {
    hide HourOf, HoursOf, ParseScaled;
    assert funding[..n + 1][..n] == funding[..n];
    HourListed(funding[..n], HourOf(funding[n].time));
    forall i | 0 <= i < n ensures HourOf(funding[i].time) != HourOf(funding[n].time) {
      assert funding[..n][i] == funding[i];
    }
  }

  lemma {:induction false} DistinctCount(funding: seq<FundingResponse>)
    requires DistinctHours(funding)
    ensures |HoursOf(funding)| == |funding|
  {
    hide HourOf;
    if funding != [] {
      DistinctCount(funding[..|funding| - 1]);
      NewHour(funding);
    }
  }

  /** Normalizes one symbol, or refuses exactly the unusable sources. */
  method NormalizeSymbol(symbol: Asset, sizeDecimals: u8, intervals: nat, start: i64,
                         candles: seq<CandleResponse>, funding: seq<FundingResponse>)
    returns (rows: Result<seq<Candle>, PublisherError>)
    ensures rows.Ok? <==> Usable(symbol, intervals, start, candles, funding)
    ensures rows.Ok? ==> IsNormalized(symbol, sizeDecimals, intervals, start, candles, funding,
                                      rows.value)
  {
    hide HourOf, HoursOf, ParseScaled, ParseScaledRounded, RatesByHour, DistinctHours, ExpectedHours;
    if |candles| != intervals {
      return Err(InconsistentSource);
    }
    var rates := CollectFunding(symbol, start, funding);
    if rates.None? {
      return Err(InconsistentSource);
    }
    DistinctCount(funding);
    RatesFit(funding);
    if |rates.value.Keys| != intervals / 4 {
      return Err(InconsistentSource);
    }
    if rates.value.Keys != ExpectedHours(start, intervals) {
      return Err(InconsistentSource);
    }
    var normalized := [];
    for i := 0 to intervals
      invariant |normalized| == i
      invariant forall j :: 0 <= j < i ==>
                  && CandleUsable(candles[j], symbol, OpenAt(start, j))
                  && FitsI64(OpenAt(start, j)) && FitsI64(RateAt(rates.value, OpenAt(start, j)))
                  && normalized[j] == NormalizedRow(symbol, sizeDecimals, OpenAt(start, j),
                                                    candles[j],
                                                    RateAt(rates.value, OpenAt(start, j)))
    {
      var openTime := OpenAt(start, i);
      if !CandleUsable(candles[i], symbol, openTime) {
        return Err(InconsistentSource);
      }
      normalized := normalized + [NormalizedRow(symbol, sizeDecimals, openTime, candles[i],
                                                RateAt(rates.value, openTime))];
    }
    return Ok(normalized);
  }

  // ---------------------------------------------------------------- funding is conserved

  function RateOf(record: FundingResponse): int {
    if Rate(record).Ok? then Rate(record).value else 0
  }

  function SumRates(funding: seq<FundingResponse>): int {
    if funding == [] then 0
    else SumRates(funding[..|funding| - 1]) + RateOf(funding[|funding| - 1])
  }

  function SumRowRates(rows: seq<Candle>): int {
    if rows == [] then 0
    else SumRowRates(rows[..|rows| - 1]) + rows[|rows| - 1].fundingRate
  }

  /** The rates found at the first `count` opens of the window. */
  function SumOpens(rates: map<int, int>, start: int, count: nat): int {
    if count == 0 then 0 else SumOpens(rates, start, count - 1) + RateAt(rates, OpenAt(start, count - 1))
  }

  /** A new rate at one open of the window adds exactly itself. */
  lemma {:induction false} SumOpensInsert(rates: map<int, int>, start: int, count: nat, index: nat,
                                          rate: int)
    requires OpenAt(start, index) !in rates
    ensures SumOpens(rates[OpenAt(start, index) := rate], start, count)
            == SumOpens(rates, start, count) + (if index < count then rate else 0)
  {
    if count > 0 {
      SumOpensInsert(rates, start, count - 1, index, rate);
      if OpenAt(start, count - 1) == OpenAt(start, index) {
        assert count - 1 == index;
      }
    }
  }

  lemma {:induction false} SumOpensEmpty(start: int, count: nat)
    ensures SumOpens(map[], start, count) == 0
  {
    if count > 0 {
      SumOpensEmpty(start, count - 1);
    }
  }

  /** Records whose hours are distinct opens of the window sum to what the opens find. */
  lemma {:induction false} OpensFindEveryRate(funding: seq<FundingResponse>, start: int, intervals: nat)
    requires forall i :: 0 <= i < |funding| ==> Rate(funding[i]).Ok?
    requires DistinctHours(funding)
    requires forall i :: 0 <= i < |funding| ==>
               HourOf(funding[i].time) in ExpectedHours(start, intervals)
    ensures SumOpens(RatesByHour(funding), start, intervals) == SumRates(funding)
  {
    hide HourOf, ParseScaled;
    if funding == [] {
      SumOpensEmpty(start, intervals);
    } else {
      var shorter, last := funding[..|funding| - 1], funding[|funding| - 1];
      OpensFindEveryRate(shorter, start, intervals);
      var hour := HourOf(last.time);
      var k :| 0 <= k < intervals / 4 && hour == start + k * FUNDING_MILLIS;
      assert hour == OpenAt(start, 4 * k);
      NewHour(funding);
      SumOpensInsert(RatesByHour(shorter), start, intervals, 4 * k, Rate(last).value);
    }
  }

  lemma {:induction false} RowRatesAreOpens(rows: seq<Candle>, rates: map<int, int>, start: int)
    requires forall i :: 0 <= i < |rows| ==> rows[i].fundingRate == RateAt(rates, OpenAt(start, i))
    ensures SumRowRates(rows) == SumOpens(rates, start, |rows|)
  {
    if rows != [] {
      RowRatesAreOpens(rows[..|rows| - 1], rates, start);
    }
  }

  /** Normalization neither loses, repeats nor invents funding. */
  lemma FundingIsConserved(symbol: Asset, sizeDecimals: u8, intervals: nat, start: int,
                           candles: seq<CandleResponse>, funding: seq<FundingResponse>,
                           rows: seq<Candle>)
    requires Usable(symbol, intervals, start, candles, funding)
    requires IsNormalized(symbol, sizeDecimals, intervals, start, candles, funding, rows)
    ensures SumRowRates(rows) == SumRates(funding)
  {
    hide HourOf, HoursOf, ParseScaled, ParseScaledRounded, ExpectedHours, RatesByHour, SumOpens;
    forall i | 0 <= i < |funding|
      ensures HourOf(funding[i].time) in ExpectedHours(start, intervals)
    {
      HourListed(funding, HourOf(funding[i].time));
    }
    OpensFindEveryRate(funding, start, intervals);
    RowRatesAreOpens(rows, RatesByHour(funding), start);
  }

  // ---------------------------------------------------------------- interleaving

  /** Every row is the one its place in interval-major order asks for. */
  predicate InOrder(series: map<Asset, seq<Candle>>, rows: seq<Candle>) {
    forall i :: 0 <= i < |rows| ==>
      && SYMBOLS[i % 3] in series
      && i / 3 < |series[SYMBOLS[i % 3]]|
      && rows[i] == series[SYMBOLS[i % 3]][i / 3]
  }

  predicate IsInterleaved(series: map<Asset, seq<Candle>>, intervals: nat, rows: seq<Candle>) {
    |rows| == 3 * intervals && InOrder(series, rows)
  }

  lemma PushKeepsOrder(series: map<Asset, seq<Candle>>, rows: seq<Candle>, index: nat, column: nat)
    requires InOrder(series, rows) && |rows| == 3 * index + column && column < 3
    requires SYMBOLS[column] in series && index < |series[SYMBOLS[column]]|
    ensures InOrder(series, rows + [series[SYMBOLS[column]][index]])
  {
    assert |rows| % 3 == column && |rows| / 3 == index;
  }

  predicate TooShort(series: map<Asset, seq<Candle>>, column: int, intervals: nat)
    requires 0 <= column < 3
  {
    SYMBOLS[column] !in series || |series[SYMBOLS[column]]| < intervals
  }

  /** Pushes row after row, interval by interval and symbol by symbol. */
  method Interleave(series: map<Asset, seq<Candle>>, intervals: nat)
    returns (rows: Result<seq<Candle>, PublisherError>)
    ensures rows.Ok? ==> IsInterleaved(series, intervals, rows.value)
    ensures rows.Err? ==> exists column :: 0 <= column < 3 && TooShort(series, column, intervals)
  {
    hide InOrder;
    var pushed := [];
    assert InOrder(series, pushed) by { NothingPushed(series); }
    for index := 0 to intervals
      invariant |pushed| == 3 * index && InOrder(series, pushed)
    {
      for column := 0 to 3
        invariant |pushed| == 3 * index + column && InOrder(series, pushed)
      {
        var symbol := SYMBOLS[column];
        if symbol !in series || index >= |series[symbol]| {
          assert TooShort(series, column, intervals);
          return Err(InconsistentSource);
        }
        PushKeepsOrder(series, pushed, index, column);
        pushed := pushed + [series[symbol][index]];
      }
    }
    return Ok(pushed);
  }

  lemma NothingPushed(series: map<Asset, seq<Candle>>)
    ensures InOrder(series, [])
  {
  }

  // ---------------------------------------------------------------- agreement with the validator

  /** What one normalized series looks like, whatever its prices. */
  predicate OnWindow(symbol: Asset, sizeDecimals: u8, intervals: nat, start: int,
                     rows: seq<Candle>)
  {
    && |rows| == intervals
    && forall i :: 0 <= i < intervals ==>
         && rows[i].symbol == symbol && rows[i].sizeDecimals == sizeDecimals
         && rows[i].openTime == OpenAt(start, i)
         && rows[i].closeTime == OpenAt(start, i) + CANDLE_MILLIS - 1
         && FundingAligned(rows[i])
  }

  lemma NormalizedIsOnWindow(symbol: Asset, sizeDecimals: u8, intervals: nat, start: int,
                             candles: seq<CandleResponse>, funding: seq<FundingResponse>,
                             rows: seq<Candle>)
    requires start % FUNDING_MILLIS == 0
    requires Usable(symbol, intervals, start, candles, funding)
    requires IsNormalized(symbol, sizeDecimals, intervals, start, candles, funding, rows)
    ensures OnWindow(symbol, sizeDecimals, intervals, start, rows)
  {
    hide ParseScaled, ParseScaledRounded, RatesByHour, HourOf, DistinctHours;
    forall i | 0 <= i < intervals ensures FundingAligned(rows[i]) {
      if rows[i].fundingRate != 0 {
        assert OpenAt(start, i) in ExpectedHours(start, intervals);
        var k :| 0 <= k < intervals / 4 && OpenAt(start, i) == start + k * FUNDING_MILLIS;
        AlignedHour(start, k);
      }
    }
  }

  lemma AlignedHour(start: int, k: int)
    requires start % FUNDING_MILLIS == 0
    ensures (start + k * FUNDING_MILLIS) % FUNDING_MILLIS == 0
  {
    assert start == (start / FUNDING_MILLIS) * FUNDING_MILLIS;
    DivUnique(start + k * FUNDING_MILLIS, FUNDING_MILLIS, start / FUNDING_MILLIS + k);
  }

  /** The published table meets every time, symbol, lot and funding condition of the validator, so
      the validator accepts it exactly when its prices and volumes are sound. */
  lemma PublishedIsAdmitted(series: map<Asset, seq<Candle>>, decimals: map<Asset, u8>, intervals: nat,
                            start: int, rows: seq<Candle>)
    requires intervals > 0
    requires {BTC, ETH, SOL} <= series.Keys && {BTC, ETH, SOL} <= decimals.Keys
    requires forall symbol | symbol in {BTC, ETH, SOL} ::
               OnWindow(symbol, decimals[symbol], intervals, start, series[symbol])
    requires IsInterleaved(series, intervals, rows)
    ensures Admitted(rows) <==> forall i :: 0 <= i < |rows| ==> PricesValid(rows[i])
  {
    hide PricesValid, OnWindow, Placed, RowValid;
    forall i: nat | i < |rows|
      ensures Placed(rows, i) && (RowValid(rows[i]) <==> PricesValid(rows[i]))
    {
      PublishedRow(series, decimals, intervals, start, rows, i);
    }
  }

  lemma PublishedRow(series: map<Asset, seq<Candle>>, decimals: map<Asset, u8>, intervals: nat,
                     start: int, rows: seq<Candle>, i: nat)
    requires {BTC, ETH, SOL} <= series.Keys && {BTC, ETH, SOL} <= decimals.Keys
    requires forall symbol | symbol in {BTC, ETH, SOL} ::
               OnWindow(symbol, decimals[symbol], intervals, start, series[symbol])
    requires IsInterleaved(series, intervals, rows) && i < |rows|
    ensures Placed(rows, i) && (RowValid(rows[i]) <==> PricesValid(rows[i]))
  {
    hide PricesValid, FundingAligned, OpenAt, OnWindow, IsInterleaved;
    InterleavedRow(series, decimals, intervals, start, rows, i);
    InterleavedRow(series, decimals, intervals, start, rows, 0);
    if i % 3 < |rows| {
      InterleavedRow(series, decimals, intervals, start, rows, i % 3);
    }
    OpenOffset(start, i / 3);
  }

  lemma OpenOffset(start: int, index: nat)
    ensures OpenAt(start, index) == OpenAt(start, 0) + index * CANDLE_MILLIS
  {
  }

  lemma InterleavedRow(series: map<Asset, seq<Candle>>, decimals: map<Asset, u8>, intervals: nat,
                       start: int, rows: seq<Candle>, i: nat)
    requires {BTC, ETH, SOL} <= series.Keys && {BTC, ETH, SOL} <= decimals.Keys
    requires forall symbol | symbol in {BTC, ETH, SOL} ::
               OnWindow(symbol, decimals[symbol], intervals, start, series[symbol])
    requires IsInterleaved(series, intervals, rows) && i < |rows|
    ensures var symbol := SYMBOLS[i % 3];
            && symbol in {BTC, ETH, SOL}
            && rows[i].symbol == symbol && rows[i].sizeDecimals == decimals[symbol]
            && rows[i].openTime == OpenAt(start, i / 3)
            && rows[i].closeTime == OpenAt(start, i / 3) + CANDLE_MILLIS - 1
            && FundingAligned(rows[i])
  {
    hide FundingAligned, OpenAt;
    var symbol := SYMBOLS[i % 3];
    assert symbol in {BTC, ETH, SOL};
    assert OnWindow(symbol, decimals[symbol], intervals, start, series[symbol]);
  }

  // ---------------------------------------------------------------- the whole publication

  /** What the venue answers for one symbol. */
  datatype Source = Source(candles: seq<CandleResponse>, funding: seq<FundingResponse>)

  function SumSymbolRates(rows: seq<Candle>, symbol: Asset): int {
    if rows == [] then 0
    else
      var last := rows[|rows| - 1];
      SumSymbolRates(rows[..|rows| - 1], symbol)
      + (if last.symbol == symbol then last.fundingRate else 0)
  }

  predicate OwnSymbols(series: map<Asset, seq<Candle>>) {
    forall s, i :: s in series && 0 <= i < |series[s]| ==> series[s][i].symbol == s
  }

  /** How many of the first `count` interleaved rows belong to `column`. */
  function RowsOf(column: nat, count: nat): nat
    requires column < 3
  {
    (count + 2 - column) / 3
  }

  lemma RowsOfStep(column: nat, count: nat)
    requires column < 3 && count > 0
    ensures RowsOf(column, count)
            == RowsOf(column, count - 1) + (if (count - 1) % 3 == column then 1 else 0)
    ensures (count - 1) % 3 == column ==> RowsOf(column, count - 1) == (count - 1) / 3
  {
  }

  lemma SumRowRatesNext(rows: seq<Candle>, n: nat)
    requires n < |rows|
    ensures SumRowRates(rows[..n + 1]) == SumRowRates(rows[..n]) + rows[n].fundingRate
  {
    assert rows[..n + 1][..n] == rows[..n];
  }

  lemma SumSymbolRatesNext(rows: seq<Candle>, symbol: Asset, n: nat)
    requires n < |rows|
    ensures SumSymbolRates(rows[..n + 1], symbol)
            == SumSymbolRates(rows[..n], symbol)
               + (if rows[n].symbol == symbol then rows[n].fundingRate else 0)
  {
    assert rows[..n + 1][..n] == rows[..n];
  }

  /** The row at a place of the interleaved table is its column's row of the interval. */
  lemma InterleavedAt(series: map<Asset, seq<Candle>>, intervals: nat, rows: seq<Candle>, column: nat,
                      i: nat)
    requires column < 3 && IsInterleaved(series, intervals, rows) && OwnSymbols(series) && i < |rows|
    requires SYMBOLS[column] in series && |series[SYMBOLS[column]]| == intervals
    ensures rows[i].symbol == SYMBOLS[column] <==> i % 3 == column
    ensures i % 3 == column ==> i / 3 < intervals && rows[i] == series[SYMBOLS[column]][i / 3]
  {
    assert rows[i] == series[SYMBOLS[i % 3]][i / 3];
  }

  lemma {:induction false} InterleavedSum(series: map<Asset, seq<Candle>>, intervals: nat,
                                          rows: seq<Candle>, column: nat, count: nat)
    requires column < 3 && IsInterleaved(series, intervals, rows) && OwnSymbols(series)
    requires SYMBOLS[column] in series && |series[SYMBOLS[column]]| == intervals
    requires count <= |rows|
    ensures RowsOf(column, count) <= intervals
    ensures SumSymbolRates(rows[..count], SYMBOLS[column])
            == SumRowRates(series[SYMBOLS[column]][..RowsOf(column, count)])
  {
    hide RowsOf, SumRowRates, SumSymbolRates, IsInterleaved, OwnSymbols;
    if count == 0 {
      NothingSummed(column, SYMBOLS[column]);
      assert rows[..0] == [] && series[SYMBOLS[column]][..0] == [];
    } else {
      var n := count - 1;
      InterleavedSum(series, intervals, rows, column, n);
      InterleavedAt(series, intervals, rows, column, n);
      RowsOfStep(column, count);
      SumSymbolRatesNext(rows, SYMBOLS[column], n);
      if n % 3 == column {
        SumRowRatesNext(series[SYMBOLS[column]], n / 3);
      }
    }
  }

  lemma NothingSummed(column: nat, symbol: Asset)
    requires column < 3
    ensures RowsOf(column, 0) == 0 && SumRowRates([]) == 0 && SumSymbolRates([], symbol) == 0
  {
  }

  /** Interleaving keeps each symbol's rows, hence its funding. */
  lemma InterleavedFunding(series: map<Asset, seq<Candle>>, intervals: nat, rows: seq<Candle>, column: nat)
    requires column < 3 && IsInterleaved(series, intervals, rows) && OwnSymbols(series)
    requires SYMBOLS[column] in series && |series[SYMBOLS[column]]| == intervals
    ensures SumSymbolRates(rows, SYMBOLS[column]) == SumRowRates(series[SYMBOLS[column]])
  {
    hide OwnSymbols, SumSymbolRates, SumRowRates;
    InterleavedSum(series, intervals, rows, column, |rows|);
    assert rows[..|rows|] == rows;
    assert RowsOf(column, |rows|) == intervals;
    assert series[SYMBOLS[column]][..intervals] == series[SYMBOLS[column]];
  }

  /** One symbol's source was usable and its rows are its normalization. */
  predicate SymbolDone(instrument: Instrument, source: Source, intervals: nat, start: int,
                       rows: seq<Candle>)
  {
    && Usable(instrument.symbol, intervals, start, source.candles, source.funding)
    && IsNormalized(instrument.symbol, instrument.sizeDecimals, intervals, start, source.candles,
                    source.funding, rows)
  }

  ghost predicate AllDone(instruments: seq<Instrument>, sources: map<Asset, Source>,
                          intervals: nat, start: int, series: map<Asset, seq<Candle>>)
  {
    && |instruments| == 3 && series.Keys == {BTC, ETH, SOL} <= sources.Keys
    && forall i :: 0 <= i < 3 ==>
         && instruments[i].symbol == SYMBOLS[i]
         && SymbolDone(instruments[i], sources[SYMBOLS[i]], intervals, start, series[SYMBOLS[i]])
  }

  /** The published table: the validator accepts it exactly when its prices and volumes are sound,
      and each symbol's funding is exactly the funding its source reported. */
  lemma PublicationAgrees(instruments: seq<Instrument>, sources: map<Asset, Source>, start: i64,
                          end: i64, series: map<Asset, seq<Candle>>, rows: seq<Candle>)
    requires ValidateWindow(start, end).Ok?
    requires AllDone(instruments, sources, ValidateWindow(start, end).value, start, series)
    requires IsInterleaved(series, ValidateWindow(start, end).value, rows)
    ensures Admitted(rows) <==> forall i :: 0 <= i < |rows| ==> PricesValid(rows[i])
    ensures forall i :: 0 <= i < 3 ==>
              SumSymbolRates(rows, SYMBOLS[i]) == SumRates(sources[SYMBOLS[i]].funding)
  {
    hide Usable, Admitted, PricesValid, IsInterleaved, SumSymbolRates, SumRates, SumRowRates,
         OwnSymbols, ValidateWindow, SymbolDone, OnWindow;
    var intervals := ValidateWindow(start, end).value;
    WindowIsWholeHours(start, end, intervals);
    var decimals := map[BTC := instruments[0].sizeDecimals, ETH := instruments[1].sizeDecimals,
                        SOL := instruments[2].sizeDecimals];
    forall i | 0 <= i < 3
      ensures OnWindow(SYMBOLS[i], decimals[SYMBOLS[i]], intervals, start, series[SYMBOLS[i]])
      ensures SumRowRates(series[SYMBOLS[i]]) == SumRates(sources[SYMBOLS[i]].funding)
    {
      DoneFacts(instruments[i], sources[SYMBOLS[i]], intervals, start, series[SYMBOLS[i]]);
    }
    WindowedSeries(series, decimals, intervals, start);
    PublishedIsAdmitted(series, decimals, intervals, start, rows);
    forall i | 0 <= i < 3
      ensures SumSymbolRates(rows, SYMBOLS[i]) == SumRates(sources[SYMBOLS[i]].funding)
    {
      InterleavedFunding(series, intervals, rows, i);
    }
  }

  lemma DoneFacts(instrument: Instrument, source: Source, intervals: nat, start: int, rows: seq<Candle>)
    requires start % FUNDING_MILLIS == 0
    requires SymbolDone(instrument, source, intervals, start, rows)
    ensures OnWindow(instrument.symbol, instrument.sizeDecimals, intervals, start, rows)
    ensures SumRowRates(rows) == SumRates(source.funding)
  {
    hide Usable, IsNormalized, OnWindow, SumRates, SumRowRates;
    NormalizedIsOnWindow(instrument.symbol, instrument.sizeDecimals, intervals, start,
                         source.candles, source.funding, rows);
    FundingIsConserved(instrument.symbol, instrument.sizeDecimals, intervals, start,
                       source.candles, source.funding, rows);
  }

  lemma WindowedSeries(series: map<Asset, seq<Candle>>, decimals: map<Asset, u8>, intervals: nat,
                       start: int)
    requires series.Keys == decimals.Keys == {BTC, ETH, SOL}
    requires forall i :: 0 <= i < 3 ==>
               OnWindow(SYMBOLS[i], decimals[SYMBOLS[i]], intervals, start, series[SYMBOLS[i]])
    ensures forall symbol | symbol in {BTC, ETH, SOL} ::
              && OnWindow(symbol, decimals[symbol], intervals, start, series[symbol])
              && |series[symbol]| == intervals
    ensures OwnSymbols(series)
  {
    assert SYMBOLS[0] == BTC && SYMBOLS[1] == ETH && SYMBOLS[2] == SOL;
  }

  /** Builds the published table: the window, each symbol normalized in turn, then interleaved. It
      fails exactly when the window is invalid or some symbol's source is missing or unusable. */
  method BuildTable(instruments: seq<Instrument>, sources: map<Asset, Source>, start: i64, end: i64)
    returns (rows: Result<seq<Candle>, PublisherError>, ghost series: map<Asset, seq<Candle>>)
    requires |instruments| == 3 && forall i :: 0 <= i < 3 ==> instruments[i].symbol == SYMBOLS[i]
    ensures rows.Ok? <==> && ValidateWindow(start, end).Ok?
                          && forall i :: 0 <= i < 3 ==>
                               && SYMBOLS[i] in sources
                               && Usable(SYMBOLS[i], ValidateWindow(start, end).value, start,
                                         sources[SYMBOLS[i]].candles, sources[SYMBOLS[i]].funding)
    ensures rows.Ok? ==>
              && AllDone(instruments, sources, ValidateWindow(start, end).value, start, series)
              && IsInterleaved(series, ValidateWindow(start, end).value, rows.value)
  {
    hide Usable, IsNormalized, IsInterleaved, ValidateWindow;
    series := map[];
    var window := ValidateWindow(start, end);
    if window.Err? {
      return Err(window.error), map[];
    }
    var intervals := window.value;
    var bySymbol: map<Asset, seq<Candle>> := map[];
    for n := 0 to 3
      invariant bySymbol.Keys == set i | 0 <= i < n :: SYMBOLS[i]
      invariant forall i :: 0 <= i < n ==>
                  && SYMBOLS[i] in sources
                  && SymbolDone(instruments[i], sources[SYMBOLS[i]], intervals, start,
                                bySymbol[SYMBOLS[i]])
    {
      var instrument := instruments[n];
      if instrument.symbol !in sources {
        return Err(InconsistentSource), map[];
      }
      var source := sources[instrument.symbol];
      var normalized := NormalizeSymbol(instrument.symbol, instrument.sizeDecimals, intervals,
                                        start, source.candles, source.funding);
      if normalized.Err? {
        return Err(normalized.error), map[];
      }
      bySymbol := bySymbol[instrument.symbol := normalized.value];
    }
    assert SYMBOLS[0] == BTC && SYMBOLS[1] == ETH && SYMBOLS[2] == SOL;
    assert bySymbol.Keys == {BTC, ETH, SOL};
    forall i | 0 <= i < 3 ensures !TooShort(bySymbol, i, intervals) {
      NormalizedLength(instruments[i], sources[SYMBOLS[i]], intervals, start,
                       bySymbol[SYMBOLS[i]]);
    }
    rows := Interleave(bySymbol, intervals);
    series := bySymbol;
  }

  lemma NormalizedLength(instrument: Instrument, source: Source, intervals: nat, start: int,
                         rows: seq<Candle>)
    requires SymbolDone(instrument, source, intervals, start, rows)
    ensures |rows| == intervals
  {
  }

  // ---------------------------------------------------------------- the publication

  datatype MetaAsset = MetaAsset(sizeDecimals: u8, maxLeverage: u16, isDelisted: bool)

  predicate Listed(universe: map<Asset, MetaAsset>, i: int)
    requires 0 <= i < 3
  {
    SYMBOLS[i] in universe && !universe[SYMBOLS[i]].isDelisted
  }

  function InstrumentOf(universe: map<Asset, MetaAsset>, i: int): Instrument
    requires 0 <= i < 3 && Listed(universe, i)
  {
    var asset := universe[SYMBOLS[i]];
    Instrument(SYMBOLS[i], asset.sizeDecimals, asset.maxLeverage, asset.isDelisted)
  }

  /** The instruments of the three symbols, if the venue lists them all. */
  method FetchInstruments(universe: map<Asset, MetaAsset>)
    returns (instruments: Result<seq<Instrument>, PublisherError>)
    ensures instruments.Ok? <==> forall i :: 0 <= i < 3 ==> Listed(universe, i)
    ensures instruments.Ok? ==>
              && |instruments.value| == 3
              && forall i :: 0 <= i < 3 ==> instruments.value[i] == InstrumentOf(universe, i)
  {
    var found := [];
    for i := 0 to 3
      invariant |found| == i
      invariant forall j :: 0 <= j < i ==> Listed(universe, j) && found[j] == InstrumentOf(universe, j)
    {
      if !Listed(universe, i) {
        return Err(InconsistentSource);
      }
      found := found + [InstrumentOf(universe, i)];
    }
    return Ok(found);
  }

  /** The venue's metadata is in the range the agent accepts; the publisher itself does not look. */
  predicate Tradable(instrument: Instrument) {
    instrument.sizeDecimals <= 8 && instrument.maxLeverage != 0
  }

  /** The agent accepts the published instruments beside the published table exactly when each has at
      most eight size decimals and some leverage: the lots in the table are the instruments' own. */
  lemma InstrumentsAgree(instruments: seq<Instrument>, sources: map<Asset, Source>, intervals: nat,
                         start: int, series: map<Asset, seq<Candle>>, rows: seq<Candle>)
    requires start % FUNDING_MILLIS == 0
    requires AllDone(instruments, sources, intervals, start, series)
    requires forall i :: 0 <= i < 3 ==> !instruments[i].isDelisted
    requires IsInterleaved(series, intervals, rows)
    ensures InstrumentsValid(instruments, rows)
            <==> forall i :: 0 <= i < 3 ==> Tradable(instruments[i])
  {
    hide Usable, SymbolDone, Tradable;
    forall i, j
      | 0 <= i < 3 && 0 <= j < |rows| && rows[j].symbol == instruments[i].symbol
      ensures rows[j].sizeDecimals == instruments[i].sizeDecimals
    {
      RowLot(instruments, sources, intervals, start, series, rows, j);
      DistinctSymbols(i, j % 3);
    }
    TradableIs(instruments);
  }

  lemma TradableIs(instruments: seq<Instrument>)
    requires |instruments| == 3
    ensures (forall i :: 0 <= i < 3 ==> Tradable(instruments[i]))
            <==> forall i :: 0 <= i < 3 ==>
                   instruments[i].sizeDecimals <= 8 && instruments[i].maxLeverage != 0
  {
  }

  lemma DistinctSymbols(i: int, j: int)
    requires 0 <= i < 3 && 0 <= j < 3 && SYMBOLS[i] == SYMBOLS[j]
    ensures i == j
  {
  }

  lemma RowLot(instruments: seq<Instrument>, sources: map<Asset, Source>, intervals: nat, start: int,
               series: map<Asset, seq<Candle>>, rows: seq<Candle>, j: nat)
    requires start % FUNDING_MILLIS == 0 && j < |rows|
    requires AllDone(instruments, sources, intervals, start, series)
    requires IsInterleaved(series, intervals, rows)
    ensures rows[j].symbol == SYMBOLS[j % 3] && rows[j].sizeDecimals == instruments[j % 3].sizeDecimals
  {
    hide Usable, SymbolDone;
    var i := j % 3;
    DoneFacts(instruments[i], sources[SYMBOLS[i]], intervals, start, series[SYMBOLS[i]]);
    assert rows[j] == series[SYMBOLS[i]][j / 3];
  }

  lemma SeriesUnique(instrument: Instrument, source: Source, intervals: nat, start: int, a: seq<Candle>,
                     b: seq<Candle>)
    requires SymbolDone(instrument, source, intervals, start, a)
    requires SymbolDone(instrument, source, intervals, start, b)
    ensures a == b
  {
    hide Usable, OpenAt, RateAt, RatesByHour, NormalizedRow;
    assert |a| == |b|;
    forall i | 0 <= i < |a| ensures a[i] == b[i] {
    }
  }

  /** Milliseconds whose date has a year of at most four digits. */
  predicate Datable(millis: i64) {
    -377_705_116_800_000 <= millis < 253_402_300_800_000
  }

  /** What the publisher is asked for and what it finds; a source that cannot be fetched is missing. */
  datatype Request = Request(
    start: i64,
    end: i64,
    version: u32,
    occupied: bool,
    readableKey: bool,
    universe: map<Asset, MetaAsset>,
    sources: map<Asset, Source>)
  {
    /** A table can be built. */
    predicate Buildable() {
      && ValidateWindow(start, end).Ok? && version != 0 && !occupied && readableKey
      && forall i :: 0 <= i < 3 ==>
           && Listed(universe, i) && SYMBOLS[i] in sources
           && Usable(SYMBOLS[i], ValidateWindow(start, end).value, start,
                     sources[SYMBOLS[i]].candles, sources[SYMBOLS[i]].funding)
    }

    function Instruments(): seq<Instrument>
      requires forall i :: 0 <= i < 3 ==> Listed(universe, i)
    {
      [InstrumentOf(universe, 0), InstrumentOf(universe, 1), InstrumentOf(universe, 2)]
    }

    /** The venue's metadata is in the agent's range. */
    predicate InRange()
      requires forall i :: 0 <= i < 3 ==> Listed(universe, i)
    {
      forall i :: 0 <= i < 3 ==> Tradable(Instruments()[i])
    }

    ghost predicate Made(series: map<Asset, seq<Candle>>, rows: seq<Candle>)
      requires Buildable()
    {
      var intervals := ValidateWindow(start, end).value;
      && AllDone(Instruments(), sources, intervals, start, series)
      && IsInterleaved(series, intervals, rows)
    }

    /** The rows are the requested table: every symbol normalized, then interleaved. */
    ghost predicate IsTable(rows: seq<Candle>)
      requires Buildable()
    {
      exists series :: Made(series, rows)
    }
  }

  /** A request has one table. */
  lemma TableUnique(request: Request, a: seq<Candle>, b: seq<Candle>)
    requires request.Buildable() && request.IsTable(a) && request.IsTable(b)
    ensures a == b
  {
    hide ValidateWindow, Usable, SymbolDone;
    var forA :| request.Made(forA, a);
    var forB :| request.Made(forB, b);
    var intervals := ValidateWindow(request.start, request.end).value;
    forall i | 0 <= i < 3 ensures forA[SYMBOLS[i]] == forB[SYMBOLS[i]] {
      SeriesUnique(request.Instruments()[i], request.sources[SYMBOLS[i]], intervals, request.start,
                   forA[SYMBOLS[i]], forB[SYMBOLS[i]]);
    }
    forall i | 0 <= i < |a| ensures a[i] == b[i] {
      assert forA[SYMBOLS[i % 3]] == forB[SYMBOLS[i % 3]];
    }
  }

  predicate AllPricesValid(rows: seq<Candle>) {
    forall i :: 0 <= i < |rows| ==> PricesValid(rows[i])
  }

  /** The manifest's two dates are the ends of the window. */
  lemma TableEnds(request: Request, series: map<Asset, seq<Candle>>, rows: seq<Candle>)
    requires request.Buildable() && request.Made(series, rows)
    ensures rows != [] && 0 <= request.start < request.end
    ensures rows[0].openTime == request.start && rows[|rows| - 1].closeTime == request.end - 1
  {
    hide Usable, SymbolDone, ValidateWindow;
    var intervals := ValidateWindow(request.start, request.end).value;
    WindowIsWholeHours(request.start, request.end, intervals);
    var last := |rows| - 1;
    DoneFacts(request.Instruments()[0], request.sources[SYMBOLS[0]], intervals, request.start,
              series[SYMBOLS[0]]);
    DoneFacts(request.Instruments()[2], request.sources[SYMBOLS[2]], intervals, request.start,
              series[SYMBOLS[2]]);
    assert rows[0] == series[SYMBOLS[0]][0] && rows[last] == series[SYMBOLS[2]][intervals - 1];
  }

  /** The whole publication. It succeeds exactly when a table can be built whose prices are valid, the
      venue's metadata is in range and the window's last instant has a date; then the agent admits the
      table and its instruments, and each symbol's funding is what its source reported. */
  method Publish(request: Request) returns (published: Result<seq<Candle>, PublisherError>)
    ensures published.Ok? <==>
              && request.Buildable() && request.InRange() && Datable(request.end - 1)
              && exists rows :: request.IsTable(rows) && AllPricesValid(rows)
    ensures published.Ok? ==>
              && request.IsTable(published.value)
              && Admitted(published.value) && InstrumentsValid(request.Instruments(), published.value)
              && forall i :: 0 <= i < 3 ==>
                   SumSymbolRates(published.value, SYMBOLS[i])
                   == SumRates(request.sources[SYMBOLS[i]].funding)
  {
    hide ValidateWindow, Usable, AllDone, IsInterleaved, Admitted, AllPricesValid, SumSymbolRates,
         SumRates, Tradable, InstrumentsValid;
    var window := ValidateWindow(request.start, request.end);
    if window.Err? || request.version == 0 || request.occupied || !request.readableKey {
      return Err(InvalidWindow);
    }
    var instruments := FetchInstruments(request.universe);
    if instruments.Err? {
      return Err(InconsistentSource);
    }
    assert instruments.value == request.Instruments();
    var rows, series := BuildTable(instruments.value, request.sources, request.start, request.end);
    if rows.Err? {
      return Err(InconsistentSource);
    }
    assert request.Made(series, rows.value);
    PublishedTable(request, series, rows.value);
    var valid := ValidateCandles(rows.value);
    if !valid || !InstrumentsValid(instruments.value, rows.value) {
      forall other | request.IsTable(other) ensures other == rows.value {
        TableUnique(request, other, rows.value);
      }
      return Err(InconsistentSource);
    }
    TableEnds(request, series, rows.value);
    if !Datable(rows.value[0].openTime) || !Datable(rows.value[|rows.value| - 1].closeTime) {
      return Err(InvalidWindow);
    }
    return Ok(rows.value);
  }

  lemma PublishedTable(request: Request, series: map<Asset, seq<Candle>>, rows: seq<Candle>)
    requires request.Buildable() && request.Made(series, rows)
    ensures Admitted(rows) <==> AllPricesValid(rows)
    ensures InstrumentsValid(request.Instruments(), rows) <==> request.InRange()
    ensures forall i :: 0 <= i < 3 ==>
              SumSymbolRates(rows, SYMBOLS[i]) == SumRates(request.sources[SYMBOLS[i]].funding)
  {
    hide ValidateWindow, Usable, AllDone, IsInterleaved, Admitted, PricesValid, SumSymbolRates, SumRates,
         Tradable, InstrumentsValid;
    var intervals := ValidateWindow(request.start, request.end).value;
    WindowIsWholeHours(request.start, request.end, intervals);
    PublicationAgrees(request.Instruments(), request.sources, request.start, request.end, series, rows);
    InstrumentsAgree(request.Instruments(), request.sources, intervals, request.start, series, rows);
  }
}
