/** The published table, told from the venue's records: which records make a window complete, and what
    every row of the table says of them. */
module PublisherTheorems {
  import opened Arithmetic
  import opened Policy
  import opened Backtest
  import opened Decimal
  import opened DecimalTheorems
  import opened Dataset
  import opened Publisher

  // ---------------------------------------------------------------- numbers as text

  /** The text is a decimal with at most so many places, worth `x` units of the last one. */
  predicate Reads(text: string, x: int, places: nat) {
    WellFormed(text) && Places(text) <= places && DecimalTheorems.Denotes(text, x, places)
  }

  /** The text is a decimal with at most 18 places; `x` units of the kept place are nearest to it. */
  predicate ReadsRounded(text: string, x: int, places: nat) {
    WellFormed(text) && Places(text) <= 18 && RoundsTo(text, x, places)
  }

  lemma ParsesIff(text: string, scale: u32, x: i64)
    requires scale <= 18
    ensures ParseScaled(text, scale) == Ok(x) <==> Reads(text, x, scale)
    ensures ParseScaledRounded(text, scale) == Ok(x) <==> ReadsRounded(text, x, scale)
  {
    PublisherParserIsExact(text, scale, x);
    RoundedParserIsNearest(text, scale, x);
  }

  ghost predicate Readable(text: string, places: nat) {
    exists x: i64 :: Reads(text, x, places)
  }

  ghost predicate ReadableRounded(text: string, places: nat) {
    exists x: i64 :: ReadsRounded(text, x, places)
  }

  lemma ReadableIff(text: string, scale: u32)
    requires scale <= 18
    ensures ParseScaled(text, scale).Ok? <==> Readable(text, scale)
    ensures ParseScaledRounded(text, scale).Ok? <==> ReadableRounded(text, scale)
  {
    hide Reads, ReadsRounded, ParseScaled, ParseScaledRounded;
    forall x: i64
      ensures ParseScaled(text, scale) == Ok(x) <==> Reads(text, x, scale)
      ensures ParseScaledRounded(text, scale) == Ok(x) <==> ReadsRounded(text, x, scale)
    {
      ParsesIff(text, scale, x);
    }
    if ParseScaled(text, scale).Ok? {
      assert Reads(text, ParseScaled(text, scale).value, scale);
    }
    if ParseScaledRounded(text, scale).Ok? {
      assert ReadsRounded(text, ParseScaledRounded(text, scale).value, scale);
    }
  }

  // ---------------------------------------------------------------- complete records

  /** The moment is in the hour so many hours after the start. */
  predicate AtHour(time: int, start: int, k: int) {
    start + k * 3_600_000 <= time < start + (k + 1) * 3_600_000
  }

  lemma HourIff(time: int, start: int, k: int)
    requires start % FUNDING_MILLIS == 0
    ensures HourOf(time) == start + k * FUNDING_MILLIS <==> AtHour(time, start, k)
  {
    var hour := start + k * FUNDING_MILLIS;
    AlignedHour(start, k);
    DivBounds(time, FUNDING_MILLIS);
    DivBounds(hour, FUNDING_MILLIS);
    if hour <= time < hour + 3_600_000 {
      DivUnique(time, FUNDING_MILLIS, hour / FUNDING_MILLIS);
    }
  }

  /** The venue's candle of the quarter of an hour that begins then, with readable numbers. */
  ghost predicate IsQuarter(candle: CandleResponse, symbol: Asset, opens: int) {
    && candle.symbol == symbol && candle.interval == "15m"
    && candle.openTime == opens && candle.closeTime == opens + 899_999
    && Readable(candle.open, 6) && Readable(candle.high, 6)
    && Readable(candle.low, 6) && Readable(candle.close, 6)
    && ReadableRounded(candle.volume, 8)
  }

  /** A readable record of the symbol. */
  ghost predicate IsRate(record: FundingResponse, symbol: Asset) {
    record.coin == symbol && Readable(record.fundingRate, 12)
  }

  /** A record of the symbol for an hour of the window. */
  ghost predicate Belongs(record: FundingResponse, symbol: Asset, start: int, hours: nat) {
    IsRate(record, symbol) && InWindow(record.time, start, hours)
  }

  predicate HasRecord(funding: seq<FundingResponse>, start: int, k: int) {
    exists i :: 0 <= i < |funding| && AtHour(funding[i].time, start, k)
  }

  /** One candle for every quarter of an hour, and one record for every hour. */
  ghost predicate Complete(symbol: Asset, intervals: nat, start: int, candles: seq<CandleResponse>,
                           funding: seq<FundingResponse>)
  {
    && |candles| == intervals && |funding| == intervals / 4
    && (forall i :: 0 <= i < intervals ==> IsQuarter(candles[i], symbol, start + i * 900_000))
    && (forall i :: 0 <= i < |funding| ==> Belongs(funding[i], symbol, start, intervals / 4))
    && (forall k :: 0 <= k < intervals / 4 ==> HasRecord(funding, start, k))
    && forall i, j :: 0 <= i < j < |funding| ==>
         funding[i].time / 3_600_000 != funding[j].time / 3_600_000
  }

  lemma QuarterIff(candle: CandleResponse, symbol: Asset, opens: int)
    ensures CandleUsable(candle, symbol, opens) <==> IsQuarter(candle, symbol, opens)
  {
    hide ParseScaled, ParseScaledRounded, Readable, ReadableRounded;
    ReadableIff(candle.open, 6);
    ReadableIff(candle.high, 6);
    ReadableIff(candle.low, 6);
    ReadableIff(candle.close, 6);
    ReadableIff(candle.volume, 8);
  }

  lemma HoursDistinct(a: int, b: int)
    ensures HourOf(a) == HourOf(b) <==> a / 3_600_000 == b / 3_600_000
  {
  }

  lemma ExpectedIff(start: int, intervals: nat, time: int)
    requires start % FUNDING_MILLIS == 0
    ensures HourOf(time) in ExpectedHours(start, intervals)
            <==> InWindow(time, start, intervals / 4)
  {
    hide HourOf, AtHour;
    forall k: int ensures HourOf(time) == start + k * FUNDING_MILLIS <==> AtHour(time, start, k) {
      HourIff(time, start, k);
    }
    if HourOf(time) in ExpectedHours(start, intervals) {
      var k :| 0 <= k < intervals / 4 && HourOf(time) == start + k * FUNDING_MILLIS;
      assert AtHour(time, start, k);
    }
    if k :| 0 <= k < intervals / 4 && AtHour(time, start, k) {
      assert HourOf(time) == start + k * FUNDING_MILLIS;
    }
  }

  /** The moment is in one of the window's hours. */
  predicate InWindow(time: int, start: int, hours: nat) {
    exists k :: 0 <= k < hours && AtHour(time, start, k)
  }

  /** The records' hours are the window's exactly when each record belongs to one of them and each of
      them has a record. */
  lemma HoursIff(funding: seq<FundingResponse>, start: int, intervals: nat)
    requires start % FUNDING_MILLIS == 0
    ensures HoursOf(funding) == ExpectedHours(start, intervals)
            <==> && (forall i :: 0 <= i < |funding| ==>
                       InWindow(funding[i].time, start, intervals / 4))
                 && forall k :: 0 <= k < intervals / 4 ==> HasRecord(funding, start, k)
  {
    if HoursOf(funding) == ExpectedHours(start, intervals) {
      HoursBelong(funding, start, intervals);
    } else if (forall i :: 0 <= i < |funding| ==> InWindow(funding[i].time, start, intervals / 4))
              && forall k :: 0 <= k < intervals / 4 ==> HasRecord(funding, start, k) {
      BelongingHours(funding, start, intervals);
    }
  }

  lemma HoursBelong(funding: seq<FundingResponse>, start: int, intervals: nat)
    requires start % FUNDING_MILLIS == 0
    requires HoursOf(funding) == ExpectedHours(start, intervals)
    ensures forall i :: 0 <= i < |funding| ==> InWindow(funding[i].time, start, intervals / 4)
    ensures forall k :: 0 <= k < intervals / 4 ==> HasRecord(funding, start, k)
  {
    hide HourOf, AtHour, HoursOf;
    forall i | 0 <= i < |funding| ensures InWindow(funding[i].time, start, intervals / 4) {
      HourListed(funding, HourOf(funding[i].time));
      ExpectedIff(start, intervals, funding[i].time);
    }
    forall k | 0 <= k < intervals / 4 ensures HasRecord(funding, start, k) {
      assert start + k * FUNDING_MILLIS in ExpectedHours(start, intervals);
      HasRecordIff(funding, start, k);
    }
  }

  lemma BelongingHours(funding: seq<FundingResponse>, start: int, intervals: nat)
    requires start % FUNDING_MILLIS == 0
    requires forall i :: 0 <= i < |funding| ==> InWindow(funding[i].time, start, intervals / 4)
    requires forall k :: 0 <= k < intervals / 4 ==> HasRecord(funding, start, k)
    ensures HoursOf(funding) == ExpectedHours(start, intervals)
  {
    hide HourOf, AtHour, HoursOf, HasRecord;
    var hours, expected := HoursOf(funding), ExpectedHours(start, intervals);
    forall hour | hour in hours ensures hour in expected {
      HourListed(funding, hour);
      var i :| 0 <= i < |funding| && HourOf(funding[i].time) == hour;
      assert InWindow(funding[i].time, start, intervals / 4);
      ExpectedIff(start, intervals, funding[i].time);
    }
    forall hour | hour in expected ensures hour in hours {
      var k :| 0 <= k < intervals / 4 && hour == start + k * FUNDING_MILLIS;
      assert HasRecord(funding, start, k);
      HasRecordIff(funding, start, k);
    }
  }

  lemma HasRecordIff(funding: seq<FundingResponse>, start: int, k: int)
    requires start % FUNDING_MILLIS == 0
    ensures start + k * FUNDING_MILLIS in HoursOf(funding) <==> HasRecord(funding, start, k)
  {
    hide HourOf, AtHour, HoursOf;
    var hour := start + k * FUNDING_MILLIS;
    HourListed(funding, hour);
    forall i | 0 <= i < |funding|
      ensures HourOf(funding[i].time) == hour <==> AtHour(funding[i].time, start, k)
    {
      HourIff(funding[i].time, start, k);
    }
  }

  lemma RecordIff(record: FundingResponse, symbol: Asset, start: int, hours: nat)
    requires start % FUNDING_MILLIS == 0 && InWindow(record.time, start, hours)
    ensures FundingUsable(record, symbol, start) <==> IsRate(record, symbol)
  {
    var k :| 0 <= k < hours && AtHour(record.time, start, k);
    HourIff(record.time, start, k);
    ReadableIff(record.fundingRate, 12);
    hide ParseScaled, Readable;
  }

  lemma RecordsIff(symbol: Asset, intervals: nat, start: int, funding: seq<FundingResponse>)
    requires start % FUNDING_MILLIS == 0
    ensures && (forall i :: 0 <= i < |funding| ==> FundingUsable(funding[i], symbol, start))
            && HoursOf(funding) == ExpectedHours(start, intervals)
            <==> && (forall i :: 0 <= i < |funding| ==>
                       Belongs(funding[i], symbol, start, intervals / 4))
                 && forall k :: 0 <= k < intervals / 4 ==> HasRecord(funding, start, k)
  {
    hide HoursOf, ExpectedHours, FundingUsable, IsRate, HasRecord, InWindow;
    HoursIff(funding, start, intervals);
    forall i | 0 <= i < |funding| && InWindow(funding[i].time, start, intervals / 4)
      ensures FundingUsable(funding[i], symbol, start) <==> IsRate(funding[i], symbol)
    {
      RecordIff(funding[i], symbol, start, intervals / 4);
    }
  }

  lemma DistinctIff(funding: seq<FundingResponse>)
    ensures DistinctHours(funding)
            <==> forall i, j :: 0 <= i < j < |funding| ==>
                   funding[i].time / 3_600_000 != funding[j].time / 3_600_000
  {
    hide HourOf;
    forall i, j | 0 <= i < j < |funding|
      ensures HourOf(funding[i].time) != HourOf(funding[j].time)
              <==> funding[i].time / 3_600_000 != funding[j].time / 3_600_000
    {
      HoursDistinct(funding[i].time, funding[j].time);
    }
  }

  /** A source is usable exactly when it is complete. */
  lemma UsableIff(symbol: Asset, intervals: nat, start: int, candles: seq<CandleResponse>,
                  funding: seq<FundingResponse>)
    requires start % FUNDING_MILLIS == 0
    ensures Usable(symbol, intervals, start, candles, funding)
            <==> Complete(symbol, intervals, start, candles, funding)
  {
    RecordsIff(symbol, intervals, start, funding);
    DistinctIff(funding);
    hide HourOf, HoursOf, ExpectedHours, CandleUsable, IsQuarter, FundingUsable, Belongs, HasRecord,
         DistinctHours;
    forall i | 0 <= i < |candles|
      ensures CandleUsable(candles[i], symbol, OpenAt(start, i))
              <==> IsQuarter(candles[i], symbol, start + i * 900_000)
    {
      QuarterIff(candles[i], symbol, start + i * 900_000);
    }
  }

  /** A window runs from a whole hour to a later one, over at most 5,000 quarters of an hour. */
  lemma WindowIff(start: i64, end: i64)
    ensures ValidateWindow(start, end).Ok?
            <==> && 0 <= start < end && start % 3_600_000 == 0 && end % 3_600_000 == 0
                 && end - start <= 5_000 * 900_000
  {
    if 0 <= start < end && start % 3_600_000 == 0 && end % 3_600_000 == 0 {
      WholeQuarters(start, end);
    }
  }

  lemma WholeQuarters(start: int, end: int)
    requires start < end && start % 3_600_000 == 0 && end % 3_600_000 == 0
    ensures (end - start) % 900_000 == 0 && (end - start) / 900_000 >= 4
  {
    var hours := end / 3_600_000 - start / 3_600_000;
    assert end - start == hours * 3_600_000 && hours >= 1;
    DivUnique(end - start, 900_000, 4 * hours);
  }

  // ---------------------------------------------------------------- what a row says

  /** The row says what the candle says: prices to six places, the volume rounded to eight. */
  predicate TellsCandle(row: Candle, candle: CandleResponse) {
    && row.symbol == candle.symbol
    && row.openTime == candle.openTime && row.closeTime == candle.closeTime
    && Reads(candle.open, row.open, 6) && Reads(candle.high, row.high, 6)
    && Reads(candle.low, row.low, 6) && Reads(candle.close, row.close, 6)
    && ReadsRounded(candle.volume, row.volume, 8)
  }

  /** The row that opens an hour carries the rate of the hour's record, to twelve places; the other
      three carry none. */
  predicate TellsFunding(row: Candle, funding: seq<FundingResponse>, start: int, index: nat) {
    if index % 4 != 0 then row.fundingRate == 0
    else
      exists k :: && 0 <= k < |funding| && AtHour(funding[k].time, start, index / 4)
                  && Reads(funding[k].fundingRate, row.fundingRate, 12)
  }

  lemma {:induction false} RateOfHour(funding: seq<FundingResponse>, k: nat)
    requires k < |funding| && DistinctHours(funding)
    requires forall i :: 0 <= i < |funding| ==> Rate(funding[i]).Ok?
    ensures HourOf(funding[k].time) in RatesByHour(funding)
    ensures RatesByHour(funding)[HourOf(funding[k].time)] == Rate(funding[k]).value
  {
    hide HourOf, ParseScaled;
    if k < |funding| - 1 {
      RateOfHour(funding[..|funding| - 1], k);
    }
  }

  lemma FundingTold(symbol: Asset, intervals: nat, start: int, candles: seq<CandleResponse>,
                    funding: seq<FundingResponse>, row: Candle, index: nat)
    requires start % FUNDING_MILLIS == 0 && index < intervals && intervals % 4 == 0
    requires Usable(symbol, intervals, start, candles, funding)
    requires row.fundingRate == RateAt(RatesByHour(funding), OpenAt(start, index))
    ensures TellsFunding(row, funding, start, index)
  {
    hide HourOf, ParseScaled, RatesByHour, CandleUsable, HoursOf, AtHour, DistinctHours, Reads;
    HoursBelong(funding, start, intervals);
    if index % 4 == 0 {
      assert HasRecord(funding, start, index / 4);
      var k :| 0 <= k < |funding| && AtHour(funding[k].time, start, index / 4);
      HourIff(funding[k].time, start, index / 4);
      assert OpenAt(start, index) == start + (index / 4) * FUNDING_MILLIS;
      RateOfHour(funding, k);
      ParsesIff(funding[k].fundingRate, 12, row.fundingRate);
    } else {
      HoursAreFourQuarters(start, index);
      assert OpenAt(start, index) !in ExpectedHours(start, intervals);
    }
  }

  lemma HoursAreFourQuarters(start: int, index: nat)
    ensures forall k: int :: OpenAt(start, index) == start + k * FUNDING_MILLIS ==> index % 4 == 0
  {
    forall k: int | OpenAt(start, index) == start + k * FUNDING_MILLIS ensures index % 4 == 0 {
      assert index == 4 * k;
    }
  }

  lemma CandleTold(symbol: Asset, sizeDecimals: u8, openTime: i64, candle: CandleResponse, rate: i64)
    requires CandleUsable(candle, symbol, openTime)
    ensures TellsCandle(NormalizedRow(symbol, sizeDecimals, openTime, candle, rate), candle)
  {
    hide ParseScaled, ParseScaledRounded, Reads, ReadsRounded;
    var row := NormalizedRow(symbol, sizeDecimals, openTime, candle, rate);
    ParsesIff(candle.open, 6, row.open);
    ParsesIff(candle.high, 6, row.high);
    ParsesIff(candle.low, 6, row.low);
    ParsesIff(candle.close, 6, row.close);
    ParsesIff(candle.volume, 8, row.volume);
  }

  /** Every row of one symbol's series says what its candle and its hour's record say. */
  lemma NormalizedRowTells(symbol: Asset, sizeDecimals: u8, intervals: nat, start: int,
                           candles: seq<CandleResponse>, funding: seq<FundingResponse>,
                           rows: seq<Candle>, index: nat)
    requires start % FUNDING_MILLIS == 0 && index < intervals && intervals % 4 == 0
    requires Usable(symbol, intervals, start, candles, funding)
    requires IsNormalized(symbol, sizeDecimals, intervals, start, candles, funding, rows)
    ensures TellsCandle(rows[index], candles[index])
    ensures TellsFunding(rows[index], funding, start, index)
    ensures rows[index].symbol == symbol && rows[index].sizeDecimals == sizeDecimals
    ensures rows[index].openTime == start + index * 900_000
  {
    hide HourOf, HoursOf, RatesByHour, ExpectedHours, DistinctHours, FundingUsable, CandleUsable,
         TellsFunding, TellsCandle;
    assert CandleUsable(candles[index], symbol, OpenAt(start, index));
    CandleTold(symbol, sizeDecimals, OpenAt(start, index), candles[index], rows[index].fundingRate);
    FundingTold(symbol, intervals, start, candles, funding, rows[index], index);
  }

  /** The row at a place of the published table: its symbol's, of its interval, saying what that
      symbol's source says. */
  ghost predicate RowSays(request: Request, row: Candle, index: nat, column: nat)
    requires column < 3
  {
    var symbol := [BTC, ETH, SOL][column];
    && symbol in request.sources && symbol in request.universe
    && var source := request.sources[symbol];
       && index < |source.candles|
       && row.symbol == symbol && row.sizeDecimals == request.universe[symbol].sizeDecimals
       && row.openTime == request.start + index * 900_000
       && TellsCandle(row, source.candles[index])
       && TellsFunding(row, source.funding, request.start, index)
  }

  /** The published table has three rows for every quarter of an hour of the window, and every row says
      what the venue's records of its symbol and interval say. */
  lemma PublishedRowsTell(request: Request, rows: seq<Candle>)
    requires request.Buildable() && request.IsTable(rows)
    ensures |rows| * 900_000 == 3 * (request.end - request.start)
    ensures forall j: nat :: j < |rows| ==> RowSays(request, rows[j], j / 3, j % 3)
  {
    hide Usable, SymbolDone, ValidateWindow, RowSays;
    var intervals := ValidateWindow(request.start, request.end).value;
    WindowIsWholeHours(request.start, request.end, intervals);
    var series :| request.Made(series, rows);
    forall j: nat | j < |rows| ensures RowSays(request, rows[j], j / 3, j % 3) {
      var c := j % 3;
      assert rows[j] == series[SYMBOLS[c]][j / 3];
      RowTold(request, intervals, series[SYMBOLS[c]], c, j / 3);
    }
  }

  lemma RowTold(request: Request, intervals: nat, rows: seq<Candle>, column: nat, index: nat)
    requires column < 3 && index < intervals && intervals % 4 == 0 && request.start % FUNDING_MILLIS == 0
    requires forall i :: 0 <= i < 3 ==> Listed(request.universe, i)
    requires SYMBOLS[column] in request.sources
    requires SymbolDone(request.Instruments()[column], request.sources[SYMBOLS[column]], intervals,
                        request.start, rows)
    ensures |rows| == intervals && RowSays(request, rows[index], index, column)
  {
    hide HoursOf, RatesByHour, ExpectedHours, DistinctHours, FundingUsable, CandleUsable, TellsFunding,
         TellsCandle, IsNormalized;
    var instrument, source := request.Instruments()[column], request.sources[SYMBOLS[column]];
    NormalizedLength(instrument, source, intervals, request.start, rows);
    NormalizedRowTells(instrument.symbol, instrument.sizeDecimals, intervals, request.start,
                       source.candles, source.funding, rows, index);
    assert instrument == InstrumentOf(request.universe, column);
  }
}
