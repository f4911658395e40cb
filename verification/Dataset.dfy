/** The agent's dataset validator: a single pass over rows with per-symbol memory, proved to accept
    exactly the interleaved quarter-hour grid. */
module Dataset {
  import opened Arithmetic
  import opened Policy
  import opened Backtest

  const FUNDING_MILLIS: int := 3_600_000

  datatype Instrument = Instrument(
    symbol: Asset,
    sizeDecimals: u8,
    maxLeverage: u16,
    isDelisted: bool)

  predicate PricesValid(row: Candle) {
    && row.open > 0
    && row.high >= row.open && row.high >= row.close
    && row.low <= row.open && row.low <= row.close
    && row.volume >= 0
    && row.sizeDecimals <= 8
  }

  predicate FundingAligned(row: Candle) {
    row.fundingRate != 0 ==> row.openTime % FUNDING_MILLIS == 0
  }

  predicate RowValid(row: Candle) {
    && InUniverse(row.symbol)
    && row.closeTime == row.openTime + CANDLE_MILLIS - 1
    && PricesValid(row) && FundingAligned(row)
  }

  // ---------------------------------------------------------------- what is accepted

  /** Row `i` sits where the interleaved grid puts it. */
  predicate Placed(rows: seq<Candle>, i: nat)
    requires i < |rows|
  {
    && rows[i].symbol == SYMBOLS[i % 3]
    && rows[i].openTime == rows[0].openTime + (i / 3) * CANDLE_MILLIS
    && (i % 3 < |rows| ==> rows[i].sizeDecimals == rows[i % 3].sizeDecimals)
  }

  ghost predicate Admitted(rows: seq<Candle>) {
    && rows != [] && |rows| % 3 == 0
    && (forall i: nat :: i < |rows| ==> RowValid(rows[i]))
    && (forall i: nat {:trigger Placed(rows, i)} :: i < |rows| ==> Placed(rows, i))
  }

  // ---------------------------------------------------------------- what the pass remembers

  function Order(symbol: Asset): int
    requires InUniverse(symbol)
  {
    match symbol
    case BTC => 0
    case ETH => 1
    case SOL => 2
  }

  predicate KeyLess(time: int, order: int, row: Candle)
    requires InUniverse(row.symbol)
  {
    time < row.openTime || (time == row.openTime && order < Order(row.symbol))
  }

  /** Index of the last row of `symbol` before `end`, or -1. */
  function LastBefore(rows: seq<Candle>, end: nat, symbol: Asset): (i: int)
    requires end <= |rows|
    ensures -1 <= i < end
    ensures i >= 0 ==> rows[i].symbol == symbol
  {
    if end == 0 then -1
    else if rows[end - 1].symbol == symbol then end - 1
    else LastBefore(rows, end - 1, symbol)
  }

  /** Row `i` continues the previous row of its own symbol. */
  predicate Linked(rows: seq<Candle>, i: nat)
    requires i < |rows|
  {
    var previous := LastBefore(rows, i, rows[i].symbol);
    previous >= 0 ==>
      && rows[i].openTime == rows[previous].openTime + CANDLE_MILLIS
      && rows[i].sizeDecimals == rows[previous].sizeDecimals
  }

  predicate Ascending(rows: seq<Candle>, i: nat)
    requires i < |rows|
  {
    && InUniverse(rows[i].symbol)
    && (i > 0 ==> InUniverse(rows[i - 1].symbol)
                  && KeyLess(rows[i - 1].openTime, Order(rows[i - 1].symbol), rows[i]))
  }

  predicate ChunkValid(rows: seq<Candle>, k: nat)
    requires 3 * k + 3 <= |rows|
  {
    && rows[3 * k].symbol == BTC && rows[3 * k + 1].symbol == ETH && rows[3 * k + 2].symbol == SOL
    && rows[3 * k].openTime == rows[3 * k + 1].openTime == rows[3 * k + 2].openTime
  }

  lemma {:induction false} PlacedSymbols(rows: seq<Candle>, i: nat)
    requires i < |rows| && forall j: nat :: j <= i ==> rows[j].symbol == SYMBOLS[j % 3]
    ensures LastBefore(rows, i, rows[i].symbol) == if i < 3 then -1 else i - 3
  {
    var symbol := rows[i].symbol;
    if i >= 1 {
      assert rows[i - 1].symbol == SYMBOLS[(i - 1) % 3] != symbol;
      assert LastBefore(rows, i, symbol) == LastBefore(rows, i - 1, symbol);
    }
    if i >= 2 {
      assert rows[i - 2].symbol == SYMBOLS[(i - 2) % 3] != symbol;
      assert LastBefore(rows, i - 1, symbol) == LastBefore(rows, i - 2, symbol);
    }
    if i >= 3 {
      assert rows[i - 3].symbol == SYMBOLS[(i - 3) % 3] == symbol;
      assert LastBefore(rows, i - 2, symbol) == i - 3;
    }
  }

  /** An admitted table passes every check of the pass. */
  lemma AdmittedPasses(rows: seq<Candle>, i: nat)
    requires Admitted(rows) && i < |rows|
    ensures Linked(rows, i) && Ascending(rows, i)
  {
    forall j: nat | j <= i ensures rows[j].symbol == SYMBOLS[j % 3] {
      assert Placed(rows, j);
    }
    PlacedSymbols(rows, i);
    assert Placed(rows, i);
    if i >= 1 {
      assert Placed(rows, i - 1);
    }
    if i >= 3 {
      assert Placed(rows, i - 3);
    }
  }

  lemma AdmittedChunks(rows: seq<Candle>, k: nat)
    requires Admitted(rows) && 3 * k + 3 <= |rows|
    ensures ChunkValid(rows, k)
  {
    assert Placed(rows, 3 * k) && Placed(rows, 3 * k + 1) && Placed(rows, 3 * k + 2);
  }

  lemma ChunkSymbols(rows: seq<Candle>)
    requires |rows| % 3 == 0
    requires forall k: nat {:trigger ChunkValid(rows, k)} :: 3 * k + 3 <= |rows| ==> ChunkValid(rows, k)
    ensures forall i: nat :: i < |rows| ==>
              && rows[i].symbol == SYMBOLS[i % 3]
              && rows[i].openTime == rows[3 * (i / 3)].openTime
  {
    forall i: nat | i < |rows|
      ensures rows[i].symbol == SYMBOLS[i % 3] && rows[i].openTime == rows[3 * (i / 3)].openTime
    {
      assert ChunkValid(rows, i / 3);
    }
  }

  /** The checks of the pass and of the chunks together place every row on the grid. */
  lemma {:induction false} ChecksPlace(rows: seq<Candle>, i: nat)
    requires i < |rows| && |rows| % 3 == 0
    requires forall j: nat {:trigger Linked(rows, j)} :: j < |rows| ==> Linked(rows, j)
    requires forall k: nat {:trigger ChunkValid(rows, k)} :: 3 * k + 3 <= |rows| ==> ChunkValid(rows, k)
    ensures Placed(rows, i)
  {
    ChunkSymbols(rows);
    if i >= 3 {
      ChecksPlace(rows, i - 3);
      PlacedSymbols(rows, i);
      assert Linked(rows, i);
    }
  }

  /** What `CheckRows` has remembered of the whole table. */
  ghost predicate Remembers(rows: seq<Candle>, end: nat, lastOpen: map<Asset, int>)
    requires end <= |rows|
  {
    && (forall s :: s in lastOpen <==> LastBefore(rows, end, s) >= 0)
    && (forall s :: s in lastOpen ==> lastOpen[s] == rows[LastBefore(rows, end, s)].openTime)
  }

  /** And of the lots. */
  ghost predicate RemembersLots(rows: seq<Candle>, end: nat, decimals: map<Asset, u8>)
    requires end <= |rows|
  {
    && (forall s :: s in decimals <==> LastBefore(rows, end, s) >= 0)
    && (forall s :: s in decimals ==> decimals[s] == rows[LastBefore(rows, end, s)].sizeDecimals)
  }

  /** Accepting a row that follows what is remembered of its symbol. */
  lemma RemembersNext(rows: seq<Candle>, i: nat, lastOpen: map<Asset, int>, decimals: map<Asset, u8>)
    requires i < |rows| && Remembers(rows, i, lastOpen) && RemembersLots(rows, i, decimals)
    requires rows[i].symbol in lastOpen ==>
               rows[i].openTime == lastOpen[rows[i].symbol] + CANDLE_MILLIS
    requires rows[i].symbol in decimals ==> rows[i].sizeDecimals == decimals[rows[i].symbol]
    ensures Linked(rows, i)
    ensures Remembers(rows, i + 1, lastOpen[rows[i].symbol := rows[i].openTime])
    ensures RemembersLots(rows, i + 1, decimals[rows[i].symbol := rows[i].sizeDecimals])
  {
    hide LastBefore, Linked;
    AcceptedLink(rows, i);
  }

  /** A row that does not follow what is remembered of its symbol. */
  lemma RemembersMismatch(rows: seq<Candle>, i: nat, lastOpen: map<Asset, int>, decimals: map<Asset, u8>)
    requires i < |rows| && Remembers(rows, i, lastOpen) && RemembersLots(rows, i, decimals)
    requires var symbol := rows[i].symbol;
             || (symbol in lastOpen && rows[i].openTime != lastOpen[symbol] + CANDLE_MILLIS)
             || (symbol in decimals && rows[i].sizeDecimals != decimals[symbol])
    ensures !Admitted(rows)
  {
    hide LastBefore, Admitted;
    RejectedLink(rows, i);
  }

  /** One pass remembering the previous key and, by symbol, the last open time and the lot. */
  method CheckRows(rows: seq<Candle>) returns (remembered: Option<map<Asset, int>>)
    ensures remembered.None? ==> !Admitted(rows)
    ensures remembered.Some? ==>
              && (forall j: nat :: j < |rows| ==> RowValid(rows[j]))
              && (forall j: nat {:trigger Linked(rows, j)} :: j < |rows| ==> Linked(rows, j))
              && Remembers(rows, |rows|, remembered.value)
  {
    hide Linked, Admitted, PricesValid, FundingAligned, LastBefore, KeyLess, Order;
    var previousKey: Option<(int, int)> := None;
    var lastOpen: map<Asset, int> := map[];
    var decimals: map<Asset, u8> := map[];
    NothingRemembered(rows);
    hide Remembers, RemembersLots;
    for i := 0 to |rows|
      invariant forall j: nat :: j < i ==> RowValid(rows[j])
      invariant forall j: nat {:trigger Linked(rows, j)} :: j < i ==> Linked(rows, j)
      invariant previousKey == if i == 0 then None
                               else Some((rows[i - 1].openTime, Order(rows[i - 1].symbol)))
      invariant Remembers(rows, i, lastOpen) && RemembersLots(rows, i, decimals)
    {
      var row := rows[i];
      if !InUniverse(row.symbol)
         || (previousKey.Some? && !KeyLess(previousKey.value.0, previousKey.value.1, row))
         || row.closeTime != row.openTime + CANDLE_MILLIS - 1
         || !PricesValid(row) || !FundingAligned(row) {
        RejectedRow(rows, i);
        return None;
      }
      var symbol := row.symbol;
      if symbol in lastOpen && row.openTime != lastOpen[symbol] + CANDLE_MILLIS {
        RemembersMismatch(rows, i, lastOpen, decimals);
        return None;
      }
      if symbol in decimals && decimals[symbol] != row.sizeDecimals {
        RemembersMismatch(rows, i, lastOpen, decimals);
        return None;
      }
      RemembersNext(rows, i, lastOpen, decimals);
      lastOpen := lastOpen[symbol := row.openTime];
      decimals := decimals[symbol := row.sizeDecimals];
      previousKey := Some((row.openTime, Order(symbol)));
    }
    return Some(lastOpen);
  }

  lemma NothingRemembered(rows: seq<Candle>)
    ensures Remembers(rows, 0, map[]) && RemembersLots(rows, 0, map[])
  {
  }

  /** The whole validation: the pass, all three symbols seen, then chunk by chunk. */
  method ValidateCandles(rows: seq<Candle>) returns (valid: bool)
    ensures valid <==> Admitted(rows)
  {
    hide Linked, Ascending, Admitted, Placed, RowValid, LastBefore, Remembers, ChunkValid;
    if rows == [] || |rows| % 3 != 0 {
      NotAdmitted(rows);
      return false;
    }
    var remembered := CheckRows(rows);
    if remembered.None? {
      return false;
    }
    if |remembered.value| != 3 {
      MissingSymbol(rows, remembered.value);
      return false;
    }
    for k := 0 to |rows| / 3
      invariant forall j: nat {:trigger ChunkValid(rows, j)} :: j < k ==> ChunkValid(rows, j)
    {
      if !ChunkValid(rows, k) {
        if Admitted(rows) {
          AdmittedChunks(rows, k);
        }
        return false;
      }
    }
    AcceptedTable(rows);
    return true;
  }

  lemma NotAdmitted(rows: seq<Candle>)
    requires rows == [] || |rows| % 3 != 0
    ensures !Admitted(rows)
  {
  }

  lemma RejectedRow(rows: seq<Candle>, i: nat)
    requires i < |rows|
    requires || !RowValid(rows[i])
             || (i > 0 && InUniverse(rows[i - 1].symbol)
                 && !KeyLess(rows[i - 1].openTime, Order(rows[i - 1].symbol), rows[i]))
    ensures !Admitted(rows)
  {
    if Admitted(rows) {
      AdmittedPasses(rows, i);
    }
  }

  lemma RejectedLink(rows: seq<Candle>, i: nat)
    requires i < |rows|
    requires var previous := LastBefore(rows, i, rows[i].symbol);
             && previous >= 0
             && (|| rows[i].openTime != rows[previous].openTime + CANDLE_MILLIS
                 || rows[i].sizeDecimals != rows[previous].sizeDecimals)
    ensures !Admitted(rows)
  {
    if Admitted(rows) {
      AdmittedPasses(rows, i);
    }
  }

  lemma AcceptedLink(rows: seq<Candle>, i: nat)
    requires i < |rows|
    requires var previous := LastBefore(rows, i, rows[i].symbol);
             previous >= 0 ==>
               && rows[i].openTime == rows[previous].openTime + CANDLE_MILLIS
               && rows[i].sizeDecimals == rows[previous].sizeDecimals
    ensures Linked(rows, i)
    ensures forall s :: LastBefore(rows, i + 1, s)
                        == if s == rows[i].symbol then i else LastBefore(rows, i, s)
  {
  }

  lemma MissingSymbol(rows: seq<Candle>, lastOpen: map<Asset, int>)
    requires Remembers(rows, |rows|, lastOpen)
    requires forall j: nat :: j < |rows| ==> RowValid(rows[j])
    requires |lastOpen| != 3
    ensures !Admitted(rows)
  {
    hide LastBefore, Admitted;
    if Admitted(rows) {
      AllSymbolsSeen(rows, lastOpen);
    }
  }

  lemma AllSymbolsSeen(rows: seq<Candle>, lastOpen: map<Asset, int>)
    requires Remembers(rows, |rows|, lastOpen)
    requires forall j: nat :: j < |rows| ==> RowValid(rows[j])
    requires Admitted(rows)
    ensures |lastOpen| == 3
  {
    assert Placed(rows, 0) && Placed(rows, 1) && Placed(rows, 2);
    SeenIsRemembered(rows, |rows|, 0);
    SeenIsRemembered(rows, |rows|, 1);
    SeenIsRemembered(rows, |rows|, 2);
    hide Admitted, Placed, LastBefore, PricesValid, FundingAligned;
    forall s ensures s in lastOpen.Keys <==> s in {BTC, ETH, SOL} {
      if s in lastOpen {
        assert RowValid(rows[LastBefore(rows, |rows|, s)]);
      }
    }
    assert lastOpen.Keys == {BTC, ETH, SOL};
    assert |lastOpen| == |lastOpen.Keys|;
  }

  lemma {:induction false} SeenIsRemembered(rows: seq<Candle>, end: nat, i: nat)
    requires i < end <= |rows|
    ensures LastBefore(rows, end, rows[i].symbol) >= i
  {
    if i < end - 1 {
      SeenIsRemembered(rows, end - 1, i);
    }
  }

  lemma AcceptedTable(rows: seq<Candle>)
    requires rows != [] && |rows| % 3 == 0
    requires forall j: nat :: j < |rows| ==> RowValid(rows[j])
    requires forall j: nat {:trigger Linked(rows, j)} :: j < |rows| ==> Linked(rows, j)
    requires forall k: nat {:trigger ChunkValid(rows, k)} :: k < |rows| / 3 ==> ChunkValid(rows, k)
    ensures Admitted(rows)
  {
    hide Linked, Placed, ChunkValid, RowValid;
    forall i: nat | i < |rows| ensures Placed(rows, i) {
      ChecksPlace(rows, i);
    }
  }

  /** What an admitted row says: the asset of its column, its quarter of an hour counted from the first
      row, the lot of its column, funding only on the hour, and open and close within low and high. */
  predicate InGrid(rows: seq<Candle>, i: nat)
    requires i < |rows| && |rows| >= 3
  {
    var row := rows[i];
    && row.symbol == [BTC, ETH, SOL][i % 3]
    && row.openTime == rows[0].openTime + (i / 3) * 900_000
    && row.closeTime == row.openTime + 899_999
    && row.sizeDecimals == rows[i % 3].sizeDecimals <= 8
    && (row.fundingRate == 0 || row.openTime % (4 * 900_000) == 0)
    && 0 < row.open && 0 <= row.volume
    && row.low <= Min(row.open, row.close) && Max(row.open, row.close) <= row.high
  }

  /** A table is admitted exactly when it has whole intervals and every row says so. */
  lemma AdmittedIff(rows: seq<Candle>)
    ensures Admitted(rows)
            <==> |rows| >= 3 && |rows| % 3 == 0 && forall i: nat :: i < |rows| ==> InGrid(rows, i)
  {
    if |rows| >= 3 {
      forall i: nat | i < |rows| ensures InGrid(rows, i) <==> RowValid(rows[i]) && Placed(rows, i) {
        InGridIff(rows, i);
      }
    }
    hide InGrid, RowValid, Placed;
  }

  lemma InGridIff(rows: seq<Candle>, i: nat)
    requires i < |rows| && |rows| >= 3
    ensures InGrid(rows, i) <==> RowValid(rows[i]) && Placed(rows, i)
  {
  }

  predicate InstrumentsValid(instruments: seq<Instrument>, rows: seq<Candle>) {
    && |instruments| == 3
    && (forall i :: 0 <= i < 3 ==>
          && instruments[i].symbol == SYMBOLS[i]
          && instruments[i].sizeDecimals <= 8
          && instruments[i].maxLeverage != 0
          && !instruments[i].isDelisted)
    && (forall i, j :: 0 <= i < 3 && 0 <= j < |rows| && rows[j].symbol == instruments[i].symbol
          ==> rows[j].sizeDecimals == instruments[i].sizeDecimals)
  }

  // ---------------------------------------------------------------- agreement with the backtest

  /** Anything the validator accepts, with at least two intervals, passes the backtest's own grid
      check. */
  lemma AdmittedIsBacktestable(rows: seq<Candle>, proposals: seq<ScheduledProposal>, cash: i64)
    requires Admitted(rows) && |rows| >= 6
    ensures ValidGrid(rows)
    ensures cash > 0 && Schedule(proposals).Some? ==> ValidInput(rows, proposals, cash)
  {
    forall index: nat, column: nat | index < IntervalCount(rows) && column < 3
      ensures OnGrid(rows, index, column)
    {
      var i := 3 * index + column;
      assert Placed(rows, i) && Placed(rows, 3 * index);
      assert RowValid(rows[i]);
      assert i / 3 == index && i % 3 == column;
      if index > 0 {
        assert Placed(rows, i - 3);
        assert (i - 3) / 3 == index - 1;
      }
    }
  }
}
