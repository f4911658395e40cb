/** The market state the policy is asked about, built from the displayed book. */
module Market {
  import opened Arithmetic
  import opened Policy
  import opened Book

  /** What the venue says about the asset besides its book; a price that does not fit is `None`. */
  datatype AssetContext = AssetContext(markPrice: Option<i64>, oraclePrice: Option<i64>)

  datatype MarketSnapshot = MarketSnapshot(market: MarketState, book: BookSnapshot)

  /** Everything a refreshed market snapshot is made of. */
  datatype MarketView = MarketView(
    symbol: Asset,
    sizeDecimals: u8,
    context: AssetContext,
    book: BookSnapshot,
    observedAtMs: u64)
  {
    /** Both tops are positive prices that do not cross. */
    predicate Quoted() {
      && book.HasTop(Sell) && book.HasTop(Buy)
      && book.Top(Sell) <= book.Top(Buy)
      && book.Top(Sell) + book.Top(Buy) <= I64_MAX
    }

    /** The distance of the tops in basis points of their middle, rounded down. */
    function SpreadBps(): int
      requires Quoted()
    {
      TruncDiv((book.Top(Buy) - book.Top(Sell)) * BPS, (book.Top(Buy) + book.Top(Sell)) / 2)
    }

    predicate Usable() {
      && Quoted()
      && book.venueTimeMs <= observedAtMs
      && SpreadBps() <= U16_MAX
      && book.DepthReadable(Sell) && book.DepthReadable(Buy)
      && context.markPrice.Some? && context.oraclePrice.Some?
    }

    function AgeSeconds(): u16
      requires book.venueTimeMs <= observedAtMs
    {
      Min((observedAtMs - book.venueTimeMs) / 1_000, U16_MAX)
    }

    /** The depth the book displays on a side, within the slippage. */
    function SweptDepth(side: Side): int
      requires book.HasTop(side)
    {
      Depth(book.Opposing(side), Swept(book.Opposing(side), side, book.Top(side)))
    }
  }

  lemma SweptDepthFits(view: MarketView, side: Side)
    requires view.book.HasTop(side) && view.book.DepthReadable(side)
    ensures 0 <= view.SweptDepth(side) <= I64_MAX
  {
    hide PriceOf, QuantityOf;
    var levels := view.book.Opposing(side);
    SweptReaches(levels, side, view.book.Top(side));
    DepthNonNegative(levels, Swept(levels, side, view.book.Top(side)));
  }

  lemma SpreadIsNat(view: MarketView)
    requires view.Quoted()
    ensures view.SpreadBps() >= 0
  {
    hide PriceOf;
    DivNat((view.book.Top(Buy) - view.book.Top(Sell)) * BPS,
           (view.book.Top(Buy) + view.book.Top(Sell)) / 2);
  }

  /** The state the policy sees of a usable view. */
  function MarketOf(view: MarketView): MarketState
    requires view.Usable()
  {
    SpreadIsNat(view);
    SweptDepthFits(view, Buy);
    SweptDepthFits(view, Sell);
    MarketState(view.symbol, view.context.markPrice.value, view.context.oraclePrice.value,
                view.SpreadBps(), view.AgeSeconds(), view.SweptDepth(Buy), view.SweptDepth(Sell),
                view.sizeDecimals, false)
  }

  /** The depth the policy compares an order with is the depth of the side it sweeps. */
  lemma MarketDepth(view: MarketView, side: Side)
    requires view.Usable()
    ensures view.book.HasTop(side) && view.book.DepthReadable(side)
    ensures AvailableDepth(side, MarketOf(view)) == view.SweptDepth(side)
  {
    hide Depth, Swept, PriceOf;
  }

  /** `age` whole seconds have passed, or at least as many as 16 bits count. */
  predicate IsAge(millis: int, age: int) {
    age * 1_000 <= millis && (age < U16_MAX ==> millis < (age + 1) * 1_000) && 0 <= age <= U16_MAX
  }

  /** `bps` is the distance from bid to ask in basis points of their middle, rounded down. */
  predicate IsSpread(bid: int, ask: int, bps: int) {
    var middle := (bid + ask) / 2;
    bps * middle <= (ask - bid) * 10_000 < (bps + 1) * middle
  }

  /** The market state says what the view says: the venue's prices, the age and spread of its book, and
      what each side displays. */
  predicate TellsMarket(view: MarketView, market: MarketState)
    requires view.book.bids != [] && view.book.asks != []
  {
    var bids, asks := view.book.bids, view.book.asks;
    && market.symbol == view.symbol && market.sizeDecimals == view.sizeDecimals && !market.delisted
    && view.context == AssetContext(Some(market.markPrice), Some(market.oraclePrice))
    && IsAge(view.observedAtMs - view.book.venueTimeMs, market.bookAgeSeconds)
    && IsSpread(PriceOf(bids[0]), PriceOf(asks[0]), market.spreadBps)
    && market.askDepth == Depth(asks, Swept(asks, Buy, PriceOf(asks[0])))
    && market.bidDepth == Depth(bids, Swept(bids, Sell, PriceOf(bids[0])))
  }

  /** What the policy is told of a usable view is what the view says. */
  lemma MarketSays(view: MarketView)
    requires view.Usable()
    ensures view.book.bids != [] && view.book.asks != []
    ensures TellsMarket(view, MarketOf(view))
  {
    hide PriceOf, BookSnapshot.DepthReadable, Depth, Swept;
    var bid, ask := view.book.Top(Sell), view.book.Top(Buy);
    var middle := (bid + ask) / 2;
    SpreadIsNat(view);
    assert view.SpreadBps() == (ask - bid) * BPS / middle;
    DivBounds((ask - bid) * BPS, middle);
    DivBounds(view.observedAtMs - view.book.venueTimeMs, 1_000);
  }

  /** A view is usable exactly when both sides have a readable best price that do not cross, with a
      spread that 16 bits hold, the book is no newer than the moment it was observed, both sides can be
      summed, and the venue gives both reference prices. */
  lemma UsableIff(view: MarketView)
    ensures var bids, asks := view.book.bids, view.book.asks;
            view.Usable()
            <==> && bids != [] && asks != []
                 && 0 < PriceOf(bids[0]) <= PriceOf(asks[0])
                 && PriceOf(bids[0]) + PriceOf(asks[0]) <= I64_MAX
                 && (PriceOf(asks[0]) - PriceOf(bids[0])) * 10_000
                    < 0x1_0000 * ((PriceOf(bids[0]) + PriceOf(asks[0])) / 2)
                 && view.book.venueTimeMs <= view.observedAtMs
                 && view.book.DepthReadable(Sell) && view.book.DepthReadable(Buy)
                 && view.context.markPrice.Some? && view.context.oraclePrice.Some?
  {
    hide PriceOf, BookSnapshot.DepthReadable;
    if view.Quoted() {
      var bid, ask := view.book.Top(Sell), view.book.Top(Buy);
      SpreadIsNat(view);
      AtMostFloor(U16_MAX + 1, (ask - bid) * BPS, (bid + ask) / 2);
    }
  }

  /** Builds the snapshot; depths and spread come from the book's own levels. */
  method MarketSnapshotFromParts(view: MarketView) returns (snapshot: Option<MarketSnapshot>)
    ensures snapshot.Some? <==> view.Usable()
    ensures snapshot.Some? ==> snapshot.value == MarketSnapshot(MarketOf(view), view.book)
  {
    hide PriceOf, QuantityOf, Depth, Swept;
    var bid := view.book.OpposingTopPrice(Sell);
    var ask := view.book.OpposingTopPrice(Buy);
    if bid.Err? || ask.Err? || ask.value < bid.value || view.observedAtMs < view.book.venueTimeMs
       || bid.value + ask.value > I64_MAX {
      return None;
    }
    var middle := (bid.value + ask.value) / 2;
    var spread := TruncDiv((ask.value - bid.value) * BPS, middle);
    assert spread == view.SpreadBps();
    SpreadIsNat(view);
    var bidDepth := view.book.MarketableDepth(Sell);
    var askDepth := view.book.MarketableDepth(Buy);
    if bidDepth.Err? || askDepth.Err? || view.context.markPrice.None?
       || view.context.oraclePrice.None? || spread > U16_MAX {
      return None;
    }
    var market := MarketState(view.symbol, view.context.markPrice.value,
                              view.context.oraclePrice.value, spread, view.AgeSeconds(),
                              askDepth.value, bidDepth.value, view.sizeDecimals, false);
    return Some(MarketSnapshot(market, view.book));
  }
}
