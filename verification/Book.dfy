/** The displayed order book: the price and depth loops of a marketable IOC, and what the displayed
    depth bounds once the policy has compared an order with it. */
module Book {
  import opened Arithmetic
  import opened Decimal
  import opened Policy
  import PolicyTheorems

  const IOC_SLIPPAGE_BPS: int := 500

  datatype BookLevel = BookLevel(price: string, size: string)

  datatype BookError = InvalidBook | InvalidNumber

  /** Prices more than 5% worse than the top are out of reach. */
  predicate WithinSlippage(side: Side, top: int, candidate: int) {
    match side
    case Buy => candidate * BPS <= top * (BPS + IOC_SLIPPAGE_BPS)
    case Sell => candidate * BPS >= top * (BPS - IOC_SLIPPAGE_BPS)
  }

  function Price(level: BookLevel): Result<i64, DecimalError> {
    DecimalStringToFixed(level.price, 6)
  }

  function Quantity(level: BookLevel): Result<i64, DecimalError> {
    DecimalStringToFixed(level.size, 8)
  }

  /** The displayed price in micro-USDC; zero when the text does not parse. */
  function PriceOf(level: BookLevel): int {
    if Price(level).Ok? then Price(level).value else 0
  }

  function QuantityOf(level: BookLevel): int {
    if Quantity(level).Ok? then Quantity(level).value else 0
  }

  predicate Priced(level: BookLevel) {
    PriceOf(level) > 0
  }

  predicate Sized(level: BookLevel) {
    QuantityOf(level) > 0
  }

  predicate Reachable(side: Side, top: int, level: BookLevel) {
    Priced(level) && WithinSlippage(side, top, PriceOf(level))
  }

  /** Length of the longest prefix of reachable levels. */
  function Swept(levels: seq<BookLevel>, side: Side, top: int): (n: nat)
    ensures n <= |levels|
  {
    hide Reachable;
    if levels == [] || !Reachable(side, top, levels[0]) then 0
    else 1 + Swept(levels[1..], side, top)
  }

  lemma {:induction false} SweptReaches(levels: seq<BookLevel>, side: Side, top: int)
    ensures var n := Swept(levels, side, top);
            && (forall i :: 0 <= i < n ==> Reachable(side, top, levels[i]))
            && (n < |levels| ==> !Reachable(side, top, levels[n]))
  {
    hide Reachable;
    if levels != [] && Reachable(side, top, levels[0]) {
      SweptReaches(levels[1..], side, top);
      var n := Swept(levels, side, top);
      forall i | 0 <= i < n ensures Reachable(side, top, levels[i]) {
        if i > 0 {
          assert levels[i] == levels[1..][i - 1];
        }
      }
    }
  }

  lemma {:induction false} SweptCovers(levels: seq<BookLevel>, side: Side, top: int, n: nat)
    requires n <= |levels|
    requires forall i :: 0 <= i < n ==> Reachable(side, top, levels[i])
    ensures n <= Swept(levels, side, top)
  {
    hide Reachable;
    if n > 0 {
      SweptCovers(levels[1..], side, top, n - 1);
    }
  }

  lemma {:induction false} SweptIs(levels: seq<BookLevel>, side: Side, top: int, n: nat)
    requires n <= |levels|
    requires forall i :: 0 <= i < n ==> Reachable(side, top, levels[i])
    requires n < |levels| ==> !Reachable(side, top, levels[n])
    ensures Swept(levels, side, top) == n
  {
    hide Reachable;
    if n > 0 {
      SweptIs(levels[1..], side, top, n - 1);
    }
  }

  /** The level the sweep stops at, if any, must still be readable. */
  predicate StopReadable(levels: seq<BookLevel>, side: Side, top: int) {
    var n := Swept(levels, side, top);
    n < |levels| ==> Priced(levels[n])
  }

  /** Micro-USDC displayed on the first `n` levels, each level rounded down. */
  function Depth(levels: seq<BookLevel>, n: nat): (depth: int)
    requires n <= |levels|
  {
    if n == 0 then 0
    else
      Depth(levels, n - 1)
      + PriceOf(levels[n - 1]) * QuantityOf(levels[n - 1]) / QUANTITY_SCALE
  }

  /** Quantity displayed on the first `n` levels. */
  function Displayed(levels: seq<BookLevel>, n: nat): int
    requires n <= |levels|
  {
    if n == 0 then 0 else Displayed(levels, n - 1) + QuantityOf(levels[n - 1])
  }

  /** Price times quantity, summed over the first `n` levels. */
  function Turnover(levels: seq<BookLevel>, n: nat): int
    requires n <= |levels|
  {
    if n == 0 then 0 else Turnover(levels, n - 1) + PriceOf(levels[n - 1]) * QuantityOf(levels[n - 1])
  }

  /** Rounding each level down loses less than one micro-USDC a level. */
  lemma {:induction false} DepthOfTurnover(levels: seq<BookLevel>, n: nat)
    requires n <= |levels|
    ensures Depth(levels, n) * 100_000_000 <= Turnover(levels, n)
                                           <= (Depth(levels, n) + n) * 100_000_000 - n
  {
    hide PriceOf, QuantityOf;
    if n > 0 {
      DepthOfTurnover(levels, n - 1);
      DivBounds(PriceOf(levels[n - 1]) * QuantityOf(levels[n - 1]), QUANTITY_SCALE);
    }
  }

  /** No dearer than 105 per cent of the top for a purchase, no cheaper than 95 per cent for a sale. */
  predicate InReach(side: Side, top: int, price: int) {
    match side
    case Buy => price * 100 <= top * 105
    case Sell => price * 100 >= top * 95
  }

  /** The sweep takes the levels in reach of the top, up to the first that is unreadable or out of
      reach. */
  lemma SweptInReach(levels: seq<BookLevel>, side: Side, top: int)
    ensures var n := Swept(levels, side, top);
            && (forall i :: 0 <= i < n ==>
                  PriceOf(levels[i]) > 0 && InReach(side, top, PriceOf(levels[i])))
            && (n < |levels| ==> PriceOf(levels[n]) <= 0 || !InReach(side, top, PriceOf(levels[n])))
  {
    SweptReaches(levels, side, top);
    hide PriceOf, Swept;
  }

  datatype BookSnapshot = BookSnapshot(
    symbol: Asset,
    venueTimeMs: u64,
    bids: seq<BookLevel>,
    asks: seq<BookLevel>)
  {
    function Opposing(side: Side): seq<BookLevel> {
      match side
      case Buy => asks
      case Sell => bids
    }

    predicate HasTop(side: Side) {
      Opposing(side) != [] && Priced(Opposing(side)[0])
    }

    function Top(side: Side): int
      requires HasTop(side)
    {
      PriceOf(Opposing(side)[0])
    }

    /** The deepest displayed price inside the slippage ceiling. */
    method MarketableLimitPrice(side: Side) returns (limit: Result<i64, BookError>)
      ensures limit.Ok? <==> HasTop(side) && StopReadable(Opposing(side), side, Top(side))
      ensures limit.Ok? ==>
                && Swept(Opposing(side), side, Top(side)) > 0
                && limit.value
                   == PriceOf(Opposing(side)[Swept(Opposing(side), side, Top(side)) - 1])
    {
      hide DecimalStringToFixed;
      var levels := Opposing(side);
      if levels == [] {
        return Err(InvalidBook);
      }
      var top := Price(levels[0]);
      if top.Err? {
        return Err(InvalidNumber);
      }
      if top.value <= 0 {
        return Err(InvalidBook);
      }
      var reach := top.value;
      var i := 0;
      while i < |levels|
        invariant 0 <= i <= |levels|
        invariant forall j :: 0 <= j < i ==> Reachable(side, top.value, levels[j])
        invariant reach == if i == 0 then top.value else PriceOf(levels[i - 1])
      {
        var price := Price(levels[i]);
        if price.Err? {
          SweptIs(levels, side, top.value, i);
          return Err(InvalidNumber);
        }
        if price.value <= 0 {
          SweptIs(levels, side, top.value, i);
          return Err(InvalidBook);
        }
        if !WithinSlippage(side, top.value, price.value) {
          break;
        }
        reach := price.value;
        i := i + 1;
      }
      SweptIs(levels, side, top.value, i);
      return Ok(reach);
    }

    /** The current best opposing quote. */
    method OpposingTopPrice(side: Side) returns (top: Result<i64, BookError>)
      ensures top.Ok? <==> HasTop(side)
      ensures top.Ok? ==> top.value == Top(side)
    {
      hide DecimalStringToFixed;
      var levels := Opposing(side);
      if levels == [] {
        return Err(InvalidBook);
      }
      var price := Price(levels[0]);
      if price.Err? {
        return Err(InvalidNumber);
      }
      if price.value <= 0 {
        return Err(InvalidBook);
      }
      return Ok(price.value);
    }

    /** The depth loop: it reads one size at the level it stops at, and sums the swept levels. */
    predicate DepthReadable(side: Side)
      requires HasTop(side)
    {
      var levels := Opposing(side);
      var n := Swept(levels, side, Top(side));
      && (forall i :: 0 <= i < n ==> Sized(levels[i]))
      && (n < |levels| ==> Priced(levels[n]) && Sized(levels[n]))
      && Depth(levels, n) <= I64_MAX
    }

    method MarketableDepth(side: Side) returns (depth: Result<i64, BookError>)
      ensures depth.Ok? <==> HasTop(side) && DepthReadable(side)
      ensures depth.Ok? ==>
                depth.value == Depth(Opposing(side), Swept(Opposing(side), side, Top(side)))
    {
      hide DecimalStringToFixed, WithinSlippage;
      var levels := Opposing(side);
      if levels == [] {
        return Err(InvalidBook);
      }
      var top := Price(levels[0]);
      if top.Err? {
        return Err(InvalidNumber);
      }
      if top.value <= 0 {
        return Err(InvalidBook);
      }
      var total := 0;
      var i := 0;
      while i < |levels|
        invariant 0 <= i <= |levels|
        invariant forall j :: 0 <= j < i ==> Reachable(side, top.value, levels[j]) && Sized(levels[j])
        invariant total == Depth(levels, i) <= I128_MAX
      {
        ReadableFrom(levels, side, top.value, i);
        var price, quantity := Price(levels[i]), Quantity(levels[i]);
        if price.Err? || quantity.Err? {
          return Err(InvalidNumber);
        }
        if price.value <= 0 || quantity.value <= 0 {
          return Err(InvalidBook);
        }
        if !WithinSlippage(side, top.value, price.value) {
          break;
        }
        total := total + price.value * quantity.value / QUANTITY_SCALE;
        i := i + 1;
        if total > I128_MAX {
          DepthGrows(levels, side, top.value, i);
          return Err(InvalidNumber);
        }
      }
      SweptIs(levels, side, top.value, i);
      if total > I64_MAX {
        return Err(InvalidNumber);
      }
      DepthNonNegative(levels, i);
      return Ok(total);
    }
  }

  /** A level that cannot be read fails the depth loop wherever the sweep would have ended. */
  lemma ReadableFrom(levels: seq<BookLevel>, side: Side, top: int, i: nat)
    requires i < |levels|
    requires forall j :: 0 <= j < i ==> Reachable(side, top, levels[j])
    ensures !Reachable(side, top, levels[i]) ==> Swept(levels, side, top) == i
    ensures Reachable(side, top, levels[i]) ==> Swept(levels, side, top) > i
  {
    hide DecimalStringToFixed;
    if Reachable(side, top, levels[i]) {
      SweptCovers(levels, side, top, i + 1);
    } else {
      SweptIs(levels, side, top, i);
    }
  }

  lemma {:induction false} DepthNonNegative(levels: seq<BookLevel>, n: nat)
    requires n <= |levels| && forall i :: 0 <= i < n ==> Priced(levels[i]) && Sized(levels[i])
    ensures 0 <= Depth(levels, n)
  {
    hide DecimalStringToFixed;
    if n > 0 {
      DepthNonNegative(levels, n - 1);
      MulMono(0, PriceOf(levels[n - 1]), QuantityOf(levels[n - 1]));
      DivNat(PriceOf(levels[n - 1]) * QuantityOf(levels[n - 1]), QUANTITY_SCALE);
    }
  }

  lemma {:induction false} DepthMono(levels: seq<BookLevel>, m: nat, n: nat)
    requires m <= n <= |levels|
    requires forall i :: 0 <= i < n ==> Priced(levels[i]) && Sized(levels[i])
    ensures Depth(levels, m) <= Depth(levels, n)
  {
    hide DecimalStringToFixed;
    if m < n {
      DepthMono(levels, m, n - 1);
      MulMono(0, PriceOf(levels[n - 1]), QuantityOf(levels[n - 1]));
      DivNat(PriceOf(levels[n - 1]) * QuantityOf(levels[n - 1]), QUANTITY_SCALE);
    }
  }

  /** Depth that has outgrown the accumulator never comes back into range. */
  lemma DepthGrows(levels: seq<BookLevel>, side: Side, top: int, i: nat)
    requires i <= |levels|
    requires forall j :: 0 <= j < i ==> Reachable(side, top, levels[j]) && Sized(levels[j])
    requires Depth(levels, i) > I64_MAX
    ensures var n := Swept(levels, side, top);
            (forall j :: 0 <= j < n ==> Sized(levels[j])) ==> Depth(levels, n) > I64_MAX
  {
    hide DecimalStringToFixed;
    SweptCovers(levels, side, top, i);
    SweptReaches(levels, side, top);
    var n := Swept(levels, side, top);
    if forall j :: 0 <= j < n ==> Sized(levels[j]) {
      DepthMono(levels, i, n);
    }
  }

  /** The price of the last level in reach, where every level up to it, and the one that stops the
      sweep, has a positive price. */
  predicate DeepestAt(levels: seq<BookLevel>, side: Side, limit: int, n: nat) {
    && 0 < n <= |levels| && limit == PriceOf(levels[n - 1])
    && (forall i :: 0 <= i < n ==>
          PriceOf(levels[i]) > 0 && InReach(side, PriceOf(levels[0]), PriceOf(levels[i])))
    && (n < |levels| ==>
          PriceOf(levels[n]) > 0 && !InReach(side, PriceOf(levels[0]), PriceOf(levels[n])))
  }

  predicate IsDeepest(levels: seq<BookLevel>, side: Side, limit: int) {
    exists n :: 0 < n <= |levels| && DeepestAt(levels, side, limit, n)
  }

  lemma SweptIsDeepest(book: BookSnapshot, side: Side, limit: int)
    ensures IsDeepest(book.Opposing(side), side, limit)
            <==> && book.HasTop(side) && StopReadable(book.Opposing(side), side, book.Top(side))
                 && Swept(book.Opposing(side), side, book.Top(side)) > 0
                 && limit == PriceOf(book.Opposing(side)
                                       [Swept(book.Opposing(side), side, book.Top(side)) - 1])
  {
    hide Swept, InReach, DecimalStringToFixed;
    var levels := book.Opposing(side);
    if IsDeepest(levels, side, limit) {
      var n :| 0 < n <= |levels| && DeepestAt(levels, side, limit, n);
      InReachIsSwept(levels, side, limit, n);
    }
    if book.HasTop(side) && StopReadable(levels, side, book.Top(side))
       && Swept(levels, side, book.Top(side)) > 0 {
      SweptIsInReach(levels, side);
    }
  }

  lemma SweptIsInReach(levels: seq<BookLevel>, side: Side)
    requires levels != [] && StopReadable(levels, side, PriceOf(levels[0]))
    requires Swept(levels, side, PriceOf(levels[0])) > 0
    ensures var n := Swept(levels, side, PriceOf(levels[0]));
            DeepestAt(levels, side, PriceOf(levels[n - 1]), n)
  {
    SweptInReach(levels, side, PriceOf(levels[0]));
    hide PriceOf, Swept, InReach;
  }

  lemma InReachIsSwept(levels: seq<BookLevel>, side: Side, limit: int, n: nat)
    requires 0 < n <= |levels| && DeepestAt(levels, side, limit, n)
    ensures Swept(levels, side, PriceOf(levels[0])) == n
  {
    SweptIs(levels, side, PriceOf(levels[0]), n);
  }

  // ---------------------------------------------------------------- the book and the policy agree

  /** Levels get no better with depth. */
  predicate Sorted(levels: seq<BookLevel>, side: Side, n: nat)
    requires n <= |levels|
  {
    forall i, j :: 0 <= i < j < n ==>
      if side.Buy? then PriceOf(levels[i]) <= PriceOf(levels[j])
      else PriceOf(levels[i]) >= PriceOf(levels[j])
  }

  /** Depth is at most the displayed quantity at the worst price for the venue. */
  lemma {:induction false} DepthAtWorst(levels: seq<BookLevel>, n: nat, worst: int)
    requires n <= |levels| && forall i :: 0 <= i < n ==> Priced(levels[i]) && Sized(levels[i])
    requires forall i :: 0 <= i < n ==> PriceOf(levels[i]) <= worst
    ensures Depth(levels, n) * QUANTITY_SCALE <= Displayed(levels, n) * worst
  {
    hide DecimalStringToFixed;
    if n > 0 {
      DepthAtWorst(levels, n - 1, worst);
      var price, quantity := PriceOf(levels[n - 1]), QuantityOf(levels[n - 1]);
      DivBounds(price * quantity, QUANTITY_SCALE);
      MulMono(price, worst, quantity);
      assert Displayed(levels, n) * worst == Displayed(levels, n - 1) * worst + worst * quantity;
    }
  }

  /** Both loops end at the same level of any book they can read. */
  lemma LoopsAgree(book: BookSnapshot, side: Side)
    requires book.HasTop(side) && book.DepthReadable(side)
    ensures StopReadable(book.Opposing(side), side, book.Top(side))
    ensures Swept(book.Opposing(side), side, book.Top(side)) > 0
  {
    hide DecimalStringToFixed;
    var levels, top := book.Opposing(side), book.Top(side);
    ReadableFrom(levels, side, top, 0);
  }

  /** Limit price and depth are those of the book's own sweep, level after level no better. */
  predicate FromBook(book: BookSnapshot, side: Side, limit: int, depth: int) {
    && book.HasTop(side) && book.DepthReadable(side)
    && var levels := book.Opposing(side);
       var n := Swept(levels, side, book.Top(side));
       && n > 0 && Sorted(levels, side, n)
       && limit == PriceOf(levels[n - 1])
       && depth == Depth(levels, n)
  }

  /** What the book displays up to the limit covers the quantity, to within one unit of notional at
      the limit (buy) or at 95% of the top (sell). */
  predicate Covers(book: BookSnapshot, side: Side, limit: int, quantity: int)
    requires book.HasTop(side)
  {
    var top := book.Top(side);
    var displayed := Displayed(book.Opposing(side), Swept(book.Opposing(side), side, top));
    if side.Buy? then quantity * limit < displayed * limit + QUANTITY_SCALE
    else (BPS - IOC_SLIPPAGE_BPS) * top * quantity < BPS * (top * displayed + QUANTITY_SCALE)
  }

  /** An order the policy approves against the book's own depth and limit price is covered by what
      the book displays up to that limit. */
  lemma ApprovedWithinDisplay(book: BookSnapshot, proposal: Proposal, context: PolicyContext,
                              order: OrderDecision)
    requires EvaluateProposal(proposal, context) == Ok(order)
    requires FromBook(book, proposal.side, proposal.limitPrice,
                      AvailableDepth(proposal.side, context.market))
    ensures Covers(book, proposal.side, proposal.limitPrice, order.quantity)
  {
    hide DecimalStringToFixed, EvaluateProposal;
    PolicyTheorems.ApprovalIff(proposal, context, order);
    PolicyTheorems.SizedIsPositive(proposal, context, order.quantity, order.actualNotional);
    var levels, top := book.Opposing(proposal.side), book.Top(proposal.side);
    var n := Swept(levels, proposal.side, top);
    SweptReaches(levels, proposal.side, top);
    var displayed, limit := Displayed(levels, n), proposal.limitPrice;
    assert order.quantity * limit < (order.actualNotional + 1) * QUANTITY_SCALE;
    assert order.actualNotional <= Depth(levels, n);
    if proposal.side.Buy? {
      DepthAtWorst(levels, n, limit);
    } else {
      DepthAtWorst(levels, n, top);
      assert WithinSlippage(Sell, top, limit);
      SellBound(order.quantity, limit, top, displayed);
    }
  }

  lemma SellBound(quantity: int, limit: int, top: int, displayed: int)
    requires 0 <= quantity
    requires quantity * limit < displayed * top + QUANTITY_SCALE
    requires limit * BPS >= top * (BPS - IOC_SLIPPAGE_BPS)
    ensures (BPS - IOC_SLIPPAGE_BPS) * top * quantity < BPS * (top * displayed + QUANTITY_SCALE)
  {
    MulMono(top * (BPS - IOC_SLIPPAGE_BPS), limit * BPS, quantity);
    assert limit * BPS * quantity == BPS * (quantity * limit);
    assert displayed * top == top * displayed;
  }
}
