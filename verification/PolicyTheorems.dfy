/** What an approval means: an exact, division-free characterisation of every approved order,
    and the consequences that span rules, leverage and sizing. */
module PolicyTheorems {
  import opened Arithmetic
  import opened Policy

  // ---------------------------------------------------------------- the meaning of approval

  /** The loss from `high` down to `current`, in basis points of `current`, is below `bps`. */
  predicate LossBelow(high: int, current: int, bps: int) {
    if high <= 0 || current >= high then 0 < bps
    else (high - current) * BPS < bps * current
  }

  /** Orders are sized at the reference price if there is one, at their limit otherwise. */
  function SizingPrice(proposal: Proposal, context: PolicyContext): i64 {
    match context.referencePrice
    case None => proposal.limitPrice
    case Some(price) => price
  }

  predicate PassesGates(proposal: Proposal, context: PolicyContext) {
    var market, portfolio, rules := context.market, context.portfolio, context.rules;
    && proposal.symbol in {BTC, ETH, SOL} && proposal.symbol == market.symbol
    && market.markPrice > 0 && market.oraclePrice > 0 && proposal.limitPrice > 0
    && SizingPrice(proposal, context) > 0
    && market.sizeDecimals <= 8 && portfolio.equity > 0 && context.startingCapital > 0
    && !market.delisted
    && market.bookAgeSeconds <= rules.bookMaxAgeSeconds
    && market.spreadBps <= rules.maxSpreadBps
    && (proposal.reduceOnly ==>
          if proposal.side.Buy? then portfolio.symbolPosition < 0 else portfolio.symbolPosition > 0)
    && LossBelow(portfolio.dayStartEquity, portfolio.equity, rules.dailyLossBps)
    && LossBelow(portfolio.peakEquity, portfolio.equity, rules.drawdownBps)
    && portfolio.ordersToday < rules.maxOrdersDay
  }

  /** `quantity` lots reach `target` at `price` and one lot fewer falls short. */
  predicate LeastLot(quantity: int, step: int, price: int, target: int)
    requires step > 0
  {
    && quantity % step == 0
    && quantity * price >= target
    && (quantity - step) * price < target
  }

  /** `notional` is the floor of `quantity * price` on the quantity scale. */
  predicate FloorNotional(quantity: int, price: int, notional: int) {
    notional * QUANTITY_SCALE <= quantity * price < (notional + 1) * QUANTITY_SCALE
  }

  /** `bps` basis points of `capital`, rounded down, is a representable amount. */
  predicate BpsFits(capital: int, bps: int) {
    capital * bps < (I64_MAX + 1) * BPS
  }

  function Requested(proposal: Proposal, context: PolicyContext): int {
    Max(context.Capital() * proposal.notionalBps / 10_000, 10_000_000)
  }

  predicate SizedAs(proposal: Proposal, context: PolicyContext, quantity: int, notional: int)
    requires context.market.sizeDecimals <= 8
  {
    && BpsFits(context.Capital(), proposal.notionalBps)
    && LeastLot(quantity, LotStep(context.market.sizeDecimals), SizingPrice(proposal, context),
                Requested(proposal, context) * QUANTITY_SCALE)
    && FloorNotional(quantity, proposal.limitPrice, notional)
    && FitsI64(quantity) && FitsI64(notional)
  }

  predicate WithinLimits(proposal: Proposal, context: PolicyContext, notional: int) {
    var capital, rules, portfolio := context.Capital(), context.rules, context.portfolio;
    && BpsFits(capital, rules.maxOrderBps) && notional * BPS <= capital * rules.maxOrderBps
    && BpsFits(capital, rules.cashReserveBps)
    && context.isolatedLeverage > 0
    && (if proposal.reduceOnly then
          notional <= Abs(portfolio.symbolPosition)
        else
          var projected := portfolio.symbolPosition
                           + (if proposal.side.Buy? then notional else -notional);
          && FitsI64(projected)
          && BpsFits(capital, rules.maxPositionBps)
          && Abs(projected) * BPS <= capital * rules.maxPositionBps
          && KeepsReserve(portfolio.availableCollateral, notional, context.isolatedLeverage,
                          capital * rules.cashReserveBps / BPS))
    && notional <= (if proposal.side.Buy? then context.market.askDepth else context.market.bidDepth)
  }

  /** After setting aside `notional / leverage` rounded up, the reserve is still free. */
  predicate KeepsReserve(available: int, notional: int, leverage: int, reserve: int) {
    notional <= (available - reserve) * leverage
  }

  /** `bps` is `notional` in basis points of `capital`, rounded up. */
  predicate CeilBpsOf(notional: int, capital: int, bps: int) {
    (bps - 1) * capital < notional * BPS <= bps * capital
  }

  predicate Admissible(proposal: Proposal, context: PolicyContext, order: OrderDecision) {
    && PassesGates(proposal, context)
    && SizedAs(proposal, context, order.quantity, order.actualNotional)
    && WithinLimits(proposal, context, order.actualNotional)
    && CeilBpsOf(order.actualNotional, context.Capital(), order.effectiveBps)
    && order.symbol == proposal.symbol && order.side == proposal.side
    && order.limitPrice == proposal.limitPrice && order.reduceOnly == proposal.reduceOnly
  }

  // ---------------------------------------------------------------- approval, both directions

  lemma LossIff(high: i64, current: i64, bps: u16)
    requires current > 0
    ensures LossBelow(high, current, bps)
            <==> LossBps(high, current).Ok? && LossBps(high, current).value < bps
  {
    if high > 0 && current < high {
      var loss := (high - current) * BPS;
      AtMostFloor(bps, loss, current);
      assert Abs(high - current) * BPS / current == loss / current;
      DivBounds(loss, current);
    }
  }

  lemma GateIff(proposal: Proposal, context: PolicyContext)
    ensures Gate(proposal, context).None? <==> PassesGates(proposal, context)
  {
    var portfolio := context.portfolio;
    if portfolio.equity > 0 {
      LossIff(portfolio.dayStartEquity, portfolio.equity, context.rules.dailyLossBps);
      LossIff(portfolio.peakEquity, portfolio.equity, context.rules.drawdownBps);
    }
  }

  lemma BpsIff(capital: i64, bps: u16)
    requires capital > 0
    ensures BpsAmount(capital, bps).Ok? <==> BpsFits(capital, bps)
    ensures BpsAmount(capital, bps).Ok? ==> BpsAmount(capital, bps).value == capital * bps / BPS
    ensures forall x: int :: x <= capital * bps / BPS <==> x * BPS <= capital * bps
  {
    MulMono(0, capital, bps);
    AtMostFloor(I64_MAX + 1, capital * bps, BPS);
    forall x: int ensures x <= capital * bps / BPS <==> x * BPS <= capital * bps {
      AtMostFloor(x, capital * bps, BPS);
    }
  }

  /** Two multiples that both just reach the target are the same. */
  lemma LeastLotUnique(a: int, b: int, step: int, price: int, target: int)
    requires step > 0 && price > 0
    requires LeastLot(a, step, price, target) && LeastLot(b, step, price, target)
    ensures a == b
  {
    if a < b {
      MultipleGap(a, b, step);
      MulMono(a, b - step, price);
    } else if b < a {
      MultipleGap(b, a, step);
      MulMono(b, a - step, price);
    }
  }

  lemma MultipleGap(a: int, b: int, step: int)
    requires step > 0 && a % step == 0 && b % step == 0 && a < b
    ensures a <= b - step
  {
    var i, j := a / step, b / step;
    DivBounds(a, step);
    DivBounds(b, step);
    assert a == i * step && b == j * step;
    if j <= i {
      MulMono(j, i, step);
    } else {
      MulMono(i, j - 1, step);
      assert (j - 1) * step == j * step - step;
    }
  }

  /** Rounding up twice, to a unit and then to a lot, gives the least lot. */
  lemma DoubleCeilIsLeastLot(target: int, price: int, step: int, raw: int, lots: int)
    requires price > 0 && step > 0
    requires (raw - 1) * price < target <= raw * price
    requires (lots - 1) * step < raw <= lots * step
    ensures LeastLot(lots * step, step, price, target)
  {
    var quantity := lots * step;
    assert quantity % step == 0 by { DivUnique(quantity, step, lots); DivBounds(quantity, step); }
    MulMono(raw, quantity, price);
    assert (lots - 1) * step == quantity - step;
    MulMono(quantity - step, raw - 1, price);
  }

  lemma FloorNotionalIff(quantity: int, price: int, notional: int)
    requires 0 <= quantity && 0 <= price
    ensures FloorNotional(quantity, price, notional)
            <==> notional == TruncDiv(quantity * price, QUANTITY_SCALE)
  {
    MulMono(0, quantity, price);
    DivBounds(quantity * price, QUANTITY_SCALE);
    if FloorNotional(quantity, price, notional) {
      DivUnique(quantity * price, QUANTITY_SCALE, notional);
    }
  }

  lemma SizeIff(proposal: Proposal, context: PolicyContext, quantity: i64, notional: i64)
    requires PassesGates(proposal, context) && Gate(proposal, context).None?
    ensures SizeOrder(proposal, context) == Ok((quantity, notional))
            <==> SizedAs(proposal, context, quantity, notional)
  {
    var capital := context.Capital();
    BpsIff(capital, proposal.notionalBps);
    if BpsFits(capital, proposal.notionalBps) {
      var price := SizingPrice(proposal, context);
      var step := LotStep(context.market.sizeDecimals);
      LotStepBound(context.market.sizeDecimals);
      var target := Requested(proposal, context) * QUANTITY_SCALE;
      var raw := (target + price - 1) / price;
      CeilBounds(target, price);
      assert CeilDiv(target, price) == Ok(raw);
      var lots := (raw + step - 1) / step;
      CeilBounds(raw, step);
      DoubleCeilIsLeastLot(target, price, step, raw, lots);
      if raw < 1 {
        MulMono(raw, 0, price);
      }
      if SizedAs(proposal, context, quantity, notional) {
        LeastLotUnique(quantity, lots * step, step, price, target);
      }
      if FitsI64(raw) {
        assert CeilDiv(raw, step) == Ok(lots);
        if FitsI64(lots * step) {
          FloorNotionalIff(lots * step, proposal.limitPrice, notional);
        }
      }
    }
  }

  lemma LotStepBound(sizeDecimals: u8)
    requires sizeDecimals <= 8
    ensures 1 <= LotStep(sizeDecimals) <= 100_000_000
  {
    Pow10Sum(8 - sizeDecimals, sizeDecimals);
    assert Pow10(8) == 100_000_000 by {
      assert Pow10(4) == 10_000;
      Pow10Sum(4, 4);
    }
    MulMono(1, Pow10(sizeDecimals), Pow10(8 - sizeDecimals));
  }

  lemma CollateralIff(proposal: Proposal, context: PolicyContext, notional: i64)
    requires PassesGates(proposal, context) && notional >= 0 && context.isolatedLeverage > 0
    ensures LimitCollateral(proposal, context, notional).None?
            <==> && BpsFits(context.Capital(), context.rules.cashReserveBps)
                 && (proposal.reduceOnly
                     || KeepsReserve(context.portfolio.availableCollateral, notional,
                                     context.isolatedLeverage,
                                     context.Capital() * context.rules.cashReserveBps / BPS))
  {
    var capital := context.Capital();
    BpsIff(capital, context.rules.cashReserveBps);
    var reserve := capital * context.rules.cashReserveBps / BPS;
    var available, leverage := context.portfolio.availableCollateral, context.isolatedLeverage;
    var margin := (notional + leverage - 1) / leverage;
    assert CeilDiv(notional, leverage) == Ok(margin);
    CeilBounds(notional, leverage);
    if available - margin >= reserve {
      MulMono(margin, available - reserve, leverage);
    } else {
      MulMono(available - reserve, margin - 1, leverage);
    }
    if margin > notional {
      MulMono(notional, margin - 1, leverage);
      MulMono(1, leverage, notional);
    }
    if margin < 0 {
      MulMono(margin, -1, leverage);
    }
  }

  lemma LimitIff(proposal: Proposal, context: PolicyContext, notional: i64)
    requires PassesGates(proposal, context) && notional >= 0
    ensures Limit(proposal, context, notional).None? <==> WithinLimits(proposal, context, notional)
  {
    var capital, rules := context.Capital(), context.rules;
    BpsIff(capital, rules.maxOrderBps);
    BpsIff(capital, rules.maxPositionBps);
    if context.isolatedLeverage > 0 {
      CollateralIff(proposal, context, notional);
    }
    MulMono(0, capital, rules.maxPositionBps);
  }

  /** Rounding the order up to basis points can never pass the order ceiling it already met. */
  lemma EffectiveWithinCeiling(notional: int, capital: int, maxOrderBps: u16)
    requires 0 <= notional && 0 < capital <= I64_MAX
    requires notional <= I64_MAX && notional * BPS <= capital * maxOrderBps
    ensures CeilDiv(notional * BPS, capital).Ok?
    ensures CeilDiv(notional * BPS, capital).value <= maxOrderBps
    ensures CeilBpsOf(notional, capital, CeilDiv(notional * BPS, capital).value)
    ensures 0 <= CeilDiv(notional * BPS, capital).value
  {
    var bps := (notional * BPS + capital - 1) / capital;
    CeilBounds(notional * BPS, capital);
    if maxOrderBps < bps {
      MulMono(maxOrderBps, bps - 1, capital);
    }
    if bps < 0 {
      MulMono(bps, -1, capital);
    }
  }

  lemma CeilBpsUnique(notional: int, capital: int, a: int, b: int)
    requires 0 < capital
    requires CeilBpsOf(notional, capital, a) && CeilBpsOf(notional, capital, b)
    ensures a == b
  {
    CeilUnique(notional * BPS, capital, a);
    CeilUnique(notional * BPS, capital, b);
  }

  lemma SizedIsPositive(proposal: Proposal, context: PolicyContext, quantity: int, notional: int)
    requires PassesGates(proposal, context) && SizedAs(proposal, context, quantity, notional)
    ensures quantity > 0 && notional >= 0
  {
    if quantity <= 0 {
      MulMono(quantity, 0, SizingPrice(proposal, context));
    }
    MulMono(0, quantity, proposal.limitPrice);
  }

  /** The policy approves exactly the admissible orders. */
  lemma ApprovalIff(proposal: Proposal, context: PolicyContext, order: OrderDecision)
    ensures EvaluateProposal(proposal, context) == Ok(order)
            <==> Admissible(proposal, context, order)
  {
    GateIff(proposal, context);
    if PassesGates(proposal, context) {
      SizeIff(proposal, context, order.quantity, order.actualNotional);
      var sized := SizeOrder(proposal, context);
      if sized.Ok? {
        var (quantity, notional) := sized.value;
        SizeIff(proposal, context, quantity, notional);
        SizedIsPositive(proposal, context, quantity, notional);
        LimitIff(proposal, context, notional);
        if Limit(proposal, context, notional).None? {
          EffectiveWithinCeiling(notional, context.Capital(), context.rules.maxOrderBps);
          if Admissible(proposal, context, order) {
            CeilBpsUnique(notional, context.Capital(), order.effectiveBps,
                          CeilDiv(notional * BPS, context.Capital()).value);
          }
        }
      }
    }
  }

  // ---------------------------------------------------------------- consequences

  /** Sizing is optimal: every lot multiple that reaches max(requested, 10 USDC) at the reference
      price is at least the approved quantity, which itself reaches it; and the reported share of
      capital respects the order ceiling. */
  lemma OptimalSizing(proposal: Proposal, context: PolicyContext, order: OrderDecision, lots: int)
    requires EvaluateProposal(proposal, context) == Ok(order)
    ensures context.market.sizeDecimals <= 8
    ensures var step := LotStep(context.market.sizeDecimals);
            var price := SizingPrice(proposal, context);
            var target := Requested(proposal, context) * QUANTITY_SCALE;
            && order.quantity > 0 && order.quantity % step == 0
            && order.quantity * price >= target
            && (lots * step * price >= target ==> order.quantity <= lots * step)
    ensures order.effectiveBps <= context.rules.maxOrderBps
  {
    hide EvaluateProposal;
    ApprovalIff(proposal, context, order);
    var step := LotStep(context.market.sizeDecimals);
    var price := SizingPrice(proposal, context);
    SizedIsPositive(proposal, context, order.quantity, order.actualNotional);
    if lots * step < order.quantity {
      assert (lots * step) % step == 0 by {
        DivUnique(lots * step, step, lots);
        DivBounds(lots * step, step);
      }
      MultipleGap(lots * step, order.quantity, step);
      MulMono(lots * step, order.quantity - step, price);
    }
    EffectiveWithinCeiling(order.actualNotional, context.Capital(), context.rules.maxOrderBps);
    CeilBpsUnique(order.actualNotional, context.Capital(), order.effectiveBps,
                  CeilDiv(order.actualNotional * BPS, context.Capital()).value);
  }

  /** `loose` permits whatever `tight` permits, limit by limit. */
  predicate Loosens(tight: RiskRules, loose: RiskRules) {
    && tight.cashReserveBps >= loose.cashReserveBps
    && tight.dailyLossBps <= loose.dailyLossBps
    && tight.drawdownBps <= loose.drawdownBps
    && tight.maxOrderBps <= loose.maxOrderBps
    && tight.maxPositionBps <= loose.maxPositionBps
    && tight.maxSpreadBps <= loose.maxSpreadBps
    && tight.bookMaxAgeSeconds <= loose.bookMaxAgeSeconds
    && tight.maxOrdersDay <= loose.maxOrdersDay
  }

  lemma LossBelowMono(high: int, current: int, tight: int, loose: int)
    requires 0 < current && tight <= loose && LossBelow(high, current, tight)
    ensures LossBelow(high, current, loose)
  {
    MulMono(tight, loose, current);
  }

  lemma KeepsReserveMono(available: int, notional: int, leverage: int, reserve: int,
                         higherLeverage: int, lowerReserve: int)
    requires 0 <= notional && 0 < leverage <= higherLeverage && lowerReserve <= reserve
    requires KeepsReserve(available, notional, leverage, reserve)
    ensures KeepsReserve(available, notional, higherLeverage, lowerReserve)
  {
    if available < reserve {
      MulMono(available - reserve, -1, leverage);
    }
    MulMono(available - reserve, available - lowerReserve, leverage);
    MulMono(leverage, higherLeverage, available - lowerReserve);
  }

  lemma GatesMonotone(proposal: Proposal, context: PolicyContext, wider: PolicyContext)
    requires Widens(context, wider) && PassesGates(proposal, context)
    ensures PassesGates(proposal, wider)
  {
    var portfolio := context.portfolio;
    LossBelowMono(portfolio.dayStartEquity, portfolio.equity,
                  context.rules.dailyLossBps, wider.rules.dailyLossBps);
    LossBelowMono(portfolio.peakEquity, portfolio.equity,
                  context.rules.drawdownBps, wider.rules.drawdownBps);
  }

  lemma BpsFitsWithinWhole(capital: i64, bps: int)
    requires 0 < capital && bps <= BPS
    ensures BpsFits(capital, bps)
  {
    MulMono(bps, BPS, capital);
  }

  /** The wider limits can still be computed from the capital in 64 bits. */
  predicate LimitsCompute(proposal: Proposal, context: PolicyContext) {
    && BpsFits(context.Capital(), context.rules.maxOrderBps)
    && (proposal.reduceOnly || BpsFits(context.Capital(), context.rules.maxPositionBps))
  }

  lemma LimitsMonotone(proposal: Proposal, context: PolicyContext, wider: PolicyContext, notional: int)
    requires Widens(context, wider) && PassesGates(proposal, context) && 0 <= notional
    requires WithinLimits(proposal, context, notional)
    ensures WithinLimits(proposal, wider, notional) <==> LimitsCompute(proposal, wider)
  {
    var capital, tight, loose := context.Capital(), context.rules, wider.rules;
    MulMono(tight.maxOrderBps, loose.maxOrderBps, capital);
    MulMono(tight.maxPositionBps, loose.maxPositionBps, capital);
    MulMono(loose.cashReserveBps, tight.cashReserveBps, capital);
    DivMono(capital * loose.cashReserveBps, capital * tight.cashReserveBps, BPS);
    if !proposal.reduceOnly {
      KeepsReserveMono(context.portfolio.availableCollateral, notional,
                       context.isolatedLeverage, capital * tight.cashReserveBps / BPS,
                       wider.isolatedLeverage, capital * loose.cashReserveBps / BPS);
    }
  }

  /** Only the rules, loosened, and the leverage, raised, may differ. */
  predicate Widens(context: PolicyContext, wider: PolicyContext) {
    && wider == context.(rules := wider.rules, isolatedLeverage := wider.isolatedLeverage)
    && Loosens(context.rules, wider.rules)
    && context.isolatedLeverage <= wider.isolatedLeverage
  }

  /** Loosening the rules, or raising the leverage, keeps an approval and the identical order
      exactly when the looser limits still compute: a limit far above the whole capital can
      overflow, and then the policy refuses. */
  lemma ApprovalMonotone(proposal: Proposal, context: PolicyContext, wider: PolicyContext,
                         order: OrderDecision)
    requires Widens(context, wider)
    requires EvaluateProposal(proposal, context) == Ok(order)
    ensures EvaluateProposal(proposal, wider) == Ok(order) <==> LimitsCompute(proposal, wider)
    ensures EvaluateProposal(proposal, wider).Ok? ==> LimitsCompute(proposal, wider)
  {
    hide EvaluateProposal, WithinLimits, LimitsCompute, Widens;
    ApprovalIff(proposal, context, order);
    SizedIsPositive(proposal, context, order.quantity, order.actualNotional);
    GatesMonotone(proposal, context, wider);
    LimitsMonotone(proposal, context, wider, order.actualNotional);
    SameSize(proposal, context, wider, order);
    ApprovalIff(proposal, wider, order);
    var other := EvaluateProposal(proposal, wider);
    if other.Ok? {
      ApprovalIff(proposal, wider, other.value);
      AdmittedLimitsCompute(proposal, wider, other.value);
    }
  }

  lemma SameSize(proposal: Proposal, context: PolicyContext, wider: PolicyContext, order: OrderDecision)
    requires Widens(context, wider) && Admissible(proposal, context, order)
    requires PassesGates(proposal, wider)
    ensures Admissible(proposal, wider, order)
            <==> WithinLimits(proposal, wider, order.actualNotional)
  {
    hide WithinLimits;
  }

  lemma AdmittedLimitsCompute(proposal: Proposal, context: PolicyContext, order: OrderDecision)
    requires Admissible(proposal, context, order)
    ensures LimitsCompute(proposal, context)
  {
  }

  /** An arena with limits of at most the whole capital never meets that overflow. */
  lemma ModestLimitsCompute(proposal: Proposal, context: PolicyContext)
    requires 0 < context.Capital()
    requires context.rules.maxOrderBps <= BPS && context.rules.maxPositionBps <= BPS
    ensures LimitsCompute(proposal, context)
  {
    BpsFitsWithinWhole(context.Capital(), context.rules.maxOrderBps);
    BpsFitsWithinWhole(context.Capital(), context.rules.maxPositionBps);
  }

  /** A portfolio of nine million million USDC, a market deep enough for a hundredth of it, and the
      default rules with an order limit in basis points. */
  function VastContext(maxOrderBps: u16): PolicyContext {
    var capital := 9_000_000_000_000_000_000;
    PolicyContext(CEILING_RULES.(maxOrderBps := maxOrderBps),
                  MarketState(BTC, 9_000_000, 9_000_000, 0, 0, capital, capital, 5, false),
                  PortfolioState(capital, capital, capital, capital, 0, 0), capital, None, 1)
  }

  /** Loosening a rule can turn an approval into a refusal: six times that capital, the wider order
      limit, is not a 64-bit amount. */
  lemma LooseningCanRefuse()
    ensures var proposal := Proposal(BTC, Buy, 100, 9_000_000, false);
            var context, wider := VastContext(200), VastContext(65_535);
            && Widens(context, wider) && !LimitsCompute(proposal, wider)
            && EvaluateProposal(proposal, context).Ok? && EvaluateProposal(proposal, wider).Err?
  {
    var proposal := Proposal(BTC, Buy, 100, 9_000_000, false);
    VastOrderApproved();
    hide EvaluateProposal;
    ApprovalMonotone(proposal, VastContext(200), VastContext(65_535),
                     EvaluateProposal(proposal, VastContext(200)).value);
  }

  lemma VastOrderApproved()
    ensures EvaluateProposal(Proposal(BTC, Buy, 100, 9_000_000, false), VastContext(200))
            == Ok(OrderDecision(BTC, Buy, 1_000_000_000_000_000_000, 9_000_000,
                                90_000_000_000_000_000, 100, false))
  {
    assert LotStep(5) == 1_000 by { assert Pow10(3) == 1_000; }
  }

  /** Rules pass the ceiling check exactly when they keep ten per cent in cash, lose at most two per cent a
      day and ten from the peak, order two and hold ten per cent at most, accept forty basis points of
      spread, ten seconds of age and twenty orders a day at most, and trade at leverage one and at once. */
  lemma CeilingIff(rules: RiskRules)
    ensures ValidateCeiling(rules)
            <==> && rules.cashReserveBps >= 1_000
                 && rules.dailyLossBps <= 200 && rules.drawdownBps <= 1_000
                 && rules.maxOrderBps <= 200 && rules.maxPositionBps <= 1_000
                 && rules.maxSpreadBps <= 40 && rules.bookMaxAgeSeconds <= 10
                 && rules.maxOrdersDay <= 20 && rules.isolatedLeverage == 1 && rules.iocOnly
  {
  }

  /** Rules that pass the ceiling check approve nothing the ceiling itself would not approve. */
  lemma CeilingIsSound(proposal: Proposal, context: PolicyContext, order: OrderDecision)
    requires ValidateCeiling(context.rules)
    requires EvaluateProposal(proposal, context) == Ok(order)
    ensures EvaluateProposal(proposal, context.(rules := CEILING_RULES)) == Ok(order)
  {
    hide EvaluateProposal, LimitsCompute;
    var ceiling := context.(rules := CEILING_RULES);
    ApprovalIff(proposal, context, order);
    ModestLimitsCompute(proposal, ceiling);
    ApprovalMonotone(proposal, context, ceiling, order);
  }

  /** The daily counter is below its limit whenever an order is approved. */
  lemma ApprovalNeedsOrderBudget(proposal: Proposal, context: PolicyContext)
    requires EvaluateProposal(proposal, context).Ok?
    ensures context.portfolio.ordersToday < context.rules.maxOrdersDay
  {
    GateIff(proposal, context);
  }

  /** With everything else the same, an approved order stays approved exactly while the day's orders
      are below the daily maximum. */
  lemma OnlyTheCountMatters(proposal: Proposal, context: PolicyContext, order: OrderDecision, orders: u16)
    requires EvaluateProposal(proposal, context) == Ok(order)
    ensures var other := context.(portfolio := context.portfolio.(ordersToday := orders));
            && (orders < context.rules.maxOrdersDay ==> EvaluateProposal(proposal, other) == Ok(order))
            && (orders >= context.rules.maxOrdersDay ==> EvaluateProposal(proposal, other).Err?)
  {
    hide EvaluateProposal, SizedAs, WithinLimits;
    var other := context.(portfolio := context.portfolio.(ordersToday := orders));
    ApprovalIff(proposal, context, order);
    SameQuestion(proposal, context, orders, order);
    ApprovalIff(proposal, other, order);
    if EvaluateProposal(proposal, other).Ok? {
      ApprovalNeedsOrderBudget(proposal, other);
    }
  }

  lemma SameQuestion(proposal: Proposal, context: PolicyContext, orders: u16, order: OrderDecision)
    requires Admissible(proposal, context, order)
    ensures var other := context.(portfolio := context.portfolio.(ordersToday := orders));
            orders < context.rules.maxOrdersDay ==> Admissible(proposal, other, order)
  {
    hide LossBelow, LeastLot, FloorNotional, BpsFits, KeepsReserve, CeilBpsOf;
  }

  // ---------------------------------------------------------------- refusals

  /** Some size the rounding arrives at meets the condition. */
  ghost predicate SizedSo(proposal: Proposal, context: PolicyContext, notional: int)
    requires context.market.sizeDecimals <= 8
  {
    exists quantity: int :: SizedAs(proposal, context, quantity, notional)
  }

  /** The notional breaks the rule the error names. */
  predicate Breaks(proposal: Proposal, context: PolicyContext, error: PolicyError, notional: int) {
    var capital, rules, position := context.Capital(), context.rules, context.portfolio.symbolPosition;
    match error
    case ReduceOnlyViolation => proposal.reduceOnly && notional > Abs(position)
    case OrderSize => notional * BPS > capital * rules.maxOrderBps
    case PositionSize =>
      !proposal.reduceOnly
      && Abs(position + (if proposal.side.Buy? then notional else -notional)) * BPS
         > capital * rules.maxPositionBps
    case CashReserve =>
      !proposal.reduceOnly
      && !KeepsReserve(context.portfolio.availableCollateral, notional, context.isolatedLeverage,
                       capital * rules.cashReserveBps / BPS)
    case BookDepth =>
      notional > (if proposal.side.Buy? then context.market.askDepth else context.market.bidDepth)
    case _ => false
  }

  /** The question itself has the fault the error names. */
  predicate Faulty(proposal: Proposal, context: PolicyContext, error: PolicyError) {
    var market, portfolio, rules := context.market, context.portfolio, context.rules;
    match error
    case OutsideUniverse => proposal.symbol !in {BTC, ETH, SOL} || proposal.symbol != market.symbol
    case InvalidMarket =>
      || market.markPrice <= 0 || market.oraclePrice <= 0 || proposal.limitPrice <= 0
      || SizingPrice(proposal, context) <= 0 || market.sizeDecimals > 8
      || portfolio.equity <= 0 || context.startingCapital <= 0 || context.isolatedLeverage == 0
    case DelistedMarket => market.delisted
    case StaleBook => market.bookAgeSeconds > rules.bookMaxAgeSeconds
    case WideSpread => market.spreadBps > rules.maxSpreadBps
    case ReduceOnlyViolation =>
      proposal.reduceOnly
      && (if proposal.side.Buy? then portfolio.symbolPosition >= 0 else portfolio.symbolPosition <= 0)
    case DailyLoss => !LossBelow(portfolio.dayStartEquity, portfolio.equity, rules.dailyLossBps)
    case Drawdown => !LossBelow(portfolio.peakEquity, portfolio.equity, rules.drawdownBps)
    case OrderLimit => portfolio.ordersToday >= rules.maxOrdersDay
    case _ => false
  }

  /** A refusal, other than for arithmetic, names a fault of the question, or a rule the sized order
      breaks. */
  lemma RefusalHasItsReason(proposal: Proposal, context: PolicyContext)
    requires EvaluateProposal(proposal, context).Err?
    ensures var error := EvaluateProposal(proposal, context).error;
            || error == PolicyOverflow || Faulty(proposal, context, error)
            || (&& context.market.sizeDecimals <= 8
                && exists notional: int ::
                     SizedSo(proposal, context, notional) && Breaks(proposal, context, error, notional))
  {
    hide SizedAs, Limit;
    GateIff(proposal, context);
    if Gate(proposal, context).Some? {
      GateNamesTheFault(proposal, context);
    } else if SizeOrder(proposal, context).Ok? {
      hide Gate, SizeOrder, Breaks, Faulty;
      var (quantity, notional) := SizeOrder(proposal, context).value;
      SizeIff(proposal, context, quantity, notional);
      assert SizedSo(proposal, context, notional);
      hide SizedSo;
      SizedNotional(proposal, context, quantity, notional);
      if Limit(proposal, context, notional).Some? {
        LimitNamesTheRule(proposal, context, notional);
      }
    }
  }

  lemma SizedNotional(proposal: Proposal, context: PolicyContext, quantity: int, notional: int)
    requires PassesGates(proposal, context) && SizedAs(proposal, context, quantity, notional)
    ensures notional >= 0
  {
    SizedIsPositive(proposal, context, quantity, notional);
  }

  lemma GateNamesTheFault(proposal: Proposal, context: PolicyContext)
    requires Gate(proposal, context).Some?
    ensures var error := Gate(proposal, context).value;
            error == PolicyOverflow || Faulty(proposal, context, error)
  {
    var portfolio := context.portfolio;
    if portfolio.equity > 0 {
      LossIff(portfolio.dayStartEquity, portfolio.equity, context.rules.dailyLossBps);
      LossIff(portfolio.peakEquity, portfolio.equity, context.rules.drawdownBps);
      hide LossBps;
    }
  }

  lemma LimitNamesTheRule(proposal: Proposal, context: PolicyContext, notional: i64)
    requires PassesGates(proposal, context) && notional >= 0 && Limit(proposal, context, notional).Some?
    ensures var error := Limit(proposal, context, notional).value;
            || error == PolicyOverflow || Faulty(proposal, context, error)
            || Breaks(proposal, context, error, notional)
  {
    var capital, rules := context.Capital(), context.rules;
    BpsIff(capital, rules.maxOrderBps);
    BpsIff(capital, rules.maxPositionBps);
    if context.isolatedLeverage > 0 {
      CollateralIff(proposal, context, notional);
    }
    MulMono(0, capital, rules.maxPositionBps);
    hide BpsAmount, LossBelow, PolicyContext.Capital;
  }
}
