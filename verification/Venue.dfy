/** Encoding an approved order for the venue: fixed-point numbers printed as text, and the size
    precision check on what was printed. */
module Venue {
  import opened Arithmetic
  import opened Decimal
  import opened Policy
  import DecimalTheorems
  import PolicyTheorems

  const PRICE_SCALE: u8 := 6
  const SIZE_SCALE: u8 := 8

  datatype CoreAsset = CoreAsset(assetIndex: u32, sizeDecimals: u8, maxLeverage: u32)

  datatype VenueError = UnknownSymbol | Numeric

  datatype TimeInForce = ImmediateOrCancel | GoodTilCancelled | AddLiquidityOnly

  /** A limit order; price and size are the printed decimals. */
  datatype OrderRequest = OrderRequest(
    asset: u32,
    isBuy: bool,
    reduceOnly: bool,
    limitPrice: string,
    size: string,
    clientOrderId: nat,
    timeInForce: TimeInForce)

  lemma {:induction false} PointAfter(whole: string, fraction: string)
    requires '.' !in whole
    ensures var s := whole + "." + fraction;
            PointIndex(s) == |whole| && WholePart(s) == whole && FractionPart(s) == fraction
  {
    var s := whole + "." + fraction;
    if whole != "" {
      PointAfter(whole[1..], fraction);
      assert s[1..] == whole[1..] + "." + fraction;
    }
    assert s[..|whole|] == whole && s[|whole| + 1..] == fraction;
  }

  lemma NoPoint(s: string)
    requires '.' !in s
    ensures PointIndex(s) == |s| && WholePart(s) == s && FractionPart(s) == ""
  {
  }

  lemma PaddedDigitsValue(n: nat, width: nat)
    requires 0 < n < Pow10(width)
    ensures AllDigits(PaddedDigits(n, width)) && |PaddedDigits(n, width)| == width
    ensures Value(PaddedDigits(n, width)) == n
  {
    var digits := Digits(n);
    if |digits| < width {
      var zeros := Zeros(width - |digits|);
      DecimalTheorems.ZeroValue(zeros);
      DecimalTheorems.ValueConcat(zeros, digits);
    } else {
      DigitsLength(n, width);
    }
  }

  /** A positive number below a power of ten has at most that many digits. */
  lemma {:induction false} DigitsLength(n: nat, width: nat)
    requires 0 < n < Pow10(width)
    ensures |Digits(n)| <= width
  {
    if n >= 10 {
      DigitsLength(n / 10, width - 1);
    }
  }

  /** A fraction of at most so many digits that is worth `rest` of the scale's units. */
  predicate Denotes(fraction: string, rest: nat, scale: nat) {
    && AllDigits(fraction) && 0 < |fraction| <= scale
    && Value(fraction) * Pow10(scale - |fraction|) == rest
  }

  lemma PaddedDenotes(rest: nat, scale: nat)
    requires 0 < rest < Pow10(scale)
    ensures Denotes(PaddedDigits(rest, scale), rest, scale)
  {
    PaddedDigitsValue(rest, scale);
    hide PaddedDigits;
    assert Pow10(0) == 1;
  }

  lemma DropTrailingZero(fraction: string, rest: nat, scale: nat)
    requires Denotes(fraction, rest, scale) && 0 < rest && fraction[|fraction| - 1] == '0'
    ensures Denotes(fraction[..|fraction| - 1], rest, scale)
  {
    var shorter := fraction[..|fraction| - 1];
    var power := Pow10(scale - |fraction|);
    assert Pow10(scale - |shorter|) == 10 * power;
    assert Value(fraction) == 10 * Value(shorter);
    assert (10 * Value(shorter)) * power == Value(shorter) * (10 * power);
    assert Value("") == 0;
  }

  lemma ShortestWithFraction(value: nat, scale: nat, fraction: string)
    requires Denotes(fraction, Residue(value, scale), scale) && fraction[|fraction| - 1] != '0'
    ensures ShortestForm(Digits(WholeUnits(value, scale)) + "." + fraction, value, scale)
  {
    hide Digits, WholeUnits, Residue, Value, Pow10, PointIndex;
    var whole := Digits(WholeUnits(value, scale));
    assert '.' !in whole;
    PointAfter(whole, fraction);
    assert whole + "." + fraction == whole + ("." + fraction);
  }

  lemma ShortestWithoutFraction(value: nat, scale: nat)
    requires Residue(value, scale) == 0
    ensures ShortestForm(Digits(WholeUnits(value, scale)), value, scale)
  {
    hide Digits, WholeUnits, Residue, Pow10, PointIndex;
    NoPoint(Digits(WholeUnits(value, scale)));
    assert Value("") == 0;
  }

  /** Prints a positive fixed-point number in shortest form, dropping trailing zeros one by one. */
  method FixedDecimal(value: i64, scale: u8) returns (printed: Result<string, VenueError>)
    ensures printed.Ok? <==> value > 0 && Pow10(scale) <= I64_MAX
    ensures printed.Ok? ==> ShortestForm(printed.value, value, scale)
  {
    hide Digits, WholeUnits, Residue, PaddedDigits, ShortestForm, Denotes;
    if value <= 0 || Pow10(scale) > I64_MAX {
      return Err(Numeric);
    }
    var whole, rest := WholeUnits(value, scale), Residue(value, scale);
    DecimalTheorems.UnitsAndResidue(value, scale);
    hide Pow10;
    if rest == 0 {
      ShortestWithoutFraction(value, scale);
      return Ok(Digits(whole));
    }
    var encoded := Digits(whole) + "." + PaddedDigits(rest, scale);
    ghost var fraction := PaddedDigits(rest, scale);
    PaddedDenotes(rest, scale);
    DenotesLength(fraction, rest, scale);
    while encoded[|encoded| - 1] == '0'
      invariant Denotes(fraction, rest, scale) && 0 < |fraction|
      invariant encoded == Digits(whole) + "." + fraction
      decreases |encoded|
    {
      DropTrailingZero(fraction, rest, scale);
      fraction := fraction[..|fraction| - 1];
      DenotesLength(fraction, rest, scale);
      encoded := encoded[..|encoded| - 1];
    }
    ShortestWithFraction(value, scale, fraction);
    return Ok(encoded);
  }

  lemma DenotesLength(fraction: string, rest: nat, scale: nat)
    requires Denotes(fraction, rest, scale)
    ensures 0 < |fraction|
  {
  }

  /** The precision check holds exactly when the asset's lot divides the quantity. */
  predicate SizeFits(quantity: int, sizeDecimals: u8) {
    sizeDecimals >= SIZE_SCALE || quantity % Pow10(SIZE_SCALE - sizeDecimals) == 0
  }

  lemma Powers()
    ensures Pow10(PRICE_SCALE) <= I64_MAX && Pow10(SIZE_SCALE) <= I64_MAX
  {
    assert Pow10(4) == 10_000;
    Pow10Sum(4, 4);
    Pow10Sum(4, 2);
    assert Pow10(2) == 100;
  }

  /** The asset is known, price and quantity are positive, and the quantity fits the asset's lot. */
  predicate Encodable(order: OrderDecision, assets: map<Asset, CoreAsset>) {
    && order.symbol in assets && order.limitPrice > 0 && order.quantity > 0
    && SizeFits(order.quantity, assets[order.symbol].sizeDecimals)
  }

  /** Builds the request, which can never rest on the book; what it carries reads back as exactly the
      order's price and size. */
  method BuildIocRequest(order: OrderDecision, assets: map<Asset, CoreAsset>, clientOrderId: nat)
    returns (request: Result<OrderRequest, VenueError>)
    ensures request.Ok? <==> Encodable(order, assets)
    ensures request.Ok? ==>
              && DecimalStringToFixed(request.value.limitPrice, PRICE_SCALE) == Ok(order.limitPrice)
              && DecimalStringToFixed(request.value.size, SIZE_SCALE) == Ok(order.quantity)
              && request.value.asset == assets[order.symbol].assetIndex
              && request.value.isBuy == order.side.Buy?
              && request.value.reduceOnly == order.reduceOnly
              && request.value.clientOrderId == clientOrderId
              && request.value.timeInForce == ImmediateOrCancel
  {
    if order.symbol !in assets {
      return Err(UnknownSymbol);
    }
    var asset := assets[order.symbol];
    Powers();
    var limitPrice := FixedDecimal(order.limitPrice, PRICE_SCALE);
    if limitPrice.Err? {
      return Err(limitPrice.error);
    }
    var size := FixedDecimal(order.quantity, SIZE_SCALE);
    if size.Err? {
      return Err(size.error);
    }
    hide Pow10, DecimalStringToFixed, ShortestForm, ParseScaled, DecimalPlaces, SizeFits;
    DecimalTheorems.PrintedTextParsesBack(limitPrice.value, order.limitPrice, PRICE_SCALE);
    EncodedSize(size.value, order.quantity, asset.sizeDecimals);
    if DecimalPlaces(size.value) > asset.sizeDecimals {
      return Err(Numeric);
    }
    return Ok(OrderRequest(asset.assetIndex, order.side.Buy?, order.reduceOnly, limitPrice.value,
                           size.value, clientOrderId, ImmediateOrCancel));
  }

  /** The printed size reads back, and its places pass the check exactly when the lot divides it. */
  lemma EncodedSize(s: string, quantity: i64, sizeDecimals: u8)
    requires 0 < quantity && ShortestForm(s, quantity, SIZE_SCALE)
    ensures DecimalStringToFixed(s, SIZE_SCALE) == Ok(quantity)
    ensures DecimalPlaces(s) <= sizeDecimals <==> SizeFits(quantity, sizeDecimals)
  {
    Powers();
    hide Pow10, DecimalStringToFixed, ParseScaled;
    DecimalTheorems.PrintedTextParsesBack(s, quantity, SIZE_SCALE);
    if sizeDecimals < SIZE_SCALE {
      DecimalTheorems.PlacesTellDivisibility(s, quantity, SIZE_SCALE, sizeDecimals);
    }
  }

  /** No order the policy approves fails the venue's checks, as long as both read the same lot. */
  lemma ApprovedOrdersEncode(proposal: Proposal, context: PolicyContext, order: OrderDecision,
                             assets: map<Asset, CoreAsset>)
    requires EvaluateProposal(proposal, context) == Ok(order)
    requires order.symbol in assets
    requires assets[order.symbol].sizeDecimals == context.market.sizeDecimals
    ensures Encodable(order, assets)
  {
    PolicyTheorems.OptimalSizing(proposal, context, order, 0);
    PolicyTheorems.ApprovalIff(proposal, context, order);
  }
}
