/** Every parser is exact on what it accepts, the printer and the parser are inverse, and printed
    places tell divisibility. */
module DecimalTheorems {
  import opened Arithmetic
  import opened Decimal

  // ---------------------------------------------------------------- values of digit strings

  lemma {:induction false} ValueConcat(a: string, b: string)
    requires AllDigits(a) && AllDigits(b)
    ensures AllDigits(a + b)
    ensures Value(a + b) == Value(a) * Pow10(|b|) + Value(b)
  {
    if b == "" {
      assert a + b == a;
    } else {
      var shorter := b[..|b| - 1];
      ValueConcat(a, shorter);
      assert (a + b)[..|a + b| - 1] == a + shorter;
      assert Value(a + b) == 10 * Value(a + shorter) + Digit(b[|b| - 1]);
      var power := Pow10(|shorter|);
      assert Pow10(|b|) == power * 10;
      MulAssoc(Value(a), power, 10);
    }
  }

  lemma {:induction false} ValueBound(s: string)
    requires AllDigits(s)
    ensures Value(s) < Pow10(|s|)
  {
    if s != "" {
      ValueBound(s[..|s| - 1]);
    }
  }

  lemma {:induction false} ZeroValue(s: string)
    requires AllDigits(s)
    ensures Value(s) == 0 <==> AllZeros(s)
  {
    if s != "" {
      ZeroValue(s[..|s| - 1]);
      assert AllZeros(s) <==> AllZeros(s[..|s| - 1]) && s[|s| - 1] == '0';
    }
  }

  lemma PaddedValue(s: string, zeros: nat)
    requires AllDigits(s)
    ensures AllDigits(s + Zeros(zeros))
    ensures Value(s + Zeros(zeros)) == Value(s) * Pow10(zeros)
  {
    ZeroValue(Zeros(zeros));
    ValueConcat(s, Zeros(zeros));
  }

  lemma Pow10Mono(m: nat, n: nat)
    requires m <= n
    ensures Pow10(m) <= Pow10(n)
  {
    Pow10Sum(n - m, m);
    MulMono(1, Pow10(n - m), Pow10(m));
  }

  const WIDE_DIGITS: nat := 38

  lemma Pow10Wide()
    ensures Pow10(WIDE_DIGITS) == 100_000_000_000_000_000_000_000_000_000_000_000_000
    ensures Pow10(WIDE_DIGITS) <= I128_MAX < Pow10(WIDE_DIGITS + 1)
  {
    assert Pow10(4) == 10_000;
    Pow10Sum(4, 4);
    Pow10Sum(8, 8);
    Pow10Sum(16, 16);
    Pow10Sum(32, 4);
    assert Pow10(37) == 10 * Pow10(36);
    assert Pow10(38) == 10 * Pow10(37);
  }

  lemma WidePower(n: nat)
    ensures CheckedWide(Pow10(n)).Ok? <==> n <= WIDE_DIGITS
  {
    Pow10Wide();
    if n <= WIDE_DIGITS {
      Pow10Mono(n, WIDE_DIGITS);
    } else {
      Pow10Mono(WIDE_DIGITS + 1, n);
    }
  }

  // ---------------------------------------------------------------- what a decimal text denotes

  function Places(s: string): nat {
    |FractionPart(Unsigned(s))|
  }

  /** A well-formed text denotes `Signed(s, Magnitude(s)) / 10^Places(s)`. */
  function Magnitude(s: string): nat
    requires WellFormed(s)
  {
    Value(WholePart(Unsigned(s))) * Pow10(Places(s)) + Value(FractionPart(Unsigned(s)))
  }

  /** The text denotes exactly `x / 10^scale`. */
  predicate Denotes(s: string, x: int, scale: nat)
    requires WellFormed(s)
  {
    x * Pow10(Places(s)) == Signed(s, Magnitude(s)) * Pow10(scale)
  }

  /** `x / 10^scale` is the nearest to what the text denotes, ties going away from zero. */
  predicate RoundsTo(s: string, x: int, scale: nat)
    requires WellFormed(s)
  {
    && x == Signed(s, Abs(x))
    && HalfUp(Abs(x), Magnitude(s) * Pow10(scale), Pow10(Places(s)))
  }

  /** `q` is `n / d` rounded to the nearest integer, halves going up. */
  predicate HalfUp(q: int, n: int, d: int) {
    (2 * q - 1) * d <= 2 * n < (2 * q + 1) * d
  }

  // ---------------------------------------------------------------- scaling by powers of ten

  lemma CancelScale(a: int, b: int, p: int)
    requires p > 0 && a * p == b * p
    ensures a == b
  {
    if a < b {
      MulStrict(a, b, p);
    } else if b < a {
      MulStrict(b, a, p);
    }
  }

  /** Lifting whole and fraction to a finer scale. */
  lemma LiftScale(whole: nat, fraction: nat, places: nat, scale: nat)
    requires places <= scale
    ensures (whole * Pow10(scale) + fraction * Pow10(scale - places)) * Pow10(places)
            == (whole * Pow10(places) + fraction) * Pow10(scale)
  {
    Pow10Sum(scale - places, places);
    RegroupLifted(whole, fraction, Pow10(places), Pow10(scale - places));
  }

  lemma RegroupLifted(whole: int, fraction: int, p: int, gap: int)
    ensures (whole * (gap * p) + fraction * gap) * p == (whole * p + fraction) * (gap * p)
  {
    assert whole * (gap * p) == (whole * p) * gap;
    assert whole * (gap * p) + fraction * gap == (whole * p + fraction) * gap;
    MulAssoc(whole * p + fraction, gap, p);
  }

  /** Splitting a fraction that is finer than the scale. */
  lemma DropScale(whole: nat, kept: nat, dropped: nat, places: nat, scale: nat)
    requires scale <= places
    ensures (whole * Pow10(places) + (kept * Pow10(places - scale) + dropped)) * Pow10(scale)
            == (whole * Pow10(scale) + kept) * Pow10(places) + dropped * Pow10(scale)
  {
    Pow10Sum(places - scale, scale);
    RegroupDropped(whole, kept, dropped, Pow10(scale), Pow10(places - scale));
  }

  lemma RegroupDropped(whole: int, kept: int, dropped: int, k: int, gap: int)
    ensures (whole * (gap * k) + (kept * gap + dropped)) * k
            == (whole * k + kept) * (gap * k) + dropped * k
  {
    assert whole * (gap * k) == (whole * k) * gap;
    assert (whole * (gap * k) + (kept * gap + dropped)) * k
           == ((whole * k + kept) * gap + dropped) * k;
    assert ((whole * k + kept) * gap + dropped) * k == ((whole * k + kept) * gap) * k + dropped * k;
    MulAssoc(whole * k + kept, gap, k);
  }

  lemma SignedScale(s: string, x: int, magnitude: int, p: int, q: int)
    requires p > 0
    ensures Signed(s, x) * p == Signed(s, magnitude) * q <==> x * p == magnitude * q
  {
  }

  /** The integer `fixed` an accepted text leads to, before the sign. */
  lemma FixedIsExact(s: string, fixed: nat, scale: nat, x: int)
    requires WellFormed(s)
    requires fixed * Pow10(Places(s)) == Magnitude(s) * Pow10(scale)
    ensures Denotes(s, x, scale) <==> x == Signed(s, fixed)
  {
    SignedScale(s, fixed, Magnitude(s), Pow10(Places(s)), Pow10(scale));
    if Denotes(s, x, scale) {
      CancelScale(x, Signed(s, fixed), Pow10(Places(s)));
    }
  }

  // ---------------------------------------------------------------- the agent's parser

  lemma FractionSplit(fraction: string, scale: nat)
    requires AllDigits(fraction) && scale <= |fraction|
    ensures AllDigits(fraction[..scale]) && AllDigits(fraction[scale..])
    ensures Value(fraction) == Value(fraction[..scale]) * Pow10(|fraction| - scale)
                               + Value(fraction[scale..])
    ensures Value(fraction[scale..]) < Pow10(|fraction| - scale)
  {
    assert fraction == fraction[..scale] + fraction[scale..];
    ValueConcat(fraction[..scale], fraction[scale..]);
    ValueBound(fraction[scale..]);
  }

  /** Whole and padded fraction as the agent combines them. */
  function Combined(s: string, scale: nat): nat
    requires WellFormed(s)
  {
    var whole, fraction := WholePart(Unsigned(s)), FractionPart(Unsigned(s));
    Value(whole) * Pow10(scale)
    + (if |fraction| <= scale then Value(fraction) * Pow10(scale - |fraction|)
       else Value(fraction[..scale]))
  }

  /** Nothing nonzero lies beyond the scale. */
  predicate Representable(s: string, scale: nat)
    requires WellFormed(s)
  {
    var fraction := FractionPart(Unsigned(s));
    |fraction| <= scale || AllZeros(fraction[scale..])
  }

  lemma {:induction false} CombinedIsExact(s: string, scale: nat)
    requires WellFormed(s)
    ensures Representable(s, scale)
            ==> Combined(s, scale) * Pow10(Places(s)) == Magnitude(s) * Pow10(scale)
    ensures !Representable(s, scale) ==> forall x :: !Denotes(s, x, scale)
  {
    hide Pow10, Value;
    var whole, fraction := WholePart(Unsigned(s)), FractionPart(Unsigned(s));
    if |fraction| <= scale {
      LiftScale(Value(whole), Value(fraction), |fraction|, scale);
    } else {
      FractionSplit(fraction, scale);
      ZeroValue(fraction[scale..]);
      var dropped := Value(fraction[scale..]);
      DropScale(Value(whole), Value(fraction[..scale]), dropped, |fraction|, scale);
      if !Representable(s, scale) {
        forall x ensures !Denotes(s, x, scale) {
          var p, k, gap := Pow10(|fraction|), Pow10(scale), Pow10(|fraction| - scale);
          Pow10Sum(|fraction| - scale, scale);
          MulStrict(0, dropped, k);
          MulStrict(dropped, gap, k);
          SignedScale(s, Abs(x), Magnitude(s), p, k);
          NotBetweenMultiples(Abs(x), Combined(s, scale), p, dropped * k);
        }
      }
    }
  }

  /** A number strictly between two consecutive multiples is no multiple. */
  lemma NotBetweenMultiples(x: int, base: int, p: int, excess: int)
    requires 0 < excess < p
    ensures x * p != base * p + excess
  {
    if x <= base {
      MulMono(x, base, p);
    } else {
      MulMono(base + 1, x, p);
    }
  }

  lemma PaddedFraction(fraction: string, scale: nat)
    requires AllDigits(fraction)
    ensures var padded := PadTo(fraction[..Min(|fraction|, scale)], scale);
            && AllDigits(padded) && |padded| == scale
            && Value(padded) == (if |fraction| <= scale then Value(fraction) * Pow10(scale - |fraction|)
                                 else Value(fraction[..scale]))
            && Value(padded) < Pow10(scale)
            && (scale == 0 ==> Value(padded) == 0)
  {
    var kept := fraction[..Min(|fraction|, scale)];
    if |fraction| <= scale {
      assert kept == fraction;
      PaddedValue(fraction, scale - |fraction|);
      assert fraction + Zeros(0) == fraction;
      assert Value(fraction) * Pow10(0) == Value(fraction);
    }
    ValueBound(PadTo(kept, scale));
  }

  /** A scaled whole within range was in range before scaling. */
  lemma WholeFits(whole: nat, power: int, rest: nat)
    requires power >= 1 && whole * power + rest <= I64_MAX + 1
    ensures whole <= I64_MAX + 1 && whole * power <= I64_MAX + 1
  {
    MulMono(1, power, whole);
  }

  lemma {:induction false} AssembleIsExact(s: string, whole: string, fraction: nat, scale: nat, x: i64)
    requires whole != "" && AllDigits(whole)
    requires scale <= WIDE_DIGITS ==> fraction <= Pow10(scale)
    ensures Assemble(s, whole, fraction, scale) == Ok(x)
            <==> scale <= WIDE_DIGITS && x == Signed(s, Value(whole) * Pow10(scale) + fraction)
  {
    hide Value;
    WidePower(scale);
    if scale <= WIDE_DIGITS {
      Pow10Wide();
      Pow10Mono(scale, WIDE_DIGITS);
      hide Pow10;
      if x == Signed(s, Value(whole) * Pow10(scale) + fraction) {
        WholeFits(Value(whole), Pow10(scale), fraction);
      }
    }
  }

  /** The agent's parser accepts exactly the texts that denote a representable fixed-point value, and
      returns that value. */
  lemma AgentParserIsExact(s: string, scale: u8, x: i64)
    ensures DecimalStringToFixed(s, scale) == Ok(x)
            <==> WellFormed(s) && scale <= WIDE_DIGITS && Denotes(s, x, scale)
  {
    hide Pow10, Value, Denotes, Magnitude, Assemble;
    if WellFormed(s) {
      var whole, fraction := WholePart(Unsigned(s)), FractionPart(Unsigned(s));
      CombinedIsExact(s, scale);
      if Representable(s, scale) {
        FixedIsExact(s, Combined(s, scale), scale, x);
        PaddedFraction(fraction, scale);
        var padded := PadTo(fraction[..Min(|fraction|, scale)], scale);
        AssembleIsExact(s, whole, Value(padded), scale, x);
        if scale <= WIDE_DIGITS {
          Pow10Wide();
          Pow10Mono(scale, WIDE_DIGITS);
        }
      }
    }
  }

  // ---------------------------------------------------------------- the publisher's parsers

  lemma {:induction false} ScaledFraction(fraction: string, scale: u32)
    requires AllDigits(fraction) && |fraction| <= scale
    ensures ScaleFraction(fraction, scale).Ok? ==> ScaleFraction(fraction, scale).value >= 0
    ensures scale <= WIDE_DIGITS ==>
              && ScaleFraction(fraction, scale) == Ok(Value(fraction) * Pow10(scale - |fraction|))
              && Value(fraction) * Pow10(scale - |fraction|) <= Pow10(scale)
  {
    var gap := scale - |fraction|;
    assert fraction == "" ==> Value(fraction) == 0;
    ValueBound(fraction);
    Pow10Sum(|fraction|, gap);
    Pow10Wide();
    if scale <= WIDE_DIGITS {
      Pow10Mono(|fraction|, WIDE_DIGITS);
      Pow10Mono(scale, WIDE_DIGITS);
      Pow10Mono(gap, WIDE_DIGITS);
    }
    hide Pow10, Value;
    MulMono(0, Value(fraction), Pow10(gap));
    MulMono(Value(fraction), Pow10(|fraction|), Pow10(gap));
  }

  lemma PublisherParserIsExact(s: string, scale: u32, x: i64)
    ensures ParseScaled(s, scale) == Ok(x)
            <==> WellFormed(s) && Places(s) <= scale <= WIDE_DIGITS && Denotes(s, x, scale)
  {
    hide Pow10, Value, Denotes, Magnitude, Assemble;
    var unsigned := Unsigned(s);
    var whole, fraction := WholePart(unsigned), FractionPart(unsigned);
    if WellFormed(s) {
      assert '.' !in fraction;
      assert unsigned[0] == whole[0];
      if |fraction| <= scale {
        CombinedIsExact(s, scale);
        FixedIsExact(s, Combined(s, scale), scale, x);
        ScaledFraction(fraction, scale);
        var scaled := ScaleFraction(fraction, scale);
        if scaled.Ok? {
          AssembleIsExact(s, whole, scaled.value, scale, x);
        }
      }
    }
  }

  /** The two parsers agree: the publisher accepts exactly what the agent accepts among the texts
      with no more places than the scale, with the same value. */
  lemma ParsersAgree(s: string, scale: u8, x: i64)
    ensures ParseScaled(s, scale) == Ok(x)
            <==> DecimalStringToFixed(s, scale) == Ok(x) && Places(s) <= scale
  {
    PublisherParserIsExact(s, scale, x);
    AgentParserIsExact(s, scale, x);
  }

  /** The first dropped digit decides which side of the half the dropped part is on. */
  lemma FirstDroppedDigit(dropped: string)
    requires AllDigits(dropped) && dropped != ""
    ensures dropped[0] >= '5' <==> 2 * Value(dropped) >= Pow10(|dropped|)
  {
    var first, rest := dropped[..1], dropped[1..];
    assert dropped == first + rest;
    ValueConcat(first, rest);
    ValueBound(rest);
    assert first[..0] == "";
    assert Value(first) == Digit(dropped[0]);
    var power := Pow10(|rest|);
    assert Pow10(|dropped|) == 10 * power;
    if dropped[0] >= '5' {
      MulMono(5, Digit(dropped[0]), power);
    } else {
      MulMono(Digit(dropped[0]), 4, power);
    }
  }

  /** Adding the carry of the first dropped digit rounds half away from zero. */
  lemma CarryRounds(s: string, scale: nat, x: int)
    requires WellFormed(s) && scale < Places(s)
    ensures RoundsTo(s, x, scale)
            <==> x == Signed(s, Combined(s, scale) + Carry(FractionPart(Unsigned(s))[scale]))
  {
    hide Pow10, Value;
    var whole, fraction := WholePart(Unsigned(s)), FractionPart(Unsigned(s));
    FractionSplit(fraction, scale);
    var dropped := Value(fraction[scale..]);
    DropScale(Value(whole), Value(fraction[..scale]), dropped, |fraction|, scale);
    FirstDroppedDigit(fraction[scale..]);
    var p, k, gap := Pow10(|fraction|), Pow10(scale), Pow10(|fraction| - scale);
    Pow10Sum(|fraction| - scale, scale);
    var base, excess := Combined(s, scale), dropped * k;
    assert Magnitude(s) * k == base * p + excess;
    HalfOfScaled(dropped, gap, k);
    hide Combined, Magnitude, HalfUp;
    HalfUnique(Abs(x), base, p, excess, Carry(fraction[scale]));
  }

  lemma HalfOfScaled(part: int, whole: int, k: int)
    requires 0 <= part < whole && 0 < k
    ensures 0 <= part * k < whole * k
    ensures 2 * (part * k) >= whole * k <==> 2 * part >= whole
  {
    MulMono(0, part, k);
    MulStrict(part, whole, k);
    if 2 * part >= whole {
      MulMono(whole, 2 * part, k);
    } else {
      MulStrict(2 * part, whole, k);
    }
    assert (2 * part) * k == 2 * (part * k);
  }

  lemma HalfUnique(x: nat, base: int, p: int, excess: int, carry: int)
    requires 0 <= excess < p && (carry == if 2 * excess >= p then 1 else 0)
    ensures HalfUp(x, base * p + excess, p) <==> x == base + carry
  {
    assert (2 * x - 1) * p == 2 * (x * p) - p;
    assert (2 * x + 1) * p == 2 * (x * p) + p;
    if x <= base - 1 {
      MulMono(x, base - 1, p);
      assert (base - 1) * p == base * p - p;
    } else if x >= base + 2 {
      MulMono(base + 2, x, p);
      assert (base + 2) * p == base * p + 2 * p;
    } else if x == base + 1 {
      assert (base + 1) * p == base * p + p;
    }
  }

  /** When nothing is dropped, rounding is exactness. */
  lemma RoundingExact(s: string, scale: nat, x: int)
    requires WellFormed(s) && Places(s) <= scale
    ensures RoundsTo(s, x, scale) <==> Denotes(s, x, scale)
  {
    CombinedIsExact(s, scale);
    var base, p := Combined(s, scale), Pow10(Places(s));
    FixedIsExact(s, base, scale, x);
    hide Combined, Magnitude, HalfUp, Pow10, Denotes;
    HalfUnique(Abs(x), base, p, 0, 0);
  }

  /** Every successful rounded parse is the nearest scaled integer, ties away from zero, and every
      well-formed text in range succeeds unless it has more than 18 places beyond the scale. */
  lemma RoundedParserIsNearest(s: string, scale: u32, x: i64)
    ensures ParseScaledRounded(s, scale) == Ok(x)
            <==> && WellFormed(s) && scale <= WIDE_DIGITS
                 && (Places(s) <= scale || Places(s) <= 18)
                 && RoundsTo(s, x, scale)
  {
    hide Pow10, Value, Denotes, Magnitude, RoundsTo, ParseScaled, Assemble;
    PublisherParserIsExact(s, scale, x);
    var whole, fraction := WholePart(Unsigned(s)), FractionPart(Unsigned(s));
    if WellFormed(s) && Places(s) <= scale {
      RoundingExact(s, scale, x);
    } else if WellFormed(s) && Places(s) <= 18 {
      CarryRounds(s, scale, x);
      FractionSplit(fraction, scale);
      ValueBound(fraction[..scale]);
      Pow10Wide();
      Pow10Mono(scale, WIDE_DIGITS);
      AssembleIsExact(s, whole, Value(fraction[..scale]) + Carry(fraction[scale]), scale, x);
    }
  }

  // ---------------------------------------------------------------- printing

  lemma ShortestIsWellFormed(s: string, value: nat, scale: nat)
    requires ShortestForm(s, value, scale)
    ensures !IsNegative(s) && WellFormed(s) && Unsigned(s) == s
    ensures Denotes(s, value, scale)
  {
    var whole, fraction := WholePart(s), FractionPart(s);
    assert s[0] == whole[0] && IsDigit(whole[0]);
    var units, rest := WholeUnits(value, scale), Residue(value, scale);
    UnitsAndResidue(value, scale);
    LiftScale(units, Value(fraction), |fraction|, scale);
    assert Magnitude(s) == units * Pow10(|fraction|) + Value(fraction);
    hide WholeUnits, Residue, Pow10, Value;
    assert value == units * Pow10(scale) + Value(fraction) * Pow10(scale - |fraction|);
  }

  lemma UnitsAndResidue(value: nat, scale: nat)
    ensures value == WholeUnits(value, scale) * Pow10(scale) + Residue(value, scale)
    ensures 0 <= Residue(value, scale) < Pow10(scale)
  {
    DivBounds(value, Pow10(scale));
  }

  /** Printing and parsing are inverse at every scale whose power fits in 64 bits. */
  lemma PrintedTextParsesBack(s: string, value: i64, scale: u8)
    requires 0 < value && Pow10(scale) <= I64_MAX && ShortestForm(s, value, scale)
    ensures DecimalStringToFixed(s, scale) == Ok(value)
    ensures ParseScaled(s, scale) == Ok(value)
  {
    ShortestIsWellFormed(s, value, scale);
    Pow10Wide();
    if scale > WIDE_DIGITS {
      Pow10Mono(WIDE_DIGITS + 1, scale);
    }
    AgentParserIsExact(s, scale, value);
    ParsersAgree(s, scale, value);
  }

  lemma MultipleOf(n: int, d: int, q: int)
    requires d > 0 && n == q * d
    ensures n % d == 0
  {
    DivUnique(n, d, q);
    DivBounds(n, d);
  }

  /** The last digit of a nonempty fraction in shortest form is not zero, so ten does not divide it. */
  lemma NotTenfold(fraction: string)
    requires AllDigits(fraction) && fraction != "" && fraction[|fraction| - 1] != '0'
    ensures Value(fraction) % 10 != 0
  {
    var last := Digit(fraction[|fraction| - 1]);
    assert Value(fraction) == 10 * Value(fraction[..|fraction| - 1]) + last;
  }

  /** A printed text has at most `places` places exactly when the matching lot divides the value. */
  lemma PlacesTellDivisibility(s: string, value: nat, scale: nat, places: nat)
    requires ShortestForm(s, value, scale) && places <= scale
    ensures DecimalPlaces(s) <= places <==> value % Pow10(scale - places) == 0
  {
    var fraction := FractionPart(s);
    UnitsAndResidue(value, scale);
    var units, cut := WholeUnits(value, scale), |fraction|;
    Pow10Sum(places, scale - places);
    if cut <= places {
      Pow10Sum(places - cut, scale - places);
      ShortDivides(value, units, Pow10(places), Value(fraction), Pow10(places - cut),
                   Pow10(scale - places));
    } else {
      Pow10Sum(cut - places, scale - cut);
      NotTenfold(fraction);
      LongDoesNotDivide(value, units, Pow10(places), Value(fraction), Pow10(cut - places - 1),
                        Pow10(scale - cut));
    }
  }

  lemma ShortDivides(value: int, units: int, up: int, fraction: int, gap: int, lot: int)
    requires lot > 0 && value == units * (up * lot) + fraction * (gap * lot)
    ensures value % lot == 0
  {
    MulAssoc(units, up, lot);
    MulAssoc(fraction, gap, lot);
    assert value == (units * up + fraction * gap) * lot;
    MultipleOf(value, lot, units * up + fraction * gap);
  }

  lemma LongDoesNotDivide(value: int, units: int, up: int, fraction: int, tenth: int, tail: int)
    requires tail > 0 && tenth > 0 && fraction % 10 != 0
    requires value == units * (up * (10 * tenth * tail)) + fraction * tail
    ensures value % (10 * tenth * tail) != 0
  {
    var lot := 10 * tenth * tail;
    MulStrict(0, tenth, tail);
    assert lot == 10 * (tenth * tail) > 0;
    if value % lot == 0 {
      var q := value / lot;
      DivBounds(value, lot);
      MulAssoc(units, up, lot);
      var excess := q - units * up;
      assert fraction * tail == excess * lot;
      MulAssoc(excess, 10 * tenth, tail);
      CancelScale(fraction, excess * (10 * tenth), tail);
      assert fraction == (excess * tenth) * 10;
      MultipleOf(fraction, 10, excess * tenth);
    }
  }
}
