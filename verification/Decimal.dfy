/** Fixed-point decimals as text: the venue encoder, the agent's parser and the dataset
    publisher's two parsers. */
module Decimal {
  import opened Arithmetic

  datatype DecimalError = Malformed

  // ---------------------------------------------------------------- text

  predicate IsDigit(c: char) {
    '0' <= c <= '9'
  }

  predicate AllDigits(s: string) {
    forall i :: 0 <= i < |s| ==> IsDigit(s[i])
  }

  predicate AllZeros(s: string) {
    forall i :: 0 <= i < |s| ==> s[i] == '0'
  }

  function Digit(c: char): int
    requires IsDigit(c)
  {
    c as int - '0' as int
  }

  /** The number a run of decimal digits denotes. */
  function Value(s: string): (n: nat)
    requires AllDigits(s)
  {
    if s == "" then 0 else 10 * Value(s[..|s| - 1]) + Digit(s[|s| - 1])
  }

  function Zeros(n: nat): (s: string)
    ensures |s| == n && AllZeros(s)
  {
    seq(n, _ => '0')
  }

  /** Position of the first point, or the length when there is none. */
  function PointIndex(s: string): (i: nat)
    ensures i <= |s| && '.' !in s[..i]
    ensures i < |s| ==> s[i] == '.'
  {
    if s == "" then 0
    else if s[0] == '.' then 0
    else 1 + PointIndex(s[1..])
  }

  function WholePart(s: string): string {
    s[..PointIndex(s)]
  }

  /** What follows the first point; empty when there is no point. */
  function FractionPart(s: string): string {
    if PointIndex(s) < |s| then s[PointIndex(s) + 1..] else ""
  }

  predicate IsNegative(s: string) {
    s != "" && s[0] == '-'
  }

  function Unsigned(s: string): string {
    if IsNegative(s) then s[1..] else s
  }

  function Signed(s: string, magnitude: int): int {
    if IsNegative(s) then -magnitude else magnitude
  }

  /** An optional minus, digits, and optionally a point followed by digits. */
  predicate WellFormed(s: string) {
    var whole, fraction := WholePart(Unsigned(s)), FractionPart(Unsigned(s));
    whole != "" && AllDigits(whole) && AllDigits(fraction)
  }

  // ---------------------------------------------------------------- wide integers

  /** Reads digits as a signed 128-bit number; no digits, or too large a number, is an error. */
  function ParseWide(digits: string): Result<int, DecimalError>
    requires AllDigits(digits)
  {
    if digits == "" || Value(digits) > I128_MAX then Err(Malformed) else Ok(Value(digits))
  }

  function CheckedWide(x: int): Result<int, DecimalError> {
    if -I128_MAX - 1 <= x <= I128_MAX then Ok(x) else Err(Malformed)
  }

  /** Whole digits scaled, the scaled fraction added, the sign applied: every step checked. */
  function Assemble(s: string, whole: string, fraction: int, scale: nat): Result<i64, DecimalError>
    requires AllDigits(whole)
  {
    var wholeValue :- ParseWide(whole);
    var multiplier :- CheckedWide(Pow10(scale));
    var product :- CheckedWide(wholeValue * multiplier);
    var fixed :- CheckedWide(product + fraction);
    ToI64(Signed(s, fixed), Malformed)
  }

  // ---------------------------------------------------------------- the agent's parser

  function PadTo(s: string, scale: nat): string {
    if |s| < scale then s + Zeros(scale - |s|) else s
  }

  function DecimalStringToFixed(s: string, scale: u8): Result<i64, DecimalError> {
    var unsigned := Unsigned(s);
    var whole, fraction := WholePart(unsigned), FractionPart(unsigned);
    if whole == "" || !AllDigits(whole) || !AllDigits(fraction) then Err(Malformed)
    else if |fraction| > scale && !AllZeros(fraction[scale..]) then Err(Malformed)
    else
      var fractional := PadTo(fraction[..Min(|fraction|, scale)], scale);
      var fractionValue :- if fractional == "" then Ok(0) else ParseWide(fractional);
      Assemble(s, whole, fractionValue, scale)
  }

  // ---------------------------------------------------------------- the publisher's parsers

  function ParseScaled(s: string, scale: u32): Result<i64, DecimalError> {
    var unsigned := Unsigned(s);
    if unsigned == "" || unsigned[0] == '+' then Err(Malformed)
    else
      var whole, fraction := WholePart(unsigned), FractionPart(unsigned);
      if '.' in fraction || whole == "" || !AllDigits(whole) || !AllDigits(fraction)
         || |fraction| > scale then
        Err(Malformed)
      else
        var fractionValue :- ScaleFraction(fraction, scale);
        Assemble(s, whole, fractionValue, scale)
  }

  function ScaleFraction(fraction: string, scale: u32): Result<int, DecimalError>
    requires AllDigits(fraction) && |fraction| <= scale
  {
    if fraction == "" then Ok(0)
    else
      var value :- ParseWide(fraction);
      var factor :- CheckedWide(Pow10(scale - |fraction|));
      CheckedWide(value * factor)
  }

  function ParseScaledRounded(s: string, scale: u32): Result<i64, DecimalError> {
    var unsigned := Unsigned(s);
    var whole, fraction := WholePart(unsigned), FractionPart(unsigned);
    if '.' in fraction || whole == "" || !AllDigits(whole) || !AllDigits(fraction)
       || |fraction| <= scale then
      ParseScaled(s, scale)
    else if |fraction| > 18 then Err(Malformed)
    else
      var retained :- if scale == 0 then Ok(0) else ParseWide(fraction[..scale]);
      Assemble(s, whole, retained + Carry(fraction[scale]), scale)
  }

  /** One unit of the last kept place when the first dropped digit is at least five. */
  function Carry(dropped: char): int {
    if dropped >= '5' then 1 else 0
  }

  // ---------------------------------------------------------------- the venue encoder

  function DigitChar(d: int): char
    requires 0 <= d <= 9
  {
    (d + '0' as int) as char
  }

  /** Decimal digits without leading zeros. */
  function Digits(n: nat): (s: string)
    ensures s != "" && AllDigits(s) && Value(s) == n
  {
    if n < 10 then
      var s := [DigitChar(n)];
      assert s[..0] == "";
      s
    else
      var s := Digits(n / 10) + [DigitChar(n % 10)];
      assert s[..|s| - 1] == Digits(n / 10);
      s
  }

  /** Digits left-padded with zeros to `width`. */
  function PaddedDigits(n: nat, width: nat): string {
    if |Digits(n)| < width then Zeros(width - |Digits(n)|) + Digits(n) else Digits(n)
  }

  function DecimalPlaces(s: string): nat {
    |FractionPart(s)|
  }

  function WholeUnits(value: nat, scale: nat): (units: nat) {
    hide Pow10;
    DivNat(value, Pow10(scale));
    value / Pow10(scale)
  }

  function Residue(value: nat, scale: nat): (rest: nat) {
    value % Pow10(scale)
  }

  /** `s` writes `value / 10^scale` in its shortest form: no sign, no leading zeros, no trailing
      zero after the point, no point without a fraction. */
  predicate ShortestForm(s: string, value: nat, scale: nat)
  {
    var whole, fraction := WholePart(s), FractionPart(s);
    && whole == Digits(WholeUnits(value, scale))
    && AllDigits(fraction) && |fraction| <= scale
    && s == whole + (if fraction == "" then "" else "." + fraction)
    && (fraction != "" ==> fraction[|fraction| - 1] != '0')
    && Value(fraction) * Pow10(scale - |fraction|) == Residue(value, scale)
  }
}
