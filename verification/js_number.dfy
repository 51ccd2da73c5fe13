/**
 * JavaScript numbers over `real`: NaN, the two infinities and finite values,
 * with Number(string), Math.round and multiplication.
 */
module JsNumber {
  import opened JsText
  import opened Wrappers

  /** An IEEE-754 double seen as an extended real (no rounding, no signed zero). */
  datatype Num = NaN | Fin(v: real) | PosInf | NegInf {
    predicate IsFinite() { Fin? }

    /** `n <= 0` in JavaScript: false for NaN. */
    predicate AtMostZero() { NegInf? || (Fin? && v <= 0.0) }
  }

  /**
   * A JSON or query-string scalar. `Number(n)` stands for a value the program
   * wrote from the number `n` (JSON number or `String(n)`): ECMAScript
   * guarantees that Number(String(n)) is n again, so the digits are not kept.
   */
  datatype Scalar = Str(s: string) | Number(n: Num)

  /** `Number(x)` of a scalar. */
  function ToNumber(x: Scalar): Num {
    match x
    case Str(s) => StringToNumber(s)
    case Number(n) => n
  }

  /** Math.round: the nearest integer, halves rounded up. */
  function Round(x: real): (r: int)
    ensures x - 0.5 < r as real <= x + 0.5
  {
    (x + 0.5).Floor
  }

  /** A whole number rounds to itself. */
  lemma RoundWhole(n: int)
    ensures Round(n as real) == n
  {
  }

  lemma RoundMonotone(x: real, y: real)
    requires x <= y
    ensures Round(x) <= Round(y)
  {
  }

  function Sign(n: Num): int
    requires !n.NaN?
  {
    match n
    case PosInf => 1
    case NegInf => -1
    case Fin(v) => if v > 0.0 then 1 else if v < 0.0 then -1 else 0
  }

  /** `a * b` with IEEE-754 rules for NaN and the infinities (no overflow). */
  function Mul(a: Num, b: Num): (r: Num)
    ensures a.IsFinite() && b.IsFinite() ==> r == Fin(a.v * b.v)
    ensures r.NaN? <==> a.NaN? || b.NaN? || (!a.IsFinite() && b == Fin(0.0)) || (!b.IsFinite() && a == Fin(0.0))
  {
    if a.NaN? || b.NaN? then NaN
    else if a.Fin? && b.Fin? then Fin(a.v * b.v)
    else
      var s := Sign(a) * Sign(b);
      if s == 0 then NaN else if s > 0 then PosInf else NegInf
  }

  // ---- StringToNumber (section 7.1.4.1.1 of ECMA-262) ----

  predicate IsDigit(c: char, radix: nat) {
    DigitValue(c) < radix
  }

  /** Value of a digit in any radix up to 16; 16 for anything else. */
  function DigitValue(c: char): (d: nat)
    ensures d <= 16
  {
    if '0' <= c <= '9' then c as int - '0' as int
    else if 'a' <= c <= 'f' then c as int - 'a' as int + 10
    else if 'A' <= c <= 'F' then c as int - 'A' as int + 10
    else 16
  }

  predicate AllDigits(ds: string, radix: nat) {
    forall i :: 0 <= i < |ds| ==> IsDigit(ds[i], radix)
  }

  /** The value of a digit string, most significant digit first. */
  function DigitsValue(ds: string, radix: nat): nat
    requires AllDigits(ds, radix)
  {
    if ds == [] then 0
    else DigitsValue(ds[..|ds| - 1], radix) * radix + DigitValue(ds[|ds| - 1])
  }

  function Pow10(k: nat): (r: real)
    ensures r >= 1.0
  {
    if k == 0 then 1.0 else 10.0 * Pow10(k - 1)
  }

  /** Index of the first character that is one of `stops`, or |s|. */
  function FindFirst(s: string, stops: string): (k: nat)
    ensures k <= |s|
    ensures k < |s| ==> s[k] in stops
    ensures forall i :: 0 <= i < k ==> s[i] !in stops
  {
    if s == [] || s[0] in stops then 0 else 1 + FindFirst(s[1..], stops)
  }

  /** SignedInteger of an ExponentPart, if well formed. */
  function ExponentValue(t: string): (r: Option<int>)
  {
    if t != [] && (t[0] == '+' || t[0] == '-') then
      var ds := t[1..];
      if ds != [] && AllDigits(ds, 10) then
        var k: int := DigitsValue(ds, 10);
        Some(if t[0] == '-' then -k else k)
      else None
    else if t != [] && AllDigits(t, 10) then Some(DigitsValue(t, 10))
    else None
  }

  function Scale(x: real, e: int): real {
    if e >= 0 then x * Pow10(e) else x / Pow10(-e)
  }

  /** StrUnsignedDecimalLiteral: `Infinity`, or digits with an optional point and exponent. */
  function UnsignedDecimal(t: string): Num {
    if t == "Infinity" then PosInf
    else
      var e := FindFirst(t, "eE");
      var mantissa := t[..e];
      var exponent := if e < |t| then ExponentValue(t[e + 1..]) else Some(0);
      var d := FindFirst(mantissa, ".");
      var whole := mantissa[..d];
      var fraction := if d < |mantissa| then mantissa[d + 1..] else [];
      if exponent.Some? && AllDigits(whole, 10) && AllDigits(fraction, 10) && |whole| + |fraction| > 0 then
        var m := DigitsValue(whole, 10) as real + DigitsValue(fraction, 10) as real / Pow10(|fraction|);
        Fin(Scale(m, exponent.value))
      else NaN
  }

  function Negate(n: Num): Num {
    match n
    case NaN => NaN
    case PosInf => NegInf
    case NegInf => PosInf
    case Fin(v) => Fin(-v)
  }

  /** NonDecimalIntegerLiteral: `0b`, `0o` or `0x` followed by digits of that radix. */
  function NonDecimal(t: string): Num
    requires |t| >= 2
  {
    var radix := if t[1] in "bB" then 2 else if t[1] in "oO" then 8 else 16;
    var ds := t[2..];
    if ds != [] && AllDigits(ds, radix) then Fin(DigitsValue(ds, radix) as real) else NaN
  }

  /** `Number(s)`: white space around the literal is ignored, blank text is 0. */
  function StringToNumber(s: string): (r: Num)
    ensures AllSpace(s) ==> r == Fin(0.0)
  {
    var t := Trim(s);
    if t == [] then Fin(0.0)
    else if |t| >= 2 && t[0] == '0' && t[1] in "bBoOxX" then NonDecimal(t)
    else
      var n := UnsignedDecimal(if t[0] == '+' || t[0] == '-' then t[1..] else t);
      if t[0] == '-' then Negate(n) else n
  }

  /** White space around a literal never changes what `Number` reads. */
  lemma StringToNumberIgnoresPadding(pre: string, s: string, post: string)
    requires AllSpace(pre) && AllSpace(post)
    ensures StringToNumber(pre + s + post) == StringToNumber(s)
  {
    TrimIgnoresPadding(pre, s, post);
  }
}
