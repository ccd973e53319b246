/**
 * JavaScript's `parseFloat`, `parseInt(s, 10)` and the decimal rendering of
 * an integer in a template string, over exact (unbounded) numbers.
 */
module JsNumbers {
  import opened Wrappers
  import opened Text

  /** A JavaScript number as the parsers can produce it (no rounding). */
  datatype JsNumber = Finite(value: real) | PosInfinity | NegInfinity | NaN

  function Pow10(n: nat): (r: real)
    ensures r >= 1.0
  {
    if n == 0 then 1.0 else 10.0 * Pow10(n - 1)
  }

  /** The value of a decimal literal `intDigits.fracDigits`. */
  function DecimalValue(intDigits: string, fracDigits: string): real
    requires AllDigits(intDigits) && AllDigits(fracDigits)
  {
    DigitsValue(intDigits) as real + DigitsValue(fracDigits) as real / Pow10(|fracDigits|)
  }

  function Negate(x: JsNumber): JsNumber {
    match x
    case Finite(v) => Finite(-v)
    case PosInfinity => NegInfinity
    case NegInfinity => PosInfinity
    case NaN => NaN
  }

  /** `v` scaled by the optional exponent part `e[+-]digits` that starts at `b`. */
  function ApplyExponent(v: real, t: string, b: nat): real {
    if b < |t| && (t[b] == 'e' || t[b] == 'E') then
      var neg := b + 1 < |t| && t[b + 1] == '-';
      var c := if b + 1 < |t| && (t[b + 1] == '-' || t[b + 1] == '+') then b + 2 else b + 1;
      var d := DigitRunEnd(t, c);
      if c < d then
        var e := DigitsValue(t[c..d]);
        if neg then v / Pow10(e) else v * Pow10(e)
      else v
    else v
  }

  /** The longest prefix of `t` that is an unsigned decimal literal or `Infinity`. */
  function ParseUnsigned(t: string): JsNumber {
    if |t| >= 8 && t[..8] == "Infinity" then PosInfinity
    else
      var a := DigitRunEnd(t, 0);
      var hasDot := a < |t| && t[a] == '.';
      var b := if hasDot then DigitRunEnd(t, a + 1) else a;
      var frac := if hasDot then t[a + 1..b] else "";
      if a == 0 && frac == "" then NaN
      else Finite(ApplyExponent(DecimalValue(t[..a], frac), t, b))
  }

  /**
   * `parseFloat(s)`: leading white space is skipped, an optional sign read,
   * then the longest decimal-literal prefix is converted; NaN when there is none.
   */
  function ParseFloat(s: string): JsNumber {
    var t := TrimStart(s);
    if |t| > 0 && t[0] == '-' then Negate(ParseUnsigned(t[1..]))
    else if |t| > 0 && t[0] == '+' then ParseUnsigned(t[1..])
    else ParseUnsigned(t)
  }

  /** `parseInt(s, 10)`: None stands for NaN. */
  function ParseInt(s: string): Option<int> {
    var t := TrimStart(s);
    var neg := |t| > 0 && t[0] == '-';
    var u := if |t| > 0 && (t[0] == '-' || t[0] == '+') then t[1..] else t;
    var a := DigitRunEnd(u, 0);
    var v: int := DigitsValue(u[..a]);
    if a == 0 then None else if neg then Some(-v) else Some(v)
  }

  /** Decimal rendering of a natural number, as `String(n)` gives it. */
  function NatToString(n: nat): (s: string)
    ensures |s| >= 1 && AllDigits(s)
    ensures DigitsValue(s) == n
    ensures s[0] != '0' || n == 0
  {
    var d := ['0' + (n % 10) as char];
    assert DigitValue(d[0]) == n % 10;
    if n < 10 then d
    else
      var s := NatToString(n / 10) + d;
      assert s[..|s| - 1] == NatToString(n / 10);
      s
  }

  /** Decimal rendering of an integer, with a leading '-' when negative. */
  function IntToString(n: int): string {
    if n < 0 then "-" + NatToString(-n) else NatToString(n)
  }

  /** A rendered natural number has one digit below ten and two from ten to ninety-nine. */
  lemma NatToStringLength(n: nat)
    ensures n < 10 <==> |NatToString(n)| == 1
    ensures 10 <= n < 100 ==> |NatToString(n)| == 2
  {
    if n >= 10 {
      assert NatToString(n) == NatToString(n / 10) + ['0' + (n % 10) as char];
    }
  }

  /** `parseInt` reads back what `String` rendered. */
  lemma ParseIntNatToString(n: nat)
    ensures ParseInt(NatToString(n)) == Some(n)
  {
    ParseIntDigits(NatToString(n));
  }

  /** `parseInt` of a non-empty run of digits is its value. */
  lemma ParseIntDigits(s: string)
    requires |s| > 0 && AllDigits(s)
    ensures ParseInt(s) == Some(DigitsValue(s))
  {
    assert !IsSpace(s[0]);
    assert TrimStart(s) == s;
    assert s[0] != '-' && s[0] != '+';
    var a := DigitRunEnd(s, 0);
    assert a == |s|;
    assert s[..a] == s;
  }

  /** `parseInt` of a minus sign and a non-empty run of digits is the negated value. */
  lemma ParseIntNegatedDigits(s: string)
    requires |s| > 1 && s[0] == '-' && AllDigits(s[1..])
    ensures ParseInt(s) == Some(0 - DigitsValue(s[1..]) as int)
  {
    assert !IsSpace(s[0]);
    assert TrimStart(s) == s;
    var u := s[1..];
    DigitRunEndOf(u, 0, |u|);
    assert u[..|u|] == u;
  }

  /** `parseInt` reads back an integer rendered with its sign. */
  lemma ParseIntIntToString(n: int)
    ensures ParseInt(IntToString(n)) == Some(n)
  {
    if n < 0 {
      var s := IntToString(n);
      assert s[1..] == NatToString(-n);
      ParseIntNegatedDigits(s);
    } else {
      ParseIntNatToString(n);
    }
  }

  /** `parseFloat` of a string that starts with a digit reads its unsigned literal. */
  lemma ParseFloatOfDigitStart(u: string)
    requires |u| > 0 && IsDigit(u[0])
    ensures ParseFloat(u) == ParseUnsigned(u)
    ensures !(|u| >= 8 && u[..8] == "Infinity")
  {
    assert !IsSpace(u[0]);
    assert TrimStart(u) == u;
    if |u| >= 8 { assert u[..8][0] == u[0]; }
  }

  /**
   * `parseFloat` of a digit-led string without an exponent, whose digits end
   * at `a` and whose literal ends the string.
   */
  lemma {:induction false} ParseUnsignedPlain(t: string, a: nat, frac: string)
    requires 0 < a == DigitRunEnd(t, 0) && AllDigits(frac)
    requires (a == |t| && frac == "") || (a < |t| && t[a] == '.' && DigitRunEnd(t, a + 1) == |t| && frac == t[a + 1..])
    ensures ParseFloat(t) == Finite(DecimalValue(t[..a], frac))
  {
    ParseFloatOfDigitStart(t);
    if a < |t| {
      assert t[a + 1..|t|] == frac;
    }
  }

  /** `parseFloat` of `digits.digits` is the value of that decimal literal. */
  lemma {:induction false} DecimalLiteralParse(d: string, f: string)
    requires |d| > 0 && AllDigits(d) && AllDigits(f)
    ensures ParseFloat(d + "." + f) == Finite(DecimalValue(d, f))
  {
    var u := d + "." + f;
    assert DigitRunEnd(u, 0) == |d| by {
      assert forall k :: 0 <= k < |d| ==> u[k] == d[k];
      assert u[|d|] == '.';
      DigitRunEndOf(u, 0, |d|);
    }
    assert DigitRunEnd(u, |d| + 1) == |u| by {
      assert forall k :: |d| + 1 <= k < |u| ==> u[k] == f[k - |d| - 1];
      DigitRunEndOf(u, |d| + 1, |u|);
    }
    assert u[..|d|] == d;
    assert u[|d| + 1..] == f;
    ParseUnsignedPlain(u, |d|, f);
  }

  /** `parseFloat` of a plain run of digits is its value. */
  lemma {:induction false} DigitsOnlyParse(d: string)
    requires |d| > 0 && AllDigits(d)
    ensures ParseFloat(d) == Finite(DigitsValue(d) as real)
  {
    DigitRunEndOf(d, 0, |d|);
    assert d[..|d|] == d;
    ParseUnsignedPlain(d, |d|, "");
    WholeDecimalValue(d);
  }

  /** A decimal literal is never negative. */
  lemma DecimalValueNonNegative(d: string, f: string)
    requires AllDigits(d) && AllDigits(f)
    ensures DecimalValue(d, f) >= 0.0
  {
    var y := DigitsValue(f) as real;
    var z := Pow10(|f|);
    assert y / z >= 0.0;
  }

  /** A literal without fraction digits is worth its integer digits. */
  lemma WholeDecimalValue(d: string)
    requires AllDigits(d)
    ensures DecimalValue(d, "") == DigitsValue(d) as real
  {
    assert DigitsValue("") == 0;
  }
}
