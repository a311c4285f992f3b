/**
 * The part of JavaScript's number handling the tracker depends on, over exact
 * decimals (`real`) instead of IEEE doubles: `parseFloat` on decimal text and
 * `Number.prototype.toString` of an amount with at most two decimals.
 */
module JsNumber {
  import opened Text
  import opened Options

  /** The value of a digit string read after a decimal point (`"25"` is 0.25). */
  function Fraction(ds: string): (r: real)
    requires AllDigits(ds)
    ensures 0.0 <= r < 1.0
  {
    if ds == [] then 0.0 else (DigitValue(ds[0]) as real + Fraction(ds[1..])) / 10.0
  }

  /** The digits before and after the decimal point of a decimal prefix. */
  datatype Decimal = Decimal(whole: string, fraction: string)

  predicate WellFormed(d: Decimal)
  {
    AllDigits(d.whole) && AllDigits(d.fraction) && |d.whole| + |d.fraction| >= 1
  }

  /** The exact value of a decimal. */
  function Value(d: Decimal): real
    requires WellFormed(d)
  {
    DigitsValue(d.whole) as real + Fraction(d.fraction)
  }

  /**
   * Longest prefix of `t` of the form `digits [ "." digits ]` or
   * `"." digits`; `None` when `t` has no such prefix.
   */
  function DecimalPrefix(t: string): (r: Option<Decimal>)
    ensures r.Some? ==> WellFormed(r.value)
  {
    var n := DigitRun(t, 0);
    if n < |t| && t[n] == '.' then
      var m := DigitRun(t, n + 1);
      if n + m == 0 then None else Some(Decimal(t[..n], t[n + 1..n + 1 + m]))
    else if n == 0 then None
    else Some(Decimal(t[..n], ""))
  }

  /** The unsigned part of `parseFloat`; NaN is `None`. */
  function ParseUnsigned(t: string): Option<real>
  {
    match DecimalPrefix(t)
    case None => None
    case Some(d) => Some(Value(d))
  }

  /**
   * `parseFloat(s)`: leading white space is skipped, an optional sign is read,
   * then the longest decimal prefix; anything after it is ignored. `None`
   * stands for NaN.
   */
  function ParseFloat(s: string): (r: Option<real>)
    ensures TrimStart(s) == [] ==> r == None
  {
    var t := TrimStart(s);
    if t != [] && (t[0] == '+' || t[0] == '-') then
      match ParseUnsigned(t[1..])
      case None => None
      case Some(v) => Some(if t[0] == '-' then -v else v)
    else ParseUnsigned(t)
  }

  /** Text that starts with a digit is read by `parseFloat` as an unsigned decimal. */
  lemma ParseFloatOfDigitStart(t: string)
    requires t != [] && IsDigit(t[0])
    ensures ParseFloat(t) == ParseUnsigned(t)
  {
    assert !IsSpace(t[0]);
    assert TrimStart(t) == t;
  }

  /** Once the two digit runs around the point are known, `DecimalPrefix` reads them. */
  lemma DecimalPrefixRuns(t: string, a: string, b: string)
    requires |t| == |a| + 1 + |b| && t[|a|] == '.' && 1 <= |a|
    requires DigitRun(t, 0) == |a| && DigitRun(t, |a| + 1) == |b|
    requires t[..|a|] == a && t[|a| + 1..|a| + 1 + |b|] == b
    ensures DecimalPrefix(t) == Some(Decimal(a, b))
  {
  }

  /** The text `a "." b` splits into its two digit runs around the point. */
  lemma DecimalRuns(a: string, b: string, t: string)
    requires 1 <= |a| && AllDigits(a) && AllDigits(b) && t == a + "." + b
    ensures |t| == |a| + 1 + |b| && t[|a|] == '.'
    ensures DigitRun(t, 0) == |a| && DigitRun(t, |a| + 1) == |b|
    ensures t[..|a|] == a && t[|a| + 1..|a| + 1 + |b|] == b
  {
    assert t[..|a|] == a;
    assert t[|a| + 1..|a| + 1 + |b|] == b;
    assert t[|a|] == '.';
    assert forall k :: 0 <= k < |a| ==> IsDigit(t[k]) by {
      forall k | 0 <= k < |a| ensures IsDigit(t[k]) {
        assert t[k] == a[k];
      }
    }
    DigitRunExact(t, 0, |a|);
    assert forall k :: |a| + 1 <= k < |a| + 1 + |b| ==> IsDigit(t[k]) by {
      forall k | |a| + 1 <= k < |a| + 1 + |b| ensures IsDigit(t[k]) {
        assert t[k] == b[k - |a| - 1];
      }
    }
    DigitRunExact(t, |a| + 1, |b|);
  }

  /** `digits "." digits` is read as the exact decimal value of the text. */
  lemma {:induction false} ParseUnsignedDecimal(a: string, b: string, t: string)
    requires 1 <= |a| && AllDigits(a) && AllDigits(b) && t == a + "." + b
    ensures ParseUnsigned(t) == Some(DigitsValue(a) as real + Fraction(b))
  {
    DecimalRuns(a, b, t);
    DecimalPrefixRuns(t, a, b);
  }

  /** `parseFloat` of `digits "." digits` is the exact decimal value of the text. */
  lemma {:induction false} ParseFloatDecimal(a: string, b: string, t: string, v: real)
    requires 1 <= |a| && AllDigits(a) && AllDigits(b) && t == a + "." + b
    requires v == DigitsValue(a) as real + Fraction(b)
    ensures ParseFloat(t) == Some(v)
  {
    ParseUnsignedDecimal(a, b, t);
    assert t[0] == a[0];
    ParseFloatOfDigitStart(t);
  }

  /** `parseFloat` of a natural's decimal rendering gives the natural back. */
  lemma ParseFloatNat(n: nat)
    ensures ParseFloat(NatToString(n)) == Some(n as real)
  {
    var t := NatToString(n);
    NatToStringDigits(n);
    ParseFloatOfDigitStart(t);
    DigitRunExact(t, 0, |t|);
    assert t[..|t|] == t;
    assert DecimalPrefix(t) == Some(Decimal(t, ""));
    NatToStringRoundTrip(n);
  }

  /** `-v` for a number, NaN for NaN. */
  function Negated(r: Option<real>): Option<real>
  {
    match r
    case None => None
    case Some(v) => Some(-v)
  }

  lemma MinusSign(t: string, u: string)
    requires u == "-" + t
    ensures ParseFloat(u) == Negated(ParseUnsigned(t))
  {
    assert u[0] == '-' && u[1..] == t;
    assert TrimStart(u) == u;
  }

  /** A leading minus sign negates the value of an unsigned decimal. */
  lemma ParseFloatNegated(t: string, u: string)
    requires t != [] && IsDigit(t[0]) && u == "-" + t
    ensures ParseFloat(u) == Negated(ParseFloat(t))
  {
    MinusSign(t, u);
    ParseFloatOfDigitStart(t);
  }

  /**
   * `(c / 100).toString()` for an amount of `c` cents: no decimals for a
   * whole amount, otherwise the shortest of one or two decimals.
   */
  function CentsToString(c: nat): string
  {
    var whole := c / 100;
    var frac := c % 100;
    if frac == 0 then NatToString(whole)
    else if frac % 10 == 0 then NatToString(whole) + "." + [DigitChar(frac / 10)]
    else NatToString(whole) + "." + Pad2(frac)
  }

  lemma FractionOneDigit(d: nat)
    requires d < 10
    ensures Fraction([DigitChar(d)]) == d as real / 10.0
  {
    var b := [DigitChar(d)];
    assert b[1..] == [];
  }

  /** Two digits after the point are hundredths. */
  lemma FractionTwoDigits(b: string)
    requires |b| == 2 && AllDigits(b)
    ensures Fraction(b) == DigitsValue(b) as real / 100.0
  {
    assert b[1..][1..] == [];
    assert b[..1] == [b[0]] && b[..1][..0] == [];
    assert DigitsValue(b) == DigitValue(b[0]) * 10 + DigitValue(b[1]);
  }

  lemma FractionPad2(n: nat)
    requires n < 100
    ensures Fraction(Pad2(n)) == n as real / 100.0
  {
    Pad2Digits(n);
    FractionTwoDigits(Pad2(n));
  }

  lemma CentsSplit(c: nat)
    ensures c as real / 100.0 == (c / 100) as real + (c % 100) as real / 100.0
  {
    assert c == (c / 100) * 100 + c % 100;
    assert c as real == (c / 100) as real * 100.0 + (c % 100) as real;
  }

  /** The digits of `w` and one digit `d` after the point stand for `w + d / 10`. */
  lemma OneDecimalValue(w: nat, d: nat)
    requires d < 10
    ensures var a, b := NatToString(w), [DigitChar(d)];
      1 <= |a| && AllDigits(a) && AllDigits(b) && DigitsValue(a) as real + Fraction(b) == w as real + d as real / 10.0
  {
    var b := [DigitChar(d)];
    NatToStringDigits(w);
    NatToStringRoundTrip(w);
    assert b[..0] == [];
    assert DigitsValue(b) == d;
    FractionOneDigit(d);
  }

  lemma {:induction false} OneDecimal(w: nat, d: nat, t: string)
    requires d < 10 && t == NatToString(w) + "." + [DigitChar(d)]
    ensures ParseFloat(t) == Some(w as real + d as real / 10.0)
  {
    OneDecimalValue(w, d);
    ParseFloatDecimal(NatToString(w), [DigitChar(d)], t, w as real + d as real / 10.0);
  }

  lemma TensOfCents(c: nat)
    requires c % 100 % 10 == 0
    ensures c as real / 100.0 == (c / 100) as real + (c % 100 / 10) as real / 10.0
  {
    var w, f := c / 100, c % 100;
    var d := f / 10;
    assert f == d * 10;
    assert c == w * 100 + d * 10;
    assert c as real == w as real * 100.0 + d as real * 10.0;
  }

  lemma {:induction false} CentsWhole(c: nat)
    requires c % 100 == 0
    ensures ParseFloat(CentsToString(c)) == Some(c as real / 100.0)
  {
    var s := CentsToString(c);
    assert s == NatToString(c / 100);
    ParseFloatNat(c / 100);
    CentsSplit(c);
  }

  lemma {:induction false} CentsOneDecimal(c: nat)
    requires c % 100 != 0 && c % 100 % 10 == 0
    ensures ParseFloat(CentsToString(c)) == Some(c as real / 100.0)
  {
    var w, f := c / 100, c % 100;
    var s := CentsToString(c);
    assert s == NatToString(w) + "." + [DigitChar(f / 10)];
    TensOfCents(c);
    OneDecimal(w, f / 10, s);
  }

  /** The digits of `c / 100` and the two digits of `c % 100` after the point stand for `c / 100`. */
  lemma TwoDecimalsValue(c: nat)
    ensures var a, b := NatToString(c / 100), Pad2(c % 100);
      1 <= |a| && AllDigits(a) && AllDigits(b) && DigitsValue(a) as real + Fraction(b) == c as real / 100.0
  {
    NatToStringDigits(c / 100);
    NatToStringRoundTrip(c / 100);
    CentsSplit(c);
    FractionPad2(c % 100);
    Pad2Digits(c % 100);
  }

  lemma {:induction false} CentsTwoDecimals(c: nat)
    requires c % 100 % 10 != 0
    ensures ParseFloat(CentsToString(c)) == Some(c as real / 100.0)
  {
    var s := CentsToString(c);
    assert s == NatToString(c / 100) + "." + Pad2(c % 100);
    TwoDecimalsValue(c);
    ParseFloatDecimal(NatToString(c / 100), Pad2(c % 100), s, c as real / 100.0);
  }

  /** Reading `CentsToString(c)` back with `parseFloat` gives exactly `c / 100`. */
  lemma {:induction false} CentsToStringRoundTrip(c: nat)
    ensures ParseFloat(CentsToString(c)) == Some(c as real / 100.0)
  {
    if c % 100 == 0 {
      CentsWhole(c);
    } else if c % 100 % 10 == 0 {
      CentsOneDecimal(c);
    } else {
      CentsTwoDecimals(c);
    }
  }
}
