/** `parseInt(s)` and `parseFloat(s)` on decimal input. `None` stands for
    `NaN`. Both skip leading white space, take an optional sign and then the
    longest run of characters that forms a number, ignoring whatever follows
    it; hexadecimal prefixes and `Infinity` are not modelled. */
module Numbers {
  import opened Common
  import opened Text

  /** The longest prefix of `s` made of decimal digits. */
  function LeadingDigits(s: string): (r: string)
    ensures IsPrefix(r, s)
    ensures AllDigits(r)
    ensures |r| < |s| ==> !IsDigit(s[|r|])
    ensures r == [] <==> s == [] || !IsDigit(s[0])
  {
    if s != [] && IsDigit(s[0]) then
      var rest := LeadingDigits(s[1..]);
      assert s == [s[0]] + s[1..];
      [s[0]] + rest
    else []
  }

  lemma {:induction false} LeadingDigitsOfDigits(s: string)
    requires AllDigits(s)
    ensures LeadingDigits(s) == s
  {
    if s != [] {
      LeadingDigitsOfDigits(s[1..]);
    }
  }

  /** The optional sign in front of a number: whether it is negative, and
      what follows it. */
  function SplitSign(t: string): (bool, string) {
    if t != [] && (t[0] == '-' || t[0] == '+') then (t[0] == '-', t[1..]) else (false, t)
  }

  /** `parseInt(s, 10)`. */
  function ParseInt(s: string): (r: Option<int>)
    ensures r.Some? <==> LeadingDigits(SplitSign(TrimStart(s)).1) != []
  {
    var (negative, rest) := SplitSign(TrimStart(s));
    var digits := LeadingDigits(rest);
    if digits == [] then None
    else
      var v: int := DigitsValue(digits);
      Some(if negative then -v else v)
  }

  /** The printed form of an integer, once white space and sign are
      taken off, is the numeral of its magnitude. */
  lemma SignOfNumeral(n: int)
    ensures SplitSign(TrimStart(IntToString(n))) == (n < 0, NatToString(if n < 0 then -n else n))
  {
    var s := IntToString(n);
    assert !IsSpace(s[0]);
    assert TrimStart(s) == s;
  }

  /** The printed form of every integer parses back to that integer. */
  lemma ParseIntRoundTrip(n: int)
    ensures ParseInt(IntToString(n)) == Some(n)
  {
    var m: nat := if n < 0 then -n else n;
    SignOfNumeral(n);
    LeadingDigitsOfDigits(NatToString(m));
    NatToStringRoundTrip(m);
  }

  function Pow10(k: nat): (r: nat)
    ensures r >= 1
  {
    if k == 0 then 1 else 10 * Pow10(k - 1)
  }

  /** The value of unsigned decimal text: digits, optionally a point and
      more digits, with at least one digit on either side of the point,
      then optionally an exponent. */
  function UnsignedDecimal(rest: string): (r: Option<real>)
    ensures r.Some? <==> (rest != [] && IsDigit(rest[0])) || (|rest| >= 2 && rest[0] == '.' && IsDigit(rest[1]))
    ensures r.Some? ==> r.value >= 0.0
  {
    var whole := LeadingDigits(rest);
    AfterWhole(whole, rest[|whole|..])
  }

  /** The number once its whole-number digits `whole` are read and `after`
      remains: an optional point with the fraction's digits, then an
      optional exponent. */
  function AfterWhole(whole: string, after: string): (r: Option<real>)
    requires AllDigits(whole)
    ensures r.Some? <==> whole != [] || (|after| >= 2 && after[0] == '.' && IsDigit(after[1]))
    ensures r.Some? ==> r.value >= 0.0
  {
    var hasPoint := after != [] && after[0] == '.';
    var fraction := if hasPoint then LeadingDigits(after[1..]) else [];
    var tail := if hasPoint then after[1 + |fraction|..] else after;
    if whole == [] && fraction == [] then None
    else Some(Scaled(DigitsValue(whole) as real + FractionValue(fraction), Exponent(tail)))
  }

  /** The value of the digits after a decimal point. */
  function FractionValue(fraction: string): (r: real)
    requires AllDigits(fraction)
    ensures fraction == [] ==> r == 0.0
    ensures r >= 0.0
  {
    DigitsValue(fraction) as real / Pow10(|fraction|) as real
  }

  /** The exponent at the front of `t`: `e` or `E`, an optional sign and
      at least one digit. Anything else is not part of the number and
      counts as no exponent. */
  function Exponent(t: string): int {
    if t != [] && (t[0] == 'e' || t[0] == 'E') then
      var (negative, rest) := SplitSign(t[1..]);
      var digits := LeadingDigits(rest);
      var magnitude: int := DigitsValue(digits);
      if negative then -magnitude else magnitude
    else 0
  }

  /** `v` times ten to the power `e`. */
  function Scaled(v: real, e: int): (r: real)
    ensures v >= 0.0 ==> r >= 0.0
    ensures e == 0 ==> r == v
  {
    if e >= 0 then v * Pow10(e) as real else v / Pow10(-e) as real
  }

  /** `parseFloat(s)`: `Infinity` is not modelled. */
  function ParseFloat(s: string): (r: Option<real>)
    ensures var rest := SplitSign(TrimStart(s)).1;
      r.Some? <==> (rest != [] && IsDigit(rest[0])) || (|rest| >= 2 && rest[0] == '.' && IsDigit(rest[1]))
    ensures r.Some? && SplitSign(TrimStart(s)).0 ==> r.value <= 0.0
    ensures r.Some? && !SplitSign(TrimStart(s)).0 ==> r.value >= 0.0
  {
    var (negative, rest) := SplitSign(TrimStart(s));
    match UnsignedDecimal(rest)
    case None => None
    case Some(v) => Some(if negative then -v else v)
  }

  lemma UnsignedDecimalOfDigits(digits: string)
    requires AllDigits(digits) && digits != []
    ensures UnsignedDecimal(digits) == Some(DigitsValue(digits) as real)
  {
    LeadingDigitsOfDigits(digits);
    assert digits[|digits|..] == [];
  }

  /** An integer written out parses to the same number as a float. */
  lemma ParseFloatOfInteger(n: int)
    ensures ParseFloat(IntToString(n)) == Some(n as real)
  {
    var m: nat := if n < 0 then -n else n;
    SignOfNumeral(n);
    UnsignedDecimalOfDigits(NatToString(m));
    NatToStringRoundTrip(m);
  }
  /** The digit run of `d + t` is `d` when `t` does not start with a digit. */
  lemma {:induction false} LeadingDigitsStop(d: string, t: string)
    requires AllDigits(d) && (t == [] || !IsDigit(t[0]))
    ensures LeadingDigits(d + t) == d
  {
    if d == [] {
      assert d + t == t;
    } else {
      assert (d + t)[1..] == d[1..] + t;
      LeadingDigitsStop(d[1..], t);
    }
  }

  /** Digits followed by text that is neither a digit nor a point: the
      digits, scaled by whatever exponent the text starts with. */
  lemma UnsignedWithTail(w: string, tail: string)
    requires AllDigits(w) && w != []
    requires tail == [] || (tail[0] != '.' && !IsDigit(tail[0]))
    ensures UnsignedDecimal(w + tail) == Some(Scaled(DigitsValue(w) as real, Exponent(tail)))
  {
    var s := w + tail;
    LeadingDigitsStop(w, tail);
    assert s[|w|..] == tail;
    NoPointThenTail(w, tail);
  }

  /** Text after the whole digits that does not start with a point has no
      fraction: it can only hold the exponent. */
  lemma NoPointThenTail(w: string, tail: string)
    requires AllDigits(w) && w != []
    requires tail == [] || tail[0] != '.'
    ensures AfterWhole(w, tail) == Some(Scaled(DigitsValue(w) as real, Exponent(tail)))
  {
    assert FractionValue([]) == 0.0;
  }

  /** A number with no white space or sign in front is read as it is. */
  lemma ParseFloatUnsigned(s: string)
    requires s != [] && IsDigit(s[0])
    ensures ParseFloat(s) == UnsignedDecimal(s)
  {
    assert TrimStart(s) == s;
    assert SplitSign(s) == (false, s);
  }

  lemma ParseFloatWithTail(w: string, tail: string)
    requires AllDigits(w) && w != []
    requires tail == [] || (tail[0] != '.' && !IsDigit(tail[0]))
    ensures ParseFloat(w + tail) == Some(Scaled(DigitsValue(w) as real, Exponent(tail)))
  {
    assert (w + tail)[0] == w[0];
    ParseFloatUnsigned(w + tail);
    UnsignedWithTail(w, tail);
  }

  /** Digits, a point and digits, with nothing after them. */
  lemma UnsignedWithPoint(w: string, f: string)
    requires AllDigits(w) && AllDigits(f) && w != []
    ensures UnsignedDecimal(w + ("." + f)) == Some(DigitsValue(w) as real + FractionValue(f))
  {
    var s := w + ("." + f);
    LeadingDigitsStop(w, "." + f);
    assert s[|w|..] == "." + f;
    PointThenDigits(w, f);
  }

  /** A point and the digits `f`, with nothing after them: `f` is the
      fraction and the exponent is read from nothing. */
  lemma PointThenDigitsParts(w: string, f: string)
    requires AllDigits(w) && AllDigits(f) && w != []
    ensures AfterWhole(w, "." + f) == Some(Scaled(DigitsValue(w) as real + FractionValue(f), Exponent([])))
  {
    var after := "." + f;
    assert after != [] && after[0] == '.';
    assert after[1..] == f;
    LeadingDigitsOfDigits(f);
    assert after[1 + |f|..] == [];
  }

  /** A point and the digits `f`, with nothing after them, add `f` as the
      fraction. */
  lemma PointThenDigits(w: string, f: string)
    requires AllDigits(w) && AllDigits(f) && w != []
    ensures AfterWhole(w, "." + f) == Some(DigitsValue(w) as real + FractionValue(f))
  {
    PointThenDigitsParts(w, f);
    assert Exponent([]) == 0;
  }

  /** `parseFloat` on plain decimal notation `w.f`. */
  lemma ParseFloatDecimal(w: string, f: string)
    requires AllDigits(w) && AllDigits(f) && w != []
    ensures ParseFloat(w + "." + f) == Some(DigitsValue(w) as real + FractionValue(f))
  {
    assert w + "." + f == w + ("." + f);
    assert (w + ("." + f))[0] == w[0];
    ParseFloatUnsigned(w + ("." + f));
    UnsignedWithPoint(w, f);
  }

  /** An exponent's digits, with or without a minus sign. */
  lemma ExponentSign(ds: string)
    requires AllDigits(ds) && ds != []
    ensures SplitSign(ds) == (false, ds)
    ensures SplitSign("-" + ds) == (true, ds)
  {
    assert ("-" + ds)[1..] == ds;
  }

  /** The exponent written after `e` or `e-`. */
  lemma ExponentOf(k: nat)
    ensures Exponent("e" + NatToString(k)) == k
    ensures Exponent("e-" + NatToString(k)) == -(k as int)
  {
    var ds := NatToString(k);
    LeadingDigitsOfDigits(ds);
    NatToStringRoundTrip(k);
    ExponentSign(ds);
    assert ("e" + ds)[1..] == ds;
    assert ("e-" + ds)[1..] == "-" + ds;
  }

  /** Scaling a whole number by a positive or negative power of ten. */
  lemma ScaledByPower(n: nat, k: nat)
    ensures Scaled(n as real, k) == (n * Pow10(k)) as real
    ensures Scaled(n as real, -(k as int)) == n as real / Pow10(k) as real
  {
    if k == 0 {
      assert Pow10(0) == 1;
    }
  }

  /** `parseFloat` on scientific notation `wek`. */
  lemma ParseFloatScientific(w: string, k: nat)
    requires AllDigits(w) && w != []
    ensures ParseFloat(w + "e" + NatToString(k)) == Some((DigitsValue(w) * Pow10(k)) as real)
  {
    var tail := "e" + NatToString(k);
    ExponentOf(k);
    assert tail[0] == 'e';
    assert w + "e" + NatToString(k) == w + tail;
    ParseFloatWithTail(w, tail);
    ScaledByPower(DigitsValue(w), k);
  }

  /** `parseFloat` on scientific notation `we-k`. */
  lemma ParseFloatScientificNegative(w: string, k: nat)
    requires AllDigits(w) && w != []
    ensures ParseFloat(w + "e-" + NatToString(k)) == Some(DigitsValue(w) as real / Pow10(k) as real)
  {
    var tail := "e-" + NatToString(k);
    ExponentOf(k);
    assert tail[0] == 'e';
    assert w + "e-" + NatToString(k) == w + tail;
    ParseFloatWithTail(w, tail);
    ScaledByPower(DigitsValue(w), k);
  }

  /** What the custom-price box can hold: an exponent, a fraction, an
      exponent with no digits after it, or no number at all. */
  lemma ParseFloatExponentExample(s: string)
    requires s == "1e2"
    ensures ParseFloat(s) == Some(100.0)
  {
    var one, two := "1", "2";
    assert DigitsValue(one) == 1;
    assert NatToString(2) == two;
    assert Pow10(2) == 100;
    ParseFloatScientific(one, 2);
    assert one + "e" + two == s;
  }

  lemma ParseFloatFractionExample(s: string)
    requires s == "2.5"
    ensures ParseFloat(s) == Some(2.5)
  {
    var two, five := "2", "5";
    assert DigitsValue(two) == 2;
    assert FractionValue(five) == 0.5 by {
      assert DigitsValue(five) == 5;
      assert Pow10(1) == 10;
    }
    assert two + "." + five == s;
    ParseFloatDecimal(two, five);
  }

  lemma ParseFloatNoExponentDigitsExample()
    ensures ParseFloat("7e") == Some(7.0)
  {
    var seven := "7";
    assert DigitsValue(seven) == 7;
    ParseFloatWithTail(seven, "e");
    assert seven + "e" == "7e";
  }

  lemma ParseFloatNotANumberExample()
    ensures ParseFloat("abc") == None
  {
  }

  /** A non-breaking space in front of a number is skipped like any other
      white space. */
  lemma ParseFloatSkipsNoBreakSpace()
    ensures ParseFloat("\U{A0}42") == Some(42.0)
  {
    var digits := "42";
    assert TrimStart("\U{A0}42") == digits;
    assert DigitsValue(digits) == 42;
    assert digits + "" == digits;
    ParseFloatWithTail(digits, "");
    ParseFloatUnsigned(digits);
  }
}
