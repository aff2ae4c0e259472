/**
 * `Number(s)` for a string (StringToNumber and the StringNumericLiteral grammar,
 * section 7.1.4.1 of ECMA-262), followed by ToIntegerOrInfinity, which is what
 * `Date.prototype.setHours` applies to each argument before it builds a time:
 * the value truncated toward zero, or `None` when `Number` gives NaN or an
 * infinity (both make the date invalid). Arithmetic is exact: the rounding of
 * a literal to binary64 is not modelled.
 */
module JsNumber {
  import opened Wrappers
  import opened Strings

  /** The radix that a `0x`, `0o` or `0b` prefix names, if `c` is one of those letters. */
  function RadixOf(c: char): Option<nat> {
    if c == 'x' || c == 'X' then Some(16)
    else if c == 'o' || c == 'O' then Some(8)
    else if c == 'b' || c == 'B' then Some(2)
    else None
  }

  /** The value of a hexadecimal digit, if `c` is one. */
  function HexDigit(c: char): Option<nat> {
    if '0' <= c <= '9' then Some(c as int - '0' as int)
    else if 'a' <= c <= 'f' then Some(c as int - 'a' as int + 10)
    else if 'A' <= c <= 'F' then Some(c as int - 'A' as int + 10)
    else None
  }

  predicate RadixDigits(s: string, radix: nat) {
    forall i :: 0 <= i < |s| ==> HexDigit(s[i]).Some? && HexDigit(s[i]).value < radix
  }

  /** The value of a digit string in the given radix. */
  function RadixValue(s: string, radix: nat): nat
    requires RadixDigits(s, radix)
  {
    if s == [] then 0 else RadixValue(s[..|s| - 1], radix) * radix + HexDigit(s[|s| - 1]).value
  }

  /** The first `e` or `E` of `s`, where the exponent of a decimal literal starts. */
  function ExponentMark(s: string): (r: Option<nat>)
    ensures r.None? <==> forall i :: 0 <= i < |s| ==> s[i] != 'e' && s[i] != 'E'
    ensures r.Some? ==> r.value < |s| && (s[r.value] == 'e' || s[r.value] == 'E')
  {
    if s == [] then None
    else if s[0] == 'e' || s[0] == 'E' then Some(0)
    else match ExponentMark(s[1..])
      case None => None
      case Some(i) => Some(i + 1)
  }

  /**
   * DecimalDigits with an optional `.` and fraction (`9`, `9.`, `9.5`, `.5`): all
   * its digits, and how many of them stand before the point.
   */
  function Mantissa(m: string): (r: Option<(string, nat)>)
    ensures r.Some? ==> AllDigits(r.value.0) && r.value.1 <= |r.value.0|
  {
    match IndexOf(m, '.')
    case None => if |m| >= 1 && AllDigits(m) then Some((m, |m|)) else None
    case Some(i) =>
      var whole, fraction := m[..i], m[i + 1..];
      if |m| >= 2 && AllDigits(whole) && AllDigits(fraction) then
        assert forall k :: 0 <= k < |whole + fraction| ==>
          (whole + fraction)[k] == if k < |whole| then whole[k] else fraction[k - |whole|];
        Some((whole + fraction, |whole|))
      else None
  }

  /** The SignedInteger after the exponent mark. */
  function Exponent(x: string): Option<int> {
    if |x| >= 1 && (x[0] == '+' || x[0] == '-') then
      var d := x[1..];
      if |d| >= 1 && AllDigits(d) then Some(if x[0] == '-' then -(DigitsValue(d) as int) else DigitsValue(d)) else None
    else if |x| >= 1 && AllDigits(x) then Some(DigitsValue(x))
    else None
  }

  /**
   * The digits with the decimal point after the first `point` of them, truncated
   * toward zero: the digits before the point, with zeros appended when the point
   * lies past the end.
   */
  function Shift(digits: string, point: int): nat
    requires AllDigits(digits)
  {
    if point <= 0 then 0
    else if point <= |digits| then DigitsValue(digits[..point])
    else DigitsValue(digits) * Pow10(point - |digits|)
  }

  /**
   * A StrUnsignedDecimalLiteral, truncated. `Infinity` does not parse here, which
   * gives the same `None` as the infinity it denotes.
   */
  function UnsignedDecimal(u: string): (r: Option<int>)
    ensures r.Some? ==> r.value >= 0
  {
    var k := ExponentMark(u);
    var mantissa := if k.Some? then u[..k.value] else u;
    var exponent := if k.Some? then Exponent(u[k.value + 1..]) else Some(0);
    match (Mantissa(mantissa), exponent)
    case (Some((digits, point)), Some(e)) => Some(Shift(digits, point + e) as int)
    case _ => None
  }

  function Negate(r: Option<int>): (n: Option<int>)
    ensures n.Some? <==> r.Some?
    ensures n.Some? ==> n.value == -r.value
  {
    if r.Some? then Some(-r.value) else None
  }

  /**
   * `ToIntegerOrInfinity(Number(s))`, `None` where `Number(s)` is NaN or infinite:
   * surrounding whitespace is ignored, only whitespace reads as 0, a sign may
   * precede a decimal literal but not a `0x`/`0o`/`0b` one.
   */
  function NumberTrunc(s: string): Option<int> {
    Literal(Trim(s))
  }

  /** A trimmed StringNumericLiteral, read as `NumberTrunc` reads it. */
  function Literal(t: string): Option<int> {
    if t == [] then Some(0)
    else if |t| >= 2 && t[0] == '0' && RadixOf(t[1]).Some? then
      var radix, digits := RadixOf(t[1]).value, t[2..];
      if |digits| >= 1 && RadixDigits(digits, radix) then Some(RadixValue(digits, radix)) else None
    else if t[0] == '-' then Negate(UnsignedDecimal(t[1..]))
    else if t[0] == '+' then UnsignedDecimal(t[1..])
    else UnsignedDecimal(t)
  }

  // ---------------------------------------------------------------- what Number reads

  /** A literal with no whitespace at either end is read as it stands. */
  lemma TrimmedNumber(s: string)
    requires Trimmed(s)
    ensures NumberTrunc(s) == Literal(s)
  {
    TrimOfTrimmed(s);
  }

  /** A trimmed literal without a sign or radix prefix is a decimal literal. */
  lemma PlainNumber(s: string)
    requires s != [] && Trimmed(s) && s[0] != '-' && s[0] != '+'
    requires !(|s| >= 2 && s[0] == '0' && RadixOf(s[1]).Some?)
    ensures NumberTrunc(s) == UnsignedDecimal(s)
  {
    TrimmedNumber(s);
  }

  /** A sign in front of a trimmed literal applies to the decimal literal after it. */
  lemma SignedNumber(sign: char, u: string)
    requires sign == '-' || sign == '+'
    requires u == [] || !IsWhitespace(u[|u| - 1])
    ensures NumberTrunc([sign] + u) == if sign == '-' then Negate(UnsignedDecimal(u)) else UnsignedDecimal(u)
  {
    var s := [sign] + u;
    assert s[0] == sign && s[|s| - 1] == if u == [] then sign else u[|u| - 1];
    TrimmedNumber(s);
    assert s[1..] == u;
  }

  /** A digit string has no point and no exponent mark. */
  lemma DigitsHaveNoMarks(s: string)
    requires AllDigits(s)
    ensures IndexOf(s, '.').None? && ExponentMark(s).None?
  {
  }

  /** A plain digit string is a decimal literal with its point at the end. */
  lemma DecimalOfDigits(s: string)
    requires |s| >= 1 && AllDigits(s)
    ensures UnsignedDecimal(s) == Some(DigitsValue(s) as int)
  {
    DigitsHaveNoMarks(s);
    assert s[..|s|] == s;
  }

  /** A plain digit string is read as its decimal value, leading zeros and all. */
  lemma NumberOfDigits(s: string)
    requires |s| >= 1 && AllDigits(s)
    ensures NumberTrunc(s) == Some(DigitsValue(s) as int)
  {
    PlainNumber(s);
    DecimalOfDigits(s);
  }

  /** Any digit string, the empty one included, reads as its value: `Number('')` is 0. */
  lemma NumberOfDigitString(s: string)
    requires AllDigits(s)
    ensures NumberTrunc(s) == Some(DigitsValue(s) as int)
  {
    if s != [] {
      NumberOfDigits(s);
    }
  }

  /** Whitespace around the literal changes nothing. */
  lemma NumberIgnoresPadding(s: string)
    ensures NumberTrunc(Trim(s)) == NumberTrunc(s)
  {
    TrimIdempotent(s);
  }

  /** Leading whitespace drops away in front of something that is not whitespace. */
  lemma {:induction false} TrimStartAfterWhitespace(w: string, u: string)
    requires forall i :: 0 <= i < |w| ==> IsWhitespace(w[i])
    requires |u| >= 1 && !IsWhitespace(u[0])
    ensures TrimStart(w + u) == u
    decreases |w|
  {
    if w == [] {
      assert w + u == u;
    } else {
      assert (w + u)[0] == w[0] && (w + u)[1..] == w[1..] + u;
      TrimStartAfterWhitespace(w[1..], u);
    }
  }

  /** `Number` reads past leading whitespace: `Number(' 9')` is 9. */
  lemma NumberAfterWhitespace(w: string, u: string)
    requires forall i :: 0 <= i < |w| ==> IsWhitespace(w[i])
    requires |u| >= 1 && !IsWhitespace(u[0]) && !IsWhitespace(u[|u| - 1])
    ensures NumberTrunc(w + u) == NumberTrunc(u)
  {
    TrimStartAfterWhitespace(w, u);
    assert Trim(w + u) == TrimEnd(u) == u;
    NumberIgnoresPadding(w + u);
  }

  /** Digits after leading whitespace read as their value: `Number(' 9')` is 9. */
  lemma PaddedDigits(w: string, u: string)
    requires forall i :: 0 <= i < |w| ==> IsWhitespace(w[i])
    requires |u| >= 1 && AllDigits(u)
    ensures NumberTrunc(w + u) == Some(DigitsValue(u) as int)
  {
    assert IsDigit(u[0]) && IsDigit(u[|u| - 1]);
    NumberAfterWhitespace(w, u);
    NumberOfDigits(u);
  }

  /** `-` negates what `+` reads: a sign applies to the whole decimal literal. */
  lemma LeadingSign(u: string)
    requires u == [] || !IsWhitespace(u[|u| - 1])
    ensures NumberTrunc("-" + u).Some? <==> NumberTrunc("+" + u).Some?
    ensures NumberTrunc("-" + u).Some? ==> NumberTrunc("-" + u).value == -NumberTrunc("+" + u).value
  {
    SignedNumber('-', u);
    SignedNumber('+', u);
  }

  /** A digit string after `+` reads as its value. */
  lemma PlusDigits(s: string)
    requires |s| >= 2 && s[0] == '+' && AllDigits(s[1..])
    ensures NumberTrunc(s) == Some(DigitsValue(s[1..]) as int)
  {
    assert NumberTrunc(s) == Literal(s) by {
      assert IsDigit(s[|s| - 1]) by { assert s[|s| - 1] == s[1..][|s| - 2]; }
      TrimmedNumber(s);
    }
    assert Literal(s) == UnsignedDecimal(s[1..]) by { SignedLiteral(s); }
    DecimalOfDigits(s[1..]);
  }

  /** A digit string after `-` reads as its value negated: `Number('-1')` is -1. */
  lemma MinusDigits(s: string)
    requires |s| >= 2 && s[0] == '-' && AllDigits(s[1..])
    ensures NumberTrunc(s) == Some(-(DigitsValue(s[1..]) as int))
  {
    var d := DigitsValue(s[1..]) as int;
    assert NumberTrunc(s) == Literal(s) by {
      assert IsDigit(s[|s| - 1]) by { assert s[|s| - 1] == s[1..][|s| - 2]; }
      TrimmedNumber(s);
    }
    assert Literal(s) == Negate(UnsignedDecimal(s[1..])) by { SignedLiteral(s); }
    assert UnsignedDecimal(s[1..]) == Some(d) by { DecimalOfDigits(s[1..]); }
  }

  /** A sign applies to the decimal literal after it. */
  lemma SignedLiteral(t: string)
    requires |t| >= 1 && (t[0] == '-' || t[0] == '+')
    ensures Literal(t) == if t[0] == '-' then Negate(UnsignedDecimal(t[1..])) else UnsignedDecimal(t[1..])
  {
  }

  /** A `-` before an unpadded literal negates it. */
  lemma MinusNumber(u: string)
    requires u == [] || !IsWhitespace(u[|u| - 1])
    ensures NumberTrunc("-" + u) == Negate(UnsignedDecimal(u))
  {
    SignedNumber('-', u);
  }

  /** The decimal literal `a.b` truncates to `a`. */
  lemma DecimalOfFraction(a: string, b: string)
    requires |a| >= 1 && AllDigits(a) && AllDigits(b)
    ensures UnsignedDecimal(a + "." + b) == Some(DigitsValue(a) as int)
  {
    FractionHasNoMark(a, b);
    FractionMantissa(a, b);
    ShiftAtEnd(a, b);
    DecimalWithoutExponent(a + "." + b);
  }

  lemma FractionHasNoMark(a: string, b: string)
    requires AllDigits(a) && AllDigits(b)
    ensures ExponentMark(a + "." + b).None?
  {
    var s := a + "." + b;
    assert forall i :: 0 <= i < |s| ==> s[i] != 'e' && s[i] != 'E';
  }

  lemma FractionMantissa(a: string, b: string)
    requires |a| >= 1 && AllDigits(a) && AllDigits(b)
    ensures Mantissa(a + "." + b) == Some((a + b, |a|))
  {
    var s := a + "." + b;
    assert s == a + ['.'] + b;
    DigitsHaveNoMarks(a);
    IndexOfFirst(a, '.', b);
    assert s[..|a|] == a && s[|a| + 1..] == b;
  }

  /** Placing the point after the first digits keeps exactly those digits. */
  lemma ShiftAtEnd(a: string, b: string)
    requires AllDigits(a) && AllDigits(b)
    ensures AllDigits(a + b) && Shift(a + b, |a|) == DigitsValue(a)
  {
    assert (a + b)[..|a|] == a;
  }

  /** A decimal literal without an exponent is its mantissa, truncated. */
  lemma DecimalWithoutExponent(u: string)
    requires ExponentMark(u).None? && Mantissa(u).Some?
    ensures UnsignedDecimal(u) == Some(Shift(Mantissa(u).value.0, Mantissa(u).value.1) as int)
  {
  }

  /** A decimal literal with an exponent is its mantissa shifted by the exponent, truncated. */
  lemma DecimalWithExponent(u: string, i: nat)
    requires ExponentMark(u) == Some(i)
    requires Mantissa(u[..i]).Some? && Exponent(u[i + 1..]).Some?
    ensures UnsignedDecimal(u) ==
      Some(Shift(Mantissa(u[..i]).value.0, Mantissa(u[..i]).value.1 + Exponent(u[i + 1..]).value) as int)
  {
  }

  /** A fraction is cut off: `9.5` reads as 9. */
  lemma FractionTruncated(a: string, b: string)
    requires |a| >= 1 && AllDigits(a) && AllDigits(b)
    ensures NumberTrunc(a + "." + b) == Some(DigitsValue(a) as int)
  {
    FractionIsPlain(a, b);
    PlainNumber(a + "." + b);
    DecimalOfFraction(a, b);
  }

  /** `a.b` has no sign, no radix prefix and no surrounding whitespace. */
  lemma FractionIsPlain(a: string, b: string)
    requires |a| >= 1 && AllDigits(a) && AllDigits(b)
    ensures var s := a + "." + b;
      && s != [] && Trimmed(s) && s[0] != '-' && s[0] != '+'
      && !(|s| >= 2 && s[0] == '0' && RadixOf(s[1]).Some?)
  {
    var s := a + "." + b;
    assert s[0] == a[0] && s[|s| - 1] == (if b == [] then '.' else b[|b| - 1]);
    assert |s| >= 2 ==> s[1] == (if |a| >= 2 then a[1] else '.');
  }

  /** The decimal literal `aeK` is `a` times `10^K`. */
  lemma DecimalOfExponent(a: string, k: nat)
    requires |a| >= 1 && AllDigits(a)
    ensures UnsignedDecimal(a + "e" + NatToString(k)) == Some(DigitsValue(a) * Pow10(k))
  {
    var s := a + "e" + NatToString(k);
    ExponentAfterDigits(a, k);
    ExponentOfDigits(k);
    MantissaOfDigits(a);
    DecimalWithExponent(s, |a|);
    AroundExponentMark(a, NatToString(k));
    ShiftPastEnd(a, k);
  }

  /** Placing the point `k` digits past the end appends `k` zeros. */
  lemma ShiftPastEnd(a: string, k: nat)
    requires AllDigits(a)
    ensures Shift(a, |a| + k) == DigitsValue(a) * Pow10(k)
  {
    if k == 0 {
      assert a[..|a|] == a;
    }
  }

  /** The mantissa and the exponent on either side of `e`. */
  lemma AroundExponentMark(a: string, n: string)
    ensures (a + "e" + n)[..|a|] == a && (a + "e" + n)[|a| + 1..] == n
  {
  }

  lemma ExponentAfterDigits(a: string, k: nat)
    requires AllDigits(a)
    ensures ExponentMark(a + "e" + NatToString(k)) == Some(|a|)
  {
    var s := a + "e" + NatToString(k);
    assert s[..|a|] == a && s[|a|] == 'e';
    DigitsHaveNoMarks(a);
    ExponentMarkAfter(a, s);
  }

  /** The digits of a natural number form an exponent with that value. */
  lemma ExponentOfDigits(k: nat)
    ensures Exponent(NatToString(k)) == Some(k as int)
  {
    var n := NatToString(k);
    DigitsOfNat(k);
    assert n[0] != '+' && n[0] != '-';
  }

  /** A non-empty digit string is a mantissa with its point at the end. */
  lemma MantissaOfDigits(a: string)
    requires |a| >= 1 && AllDigits(a)
    ensures Mantissa(a) == Some((a, |a|))
  {
    DigitsHaveNoMarks(a);
  }

  /** An exponent scales by a power of ten: `1e1` reads as 10. */
  lemma ExponentScales(a: string, k: nat)
    requires |a| >= 1 && AllDigits(a)
    ensures NumberTrunc(a + "e" + NatToString(k)) == Some(DigitsValue(a) * Pow10(k))
  {
    ExponentIsPlain(a, k);
    PlainNumber(a + "e" + NatToString(k));
    DecimalOfExponent(a, k);
  }

  /** `aeK` has no sign, no radix prefix and no surrounding whitespace. */
  lemma ExponentIsPlain(a: string, k: nat)
    requires |a| >= 1 && AllDigits(a)
    ensures var s := a + "e" + NatToString(k);
      && s != [] && Trimmed(s) && s[0] != '-' && s[0] != '+'
      && !(|s| >= 2 && s[0] == '0' && RadixOf(s[1]).Some?)
  {
    var n := NatToString(k);
    var s := a + "e" + n;
    assert s[0] == a[0] && s[|s| - 1] == n[|n| - 1];
    assert |s| >= 2 ==> s[1] == (if |a| >= 2 then a[1] else 'e');
  }

  /** The exponent mark of `s` is the first `e` or `E`, found after a prefix without one. */
  lemma {:induction false} ExponentMarkAfter(a: string, s: string)
    requires |a| < |s| && s[..|a|] == a && (s[|a|] == 'e' || s[|a|] == 'E')
    requires forall i :: 0 <= i < |a| ==> a[i] != 'e' && a[i] != 'E'
    ensures ExponentMark(s) == Some(|a|)
    decreases |a|
  {
    if a != [] {
      assert s[0] == a[0];
      assert s[1..][..|a| - 1] == a[1..];
      ExponentMarkAfter(a[1..], s[1..]);
    }
  }

  // ---------------------------------------------------------------- radix literals

  /** A `0x` literal reads as its hexadecimal value: `Number('0x1A')` is 26. */
  lemma HexLiteral(s: string)
    requires |s| >= 3 && s[0] == '0' && s[1] == 'x' && RadixDigits(s[2..], 16)
    ensures NumberTrunc(s) == Some(RadixValue(s[2..], 16))
  {
    assert NumberTrunc(s) == Literal(s) by {
      assert HexDigit(s[|s| - 1]).Some? by { assert s[|s| - 1] == s[2..][|s| - 3]; }
      TrimmedNumber(s);
    }
  }

  /** A character that is neither a digit nor a point rules out a mantissa. */
  lemma MantissaRejects(m: string, j: nat)
    requires j < |m| && !IsDigit(m[j]) && m[j] != '.'
    ensures Mantissa(m).None?
  {
    match IndexOf(m, '.')
    case None =>
    case Some(i) =>
      if j < i {
        assert m[..i][j] == m[j];
      } else {
        assert m[i + 1..][j - i - 1] == m[j];
      }
  }

  /** A decimal literal cannot start with `0x`. */
  lemma NoDecimalAfterPrefix(u: string)
    requires |u| >= 2 && u[1] == 'x'
    ensures UnsignedDecimal(u).None?
  {
    var k := ExponentMark(u);
    if k.Some? {
      assert k.value != 1;
      if k.value >= 2 {
        MantissaRejects(u[..k.value], 1);
      } else {
        assert k.value == 0;
      }
    } else {
      MantissaRejects(u, 1);
    }
  }

  /** A sign before a radix literal makes it NaN: `Number('-0x10')` is NaN. */
  lemma SignedHexLiteral(sign: char, d: string)
    requires sign == '-' || sign == '+'
    requires |d| >= 1 && RadixDigits(d, 16)
    ensures NumberTrunc([sign] + "0x" + d) == None
  {
    var u := "0x" + d;
    assert HexDigit(d[|d| - 1]).Some?;
    assert u[|u| - 1] == d[|d| - 1] && u[1] == 'x';
    assert [sign] + "0x" + d == [sign] + u;
    SignedNumber(sign, u);
    NoDecimalAfterPrefix(u);
  }
}
