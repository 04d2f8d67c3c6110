/**
 * Properties of `Number(s)` as StarValues models it: it reads back the
 * integers `String(n)` writes, a leading sign negates or keeps a decimal
 * numeral, an exponent scales the mantissa by a power of ten, and the
 * non-decimal literals take no sign.
 */
module StarValuesProps {
  import opened Wrappers
  import opened Strings
  import opened StarAst
  import opened StarValues
  import StarParser

  /** Text that starts like a decimal numeral: a digit or a point, and no radix prefix. */
  predicate DecimalLed(t: string)
  {
    |t| >= 1 && (IsDigit(t[0]) || t[0] == '.') && !IsRadixLiteral(t)
  }

  /** A mantissa is made of digits and one point at most. */
  lemma MantissaChars(m: string)
    requires StarParser.IsMantissa(m)
    ensures forall i :: 0 <= i < |m| ==> IsDigit(m[i]) || m[i] == '.'
  {
  }

  /** Trimmed text led by a digit or a point is read as an unsigned decimal. */
  lemma UnsignedBranch(t: string)
    requires DecimalLed(t)
    ensures NumberOfTrimmed(t) == UnsignedDecimal(t)
  {
    StarParser.DecimalTokenIsMantissa(t);
  }

  /** Shifting right `k` times divides by `10^k`. */
  lemma {:induction false} ScaleDown(x: real, k: nat)
    ensures Scale(x, -(k as int)) == x / Pow10(k) as real
  {
    if k > 0 {
      ScaleDown(x, k - 1);
      assert Pow10(k) as real == 10.0 * Pow10(k - 1) as real;
    }
  }

  /** The value `Number(s)` gives a mantissa is the decimal the parser builds from it. */
  lemma MantissaIsDecimal(m: string)
    requires StarParser.IsMantissa(m)
    ensures MantissaValue(m) == DecimalValue(StarParser.DecimalOf(m))
  {
    if '.' in m {
      var k := IndexOf(m, '.');
      ScaleDown(DigitsValue(m[..k] + m[k + 1..]) as real, |m| - k - 1);
    }
  }

  /** On the numerals the line parser accepts, `Number(s)` and `parseNumber` agree. */
  lemma NumberAgreesWithParser(s: string)
    ensures StarParser.IsDecimalToken(Trim(s)) ==> NumberOfString(s) == Some(DecimalValue(StarParser.DecimalOf(Trim(s))))
  {
    StarParser.DecimalTokenIsMantissa(Trim(s));
    if StarParser.IsDecimalToken(Trim(s)) {
      MantissaIsDecimal(Trim(s));
    }
  }

  /** A sign in front of trimmed text is read by the signed branches. */
  lemma SignedBranch(c: char, t: string)
    requires c == '-' || c == '+'
    requires |t| >= 1 && !IsWs(t[|t| - 1])
    ensures NumberOfString([c] + t) == if c == '-' then Negated(UnsignedDecimal(t)) else UnsignedDecimal(t)
  {
    var u := [c] + t;
    TrimOfTrimmed(u);
    if StarParser.IsDecimalToken(u) {
      DecimalTokenShape(u);
    }
    assert u[1..] == t;
  }

  /** A leading `-` negates a decimal numeral, and a leading `+` keeps it. */
  lemma SignedDecimal(t: string)
    requires DecimalLed(t) && !IsWs(t[|t| - 1])
    ensures NumberOfString("-" + t) == Negated(NumberOfString(t))
    ensures NumberOfString("+" + t) == NumberOfString(t)
  {
    TrimOfTrimmed(t);
    UnsignedBranch(t);
    SignedBranch('-', t);
    SignedBranch('+', t);
  }

  /** A radix prefix is no mantissa: the letter after `0` ends every decimal reading. */
  lemma RadixNotUnsigned(t: string)
    requires IsRadixLiteral(t)
    ensures UnsignedDecimal(t) == None
  {
    var k := MantissaLen(t);
    assert t[0] != 'e' && t[0] != 'E' && t[1] != 'e' && t[1] != 'E';
    var m := t[..k];
    assert m[1] == t[1] && !IsDigit(m[1]) && m[1] != '.';
    if '.' in m {
      assert IndexOf(m, '.') >= 2;
    }
  }

  /** A radix literal takes no sign: `-0x10` and `+0x10` are NaN although `0x10` is 16. */
  lemma SignedRadixIsNaN(t: string)
    requires IsRadixLiteral(t) && !IsWs(t[|t| - 1])
    ensures NumberOfString("-" + t) == None
    ensures NumberOfString("+" + t) == None
  {
    SignedBranch('-', t);
    SignedBranch('+', t);
    RadixNotUnsigned(t);
  }

  /** `Number(String(n))` is `n` for every natural number. */
  lemma NumberOfNatText(n: nat)
    ensures NumberOfString(NatToString(n)) == Some(n as real)
  {
    var t := NatToString(n);
    TrimOfTrimmed(t);
    assert StarParser.AllDigits(t);
    assert forall i :: 0 <= i < |t| ==> t[i] != '.';
    DigitsValueOfNatToString(n);
  }

  /** The text `String(n)` writes starts like a decimal numeral. */
  lemma NatTextLed(n: nat)
    ensures DecimalLed(NatToString(n)) && !IsWs(NatToString(n)[|NatToString(n)| - 1])
  {
    var t := NatToString(n);
    assert IsDigit(t[0]) && IsDigit(t[|t| - 1]);
    if |t| >= 2 {
      assert IsDigit(t[1]);
    }
  }

  /** Where the first `e` of `m + "e" + x` is, when the mantissa `m` has none. */
  lemma MantissaEndsAtE(m: string, x: string)
    requires StarParser.IsMantissa(m)
    ensures MantissaLen(m + "e" + x) == |m|
    ensures (m + "e" + x)[..|m|] == m && (m + "e" + x)[|m| + 1..] == x
  {
    var t := m + "e" + x;
    MantissaChars(m);
    assert t[|m|] == 'e';
    assert forall i :: 0 <= i < |m| ==> t[i] == m[i];
    assert t[..|m|] == m;
    assert t[|m| + 1..] == x;
  }

  /** Trimmed text led by a digit or a point is read by `UnsignedDecimal` alone. */
  lemma ReadAsUnsigned(t: string)
    requires DecimalLed(t) && !IsWs(t[|t| - 1])
    ensures NumberOfString(t) == UnsignedDecimal(t)
  {
    TrimOfTrimmed(t);
    UnsignedBranch(t);
  }

  /** A mantissa followed by `e` starts like a decimal numeral. */
  lemma ExponentFormLed(m: string, x: string)
    requires StarParser.IsMantissa(m)
    ensures DecimalLed(m + "e" + x)
  {
    var t := m + "e" + x;
    MantissaChars(m);
    assert m[0] == t[0];
    if |m| >= 2 {
      assert t[1] == m[1];
    } else {
      assert t[1] == 'e';
    }
  }

  /** `UnsignedDecimal` of a mantissa, `e` and an exponent part. */
  lemma UnsignedWithExponent(m: string, x: string)
    requires StarParser.IsMantissa(m)
    ensures UnsignedDecimal(m + "e" + x)
         == match ExponentOf(x) case Some(e) => Some(Scale(MantissaValue(m), e)) case None => None
  {
    MantissaEndsAtE(m, x);
  }

  /** The exponent part: digits, with an optional sign before them. */
  lemma SignedExponent(sign: string, d: string)
    requires StarParser.AllDigits(d)
    requires sign == "" || sign == "+" || sign == "-"
    ensures ExponentOf(sign + d) == Some(if sign == "-" then -(DigitsValue(d) as int) else DigitsValue(d))
  {
    if sign != "" {
      assert (sign + d)[1..] == d;
    } else {
      assert sign + d == d;
    }
  }

  /** An exponent `e`, `e+` or `e-` followed by digits scales the mantissa by that power of ten. */
  lemma ExponentScales(m: string, sign: string, d: string)
    requires StarParser.IsMantissa(m) && StarParser.AllDigits(d)
    requires sign == "" || sign == "+" || sign == "-"
    ensures NumberOfString(m + "e" + sign + d)
         == Some(Scale(MantissaValue(m), if sign == "-" then -(DigitsValue(d) as int) else DigitsValue(d)))
  {
    var x := sign + d;
    var t := m + "e" + x;
    assert t == m + "e" + sign + d;
    ExponentFormLed(m, x);
    assert t[|t| - 1] == d[|d| - 1];
    ReadAsUnsigned(t);
    UnsignedWithExponent(m, x);
    SignedExponent(sign, d);
  }

  lemma LeadingPointShape(d: string)
    requires StarParser.AllDigits(d)
    ensures StarParser.IsMantissa("." + d) && IndexOf("." + d, '.') == 0
  {
    var a := "." + d;
    assert forall i :: 0 < i < |a| ==> a[i] == d[i - 1];
  }

  lemma LeadingPoint(d: string)
    requires StarParser.AllDigits(d)
    ensures StarParser.IsMantissa("." + d) && DecimalLed("." + d) && !IsWs(("." + d)[|d|])
    ensures MantissaValue("." + d) == Scale(DigitsValue(d) as real, -|d|)
  {
    var a := "." + d;
    LeadingPointShape(d);
    assert a[..0] + a[1..] == d;
    assert a[|d|] == d[|d| - 1];
  }

  lemma TrailingPoint(d: string)
    requires StarParser.AllDigits(d)
    ensures StarParser.IsMantissa(d + ".") && DecimalLed(d + ".") && !IsWs((d + ".")[|d|])
    ensures MantissaValue(d + ".") == DigitsValue(d) as real
  {
    var b := d + ".";
    assert forall i :: 0 <= i < |d| ==> b[i] == d[i];
    assert IndexOf(b, '.') == |d| by {
      assert '.' !in d;
    }
    assert b[..|d|] + b[|d| + 1..] == d;
    if |d| >= 2 {
      assert IsDigit(b[1]);
    }
  }

  /** `.5` and `12.` are numerals too: the point may have digits on one side only. */
  lemma PointOnOneSide(d: string)
    requires StarParser.AllDigits(d)
    ensures NumberOfString("." + d) == Some(Scale(DigitsValue(d) as real, -|d|))
    ensures NumberOfString(d + ".") == Some(DigitsValue(d) as real)
  {
    LeadingPoint(d);
    TrailingPoint(d);
    ReadAsUnsigned("." + d);
    ReadAsUnsigned(d + ".");
  }
}
