/**
 * The Star Script syntax tree shared by the hand parser, the callee
 * normaliser, the evaluator and the transpiler (the `{type: ...}` objects of
 * src/lib/star-parser/index.ts and src/lib/star-ast-transform.ts).
 */
module StarAst {
  import opened Wrappers
  import opened Strings

  /** A non-negative or negative decimal `mant / 10^scale`: the numbers the hand parser reads from `\d+(\.\d+)?`. */
  datatype Decimal = Decimal(mant: int, scale: nat)

  function Pow10(k: nat): (r: nat)
    ensures r >= 1
  {
    if k == 0 then 1 else 10 * Pow10(k - 1)
  }

  function DecimalValue(d: Decimal): real
  {
    d.mant as real / Pow10(d.scale) as real
  }

  lemma TimesTenDistributes(v: nat, p: nat, f: nat, last: nat)
    ensures 10 * (v * p + f) + last == v * (10 * p) + (10 * f + last)
  {
    assert 10 * (v * p) == v * (10 * p);
  }

  /** Appending digits shifts the value of the leading ones by a power of ten. */
  lemma {:induction false} DigitsValueAppend(a: string, b: string)
    requires forall i :: 0 <= i < |a| ==> IsDigit(a[i])
    requires forall i :: 0 <= i < |b| ==> IsDigit(b[i])
    ensures DigitsValue(a + b) == DigitsValue(a) * Pow10(|b|) + DigitsValue(b)
    decreases |b|
  {
    if b == [] {
      assert a + b == a;
    } else {
      var front, ab := b[..|b| - 1], a + b;
      assert ab[..|ab| - 1] == a + front;
      assert ab[|ab| - 1] == b[|b| - 1];
      DigitsValueAppend(a, front);
      TimesTenDistributes(DigitsValue(a), Pow10(|front|), DigitsValue(front), DigitValue(b[|b| - 1]));
    }
  }

  /**
   * Syntax tree nodes. `Binary` and `Unary` keep both spellings of the
   * operator field (`op` and `operator`) because the producers disagree on
   * which one they fill and the consumers disagree on which one they read.
   */
  datatype Expr =
    | Number(value: Decimal)
    | String(text: string)
    | Identifier(name: string)
    | Array(items: seq<Expr>)
    | Index(target: Expr, index: Expr)
    | Call(callee: string, args: seq<Expr>)
    | Binary(op: Option<string>, operator: Option<string>, left: Expr, right: Expr)
    | Unary(op: Option<string>, operator: Option<string>, operand: Expr)
    | Unknown(raw: string)

  datatype Assignment = Assignment(id: string, expr: Expr)

  /** `{indicators, assignments}`; bare calls are assignments with id `_call`. */
  datatype Program = Program(indicators: seq<string>, assignments: seq<Assignment>)

  const CallId := "_call"

  /** Number of nodes the evaluator visits: one per node, children included. */
  function Size(e: Expr): (n: nat)
    ensures n >= 1
    decreases e, 1
  {
    match e
    case Array(items) => 1 + SizeList(items)
    case Index(t, i) => 1 + Size(t) + Size(i)
    case Call(_, args) => 1 + SizeList(args)
    case Binary(_, _, l, r) => 1 + Size(l) + Size(r)
    case Unary(_, _, x) => 1 + Size(x)
    case _ => 1
  }

  function SizeList(es: seq<Expr>): nat
    decreases es, 0
  {
    if es == [] then 0 else Size(es[0]) + SizeList(es[1..])
  }

  /** No `Binary` or `Unary` node anywhere in the tree. */
  predicate NoOperators(e: Expr)
    decreases e, 1
  {
    match e
    case Array(items) => NoOperatorsList(items)
    case Index(t, i) => NoOperators(t) && NoOperators(i)
    case Call(_, args) => NoOperatorsList(args)
    case Binary(_, _, _, _) => false
    case Unary(_, _, _) => false
    case _ => true
  }

  predicate NoOperatorsList(es: seq<Expr>)
    decreases es, 0
  {
    forall i :: 0 <= i < |es| ==> NoOperators(es[i])
  }

  /** The digits of a decimal without its sign. */
  function Magnitude(d: Decimal): nat
  {
    if d.mant < 0 then -d.mant else d.mant
  }

  lemma {:induction false} Pow10Add(a: nat, b: nat)
    ensures Pow10(a + b) == Pow10(a) * Pow10(b)
    decreases a
  {
    if a > 0 {
      Pow10Add(a - 1, b);
      assert Pow10(a + b) == 10 * Pow10(a - 1 + b);
    }
  }

  lemma {:induction false} Pow10Below(a: nat, b: nat)
    requires a < b
    ensures Pow10(a) < Pow10(b)
    decreases b
  {
    if a < b - 1 {
      Pow10Below(a, b - 1);
    }
  }

  /** A number between two consecutive powers of ten reaches exactly the powers up to the lower one. */
  lemma Bracketed(m: nat, j: nat, t: nat)
    requires Pow10(j) <= m < Pow10(j + 1)
    ensures m >= Pow10(t) <==> t <= j
  {
    if t <= j {
      if t < j { Pow10Below(t, j); }
    } else {
      if t > j + 1 { Pow10Below(j + 1, t); }
    }
  }

  /** A positive whole number as its significant digits, with no trailing zero, times a power of ten. */
  function StripZeros(m: nat): (r: (nat, nat))
    requires m >= 1
    ensures r.0 >= 1 && r.0 % 10 != 0 && m == r.0 * Pow10(r.1)
    decreases m
  {
    if m % 10 == 0 then
      var r := StripZeros(m / 10);
      assert m == 10 * (r.0 * Pow10(r.1));
      assert 10 * (r.0 * Pow10(r.1)) == r.0 * Pow10(r.1 + 1);
      (r.0, r.1 + 1)
    else (m, 0)
  }

  /** A power of ten is the digit 1 followed by k zeros. */
  lemma {:induction false} StripZerosPow10(k: nat)
    ensures StripZeros(Pow10(k)) == (1, k)
  {
    if k > 0 {
      StripZerosPow10(k - 1);
      assert Pow10(k) % 10 == 0 && Pow10(k) / 10 == Pow10(k - 1);
    }
  }

  function Zeros(n: nat): (r: string)
    ensures |r| == n && forall i :: 0 <= i < n ==> r[i] == '0'
  {
    if n == 0 then "" else Zeros(n - 1) + "0"
  }

  /** `String(n)` has k digits exactly when n lies in [10^(k-1), 10^k). */
  lemma {:induction false} NatToStringLength(n: nat)
    requires n >= 1
    ensures Pow10(|NatToString(n)| - 1) <= n < Pow10(|NatToString(n)|)
  {
    if n >= 10 {
      NatToStringLength(n / 10);
    }
  }

  lemma MulBounds(lo: nat, x: nat, hi: nat, p: nat)
    requires lo <= x < hi && p >= 1
    ensures lo * p <= x * p < hi * p
  {
  }

  /** Ten times a whole number writes one more digit, a zero. */
  lemma TimesTenText(b: nat)
    requires b >= 1
    ensures NatToString(b * 10) == NatToString(b) + "0"
  {
    var c := b * 10;
    assert c >= 10 && c / 10 == b && c % 10 == 0;
  }

  lemma ProductShift(a: nat, z: nat)
    requires z > 0
    ensures a * Pow10(z) == (a * Pow10(z - 1)) * 10
  {
    var p := Pow10(z - 1);
    assert Pow10(z) == 10 * p;
    assert a * (10 * p) == (a * p) * 10;
  }

  /** Appending z zeros to the digits multiplies by 10^z. */
  lemma {:induction false} NatToStringShift(a: nat, z: nat)
    requires a >= 1
    ensures NatToString(a * Pow10(z)) == NatToString(a) + Zeros(z)
    decreases z
  {
    if z > 0 {
      var b := a * Pow10(z - 1);
      NatToStringShift(a, z - 1);
      MulBounds(1, a, a + 1, Pow10(z - 1));
      TimesTenText(b);
      ProductShift(a, z);
      assert Zeros(z) == Zeros(z - 1) + "0";
    }
  }

  /** A number with k digits, shifted by z places, has k + z digits. */
  lemma ScaledBracket(sig: nat, k: nat, z: nat)
    requires k >= 1 && Pow10(k - 1) <= sig < Pow10(k)
    ensures Pow10(k - 1 + z) <= sig * Pow10(z) < Pow10(k + z)
  {
    Pow10Add(k - 1, z);
    Pow10Add(k, z);
    MulBounds(Pow10(k - 1), sig, Pow10(k), Pow10(z));
  }

  /**
   * `Number::toString` (section 6.1.6.1.20 of ECMA-262) for a number written
   * as the k digits `s`, the last of them non-zero, and the point position n,
   * so that the number is s × 10^(n − k): plain digits when −6 < n ≤ 21, the
   * exponent form `d.ddde±x` otherwise.
   */
  function DigitsText(s: string, n: int): (r: string)
    requires |s| >= 1 && forall i :: 0 <= i < |s| ==> IsDigit(s[i])
    ensures 'e' in r <==> n <= -6 || 21 < n
    ensures '\n' !in r
    ensures |s| <= n <= 21 ==> r == s + Zeros(n - |s|)
  {
    var k := |s|;
    if -6 < n <= 21 then
      var r := if k <= n then s + Zeros(n - k)
        else if 0 < n then s[..n] + "." + s[n..]
        else "0." + Zeros(-n) + s;
      assert forall i :: 0 <= i < |r| ==> IsDigit(r[i]) || r[i] == '.';
      r
    else
      var e := n - 1;
      var exp := (if e >= 0 then "+" else "-") + NatToString(if e >= 0 then e else -e);
      var r := (if k == 1 then s else s[..1] + "." + s[1..]) + "e" + exp;
      assert r[|r| - |exp| - 1] == 'e';
      assert forall i :: 0 <= i < |r| ==> IsDigit(r[i]) || r[i] in ".e+-";
      r
  }

  lemma Pow10TwentyOne()
    ensures Pow10(21) == 1_000_000_000_000_000_000_000
  {
    assert Pow10(3) == 1000;
    Pow10Add(3, 3);
    Pow10Add(6, 6);
    Pow10Add(12, 6);
    Pow10Add(18, 3);
  }

  /** The text of the positive number m / 10^scale. */
  function MagnitudeText(m: nat, scale: nat): (r: string)
    requires m >= 1
    ensures '\n' !in r
  {
    var z := StripZeros(m);
    DigitsText(NatToString(z.0), |NatToString(z.0)| + z.1 - scale)
  }

  /** Where the point falls decides the notation; a whole number below 1e21 is its digits. */
  lemma MagnitudeTextForm(m: nat, scale: nat)
    requires m >= 1
    ensures 'e' in MagnitudeText(m, scale) <==> m >= Pow10(21 + scale) || m * Pow10(6) < Pow10(scale)
    ensures scale == 0 && m < Pow10(21) ==> MagnitudeText(m, scale) == NatToString(m)
  {
    var z := StripZeros(m);
    var s := NatToString(z.0);
    NumberTextExponent(m, z.0, z.1, |s|, scale);
    NatToStringShift(z.0, z.1);
  }

  /**
   * JavaScript's `String(value)` for a decimal (ECMA-262 `Number::toString`):
   * its significant digits in plain notation for 0 and for magnitudes from
   * 1e-6 up to 1e21, and in exponent notation (`1e-7`, `1.5e+21`) beyond.
   * A whole number below 1e21 prints as its decimal digits.
   */
  function NumberText(d: Decimal): (r: string)
    ensures d.mant == 0 ==> r == "0"
    ensures '\n' !in r
  {
    if d.mant == 0 then "0"
    else
      var t := MagnitudeText(Magnitude(d), d.scale);
      if d.mant < 0 then
        assert ("-" + t)[1..] == t;
        "-" + t
      else t
  }

  /** A whole number below 1e21 prints as its decimal digits, with a sign when negative. */
  lemma NumberTextWhole(d: Decimal)
    requires d.scale == 0 && Magnitude(d) < 1_000_000_000_000_000_000_000
    ensures NumberText(d) == IntToString(d.mant)
  {
    Pow10TwentyOne();
    if d.mant != 0 {
      MagnitudeTextForm(Magnitude(d), d.scale);
    }
  }

  /** `String(1e21)` is `1e+21`, the first whole number printed in exponent notation. */
  lemma NumberTextTenToTwentyOne()
    ensures NumberText(Decimal(1_000_000_000_000_000_000_000, 0)) == "1e+21"
  {
    var m: nat := 1_000_000_000_000_000_000_000;
    Pow10TwentyOne();
    StripZerosPow10(21);
    assert NatToString(1) == "1";
    assert MagnitudeText(m, 0) == DigitsText("1", 22);
    assert NatToString(21) == "21";
    assert DigitsText("1", 22) == "1" + "e" + "+21" == "1e+21";
  }

  /** Exponent notation exactly for non-zero magnitudes below 1e-6 or from 1e21 on. */
  lemma NumberTextNotation(d: Decimal)
    ensures 'e' in NumberText(d) <==>
      d.mant != 0 && (Magnitude(d) >= Pow10(21 + d.scale) || Magnitude(d) * Pow10(6) < Pow10(d.scale))
  {
    if d.mant != 0 {
      MagnitudeTextForm(Magnitude(d), d.scale);
    }
    if d.mant < 0 {
      var t := MagnitudeText(Magnitude(d), d.scale);
      assert NumberText(d) == "-" + t && ("-" + t)[1..] == t;
    }
  }

  /** Where the point of m = sig × 10^z falls decides the notation. */
  lemma NumberTextExponent(m: nat, sig: nat, z: nat, k: nat, scale: nat)
    requires sig >= 1 && m == sig * Pow10(z) && k == |NatToString(sig)|
    ensures var n := k + z - scale;
      (n <= -6 || 21 < n) <==> (m >= Pow10(21 + scale) || m * Pow10(6) < Pow10(scale))
    ensures scale == 0 && m < Pow10(21) ==> k <= k + z <= 21
  {
    NatToStringLength(sig);
    var j := k - 1 + z;
    ScaledBracket(sig, k, z);
    assert Pow10(j) <= m < Pow10(j + 1);
    Bracketed(m, j, 21 + scale);
    ScaledBracket(m, j + 1, 6);
    assert Pow10(j + 6) <= m * Pow10(6) < Pow10(j + 7);
    Bracketed(m * Pow10(6), j + 6, scale);
  }
}
