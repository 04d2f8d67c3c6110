/**
 * The JavaScript values the Star runtime computes with
 * (src/lib/star-runtime/index.ts and runner.ts) and the few JavaScript
 * conversions the evaluator and the helpers rely on: truthiness, `Number(v)`,
 * `String(v)` as a property key, and property access `v[key]`.
 */
module StarValues {
  import opened Wrappers
  import opened Strings
  import opened StarAst
  import StarParser

  /** The host functions installed by `makeDefaultEnv`. */
  datatype Builtin =
    | MathAvg | ColorRgb | InputInt | Plot | RequestSecurity
    | TaSma | TaRsi | TaHighest | TaLowest | StrategyEntry | StrategyExit

  /**
   * A JavaScript value. `VNaN` is the number NaN; `VOpaque` stands for any
   * value this model does not follow further (an infinity, the text produced
   * by `+` on strings, the result of `**` with a fractional exponent).
   */
  datatype Value =
    | VUndef
    | VNull
    | VBool(b: bool)
    | VNum(n: real)
    | VNaN
    | VStr(s: string)
    | VList(items: seq<Value>)
    | VObj(fields: map<string, Value>)
    | VFun(f: Builtin)
    | VOpaque

  /** `Boolean(v)`; every value outside the model is taken as truthy, as infinities and non-empty strings are. */
  predicate Truthy(v: Value)
  {
    match v
    case VUndef => false
    case VNull => false
    case VBool(b) => b
    case VNum(n) => n != 0.0
    case VNaN => false
    case VStr(s) => s != ""
    case _ => true
  }

  /** `v == null`: the two values optional chaining and `resolvePath` stop at. */
  predicate IsNullish(v: Value)
  {
    v == VUndef || v == VNull
  }

  /** The value of a digit in base `b`, or -1 when `c` is not one. */
  function DigitIn(c: char, b: nat): int
  {
    var v :=
      if '0' <= c <= '9' then c as int - '0' as int
      else if 'a' <= c <= 'f' then c as int - 'a' as int + 10
      else if 'A' <= c <= 'F' then c as int - 'A' as int + 10
      else -1;
    if v < b then v else -1
  }

  predicate IsRadixDigits(s: string, b: nat)
  {
    |s| >= 1 && forall i :: 0 <= i < |s| ==> DigitIn(s[i], b) >= 0
  }

  /** `x * b` for the three bases, written so that the product stays linear. */
  function Shift(x: nat, b: nat): nat
  {
    if b == 16 then 16 * x else if b == 8 then 8 * x else 2 * x
  }

  /** The value of the digits `s` in base `b` (2, 8 or 16). */
  function RadixValue(s: string, b: nat): nat
    requires forall i :: 0 <= i < |s| ==> DigitIn(s[i], b) >= 0
  {
    if s == [] then 0 else Shift(RadixValue(s[..|s| - 1], b), b) + DigitIn(s[|s| - 1], b) as nat
  }

  /** The base a `0x`, `0o` or `0b` prefix announces (either case), or 0. */
  function RadixOf(c: char): nat
  {
    if c == 'x' || c == 'X' then 16
    else if c == 'o' || c == 'O' then 8
    else if c == 'b' || c == 'B' then 2
    else 0
  }

  /** `0x1F`, `0o17`, `0b101`: the unsigned non-decimal literals. */
  predicate IsRadixLiteral(t: string)
  {
    |t| >= 2 && t[0] == '0' && RadixOf(t[1]) > 0
  }

  /** The `e`/`E` exponent: an optional sign and at least one digit. */
  function ExponentOf(s: string): (r: Option<int>)
    ensures StarParser.AllDigits(s) ==> r == Some(DigitsValue(s))
  {
    if |s| >= 1 && (s[0] == '+' || s[0] == '-') then
      if StarParser.AllDigits(s[1..]) then
        var n: int := DigitsValue(s[1..]);
        Some(if s[0] == '-' then -n else n)
      else None
    else if StarParser.AllDigits(s) then Some(DigitsValue(s))
    else None
  }

  /** `x * 10^e`, one factor of ten at a time. */
  function Scale(x: real, e: int): real
    decreases if e >= 0 then e else -e
  {
    if e == 0 then x
    else if e > 0 then 10.0 * Scale(x, e - 1)
    else Scale(x, e + 1) / 10.0
  }

  /** Characters before the first `e` or `E`. */
  function MantissaLen(t: string): (k: nat)
    ensures k <= |t|
    ensures forall i :: 0 <= i < k ==> t[i] != 'e' && t[i] != 'E'
    ensures k < |t| ==> t[k] == 'e' || t[k] == 'E'
  {
    StarParser.SpanLen(t, c => c != 'e' && c != 'E')
  }

  /** The value of a mantissa: its digits without the point, shifted right once per digit after the point. */
  function MantissaValue(m: string): real
    requires StarParser.IsMantissa(m)
  {
    if '.' in m then
      var k := IndexOf(m, '.');
      Scale(DigitsValue(m[..k] + m[k + 1..]) as real, -(|m| - k - 1))
    else DigitsValue(m) as real
  }

  /**
   * An unsigned decimal numeral as `Number(s)` reads it: a mantissa
   * (`12`, `1.5`, `12.`, `.5`), then optionally `e` or `E` and a signed
   * exponent. `None` for anything else.
   */
  function UnsignedDecimal(t: string): (r: Option<real>)
    ensures StarParser.IsMantissa(t) ==> r == Some(MantissaValue(t))
  {
    var k := MantissaLen(t);
    if !StarParser.IsMantissa(t[..k]) then None
    else if k == |t| then
      assert t[..k] == t;
      Some(MantissaValue(t))
    else match ExponentOf(t[k + 1..])
      case Some(x) => Some(Scale(MantissaValue(t[..k]), x))
      case None => None
  }

  function Negated(r: Option<real>): Option<real>
  {
    match r
    case Some(x) => Some(-x)
    case None => None
  }

  /** A `\d+(\.\d+)?` token has no sign and no radix prefix. */
  lemma DecimalTokenShape(t: string)
    requires StarParser.IsDecimalToken(t)
    ensures |t| >= 1 && IsDigit(t[0]) && !IsRadixLiteral(t)
  {
    if '.' in t {
      var k := IndexOf(t, '.');
      assert t[0] == t[..k][0];
      if |t| >= 2 && k >= 2 { assert t[1] == t[..k][1]; }
    }
  }

  /** A `0x`, `0o` or `0b` literal: its digits in that base, or NaN when one is no digit of the base. */
  function RadixReading(t: string): Option<real>
    requires IsRadixLiteral(t)
  {
    var b := RadixOf(t[1]);
    if IsRadixDigits(t[2..], b) then Some(RadixValue(t[2..], b) as real) else None
  }

  /** `NumberOfString` on text already trimmed. */
  function NumberOfTrimmed(t: string): (r: Option<real>)
    ensures t == "" ==> r == Some(0.0)
    ensures StarParser.IsDecimalToken(t) ==> r == Some(MantissaValue(t))
    ensures IsRadixLiteral(t) ==> r == RadixReading(t)
  {
    if t == "" then Some(0.0)
    else if StarParser.IsDecimalToken(t) then
      DecimalTokenShape(t);
      StarParser.DecimalTokenIsMantissa(t);
      UnsignedDecimal(t)
    else if IsRadixLiteral(t) then RadixReading(t)
    else if t[0] == '+' then UnsignedDecimal(t[1..])
    else if t[0] == '-' then Negated(UnsignedDecimal(t[1..]))
    else UnsignedDecimal(t)
  }

  /**
   * `Number(s)` (StringToNumber, section 7.1.4.1.1 of ECMA-262): white space
   * around the numeral is ignored and blank text is 0; a non-decimal literal
   * `0x`/`0o`/`0b` is unsigned; a decimal one may carry a sign, a fraction and
   * an exponent. `None` is NaN; `Infinity` is not read here (see `Untracked`).
   */
  function NumberOfString(s: string): (r: Option<real>)
    ensures Trim(s) == "" ==> r == Some(0.0)
    ensures StarParser.IsDecimalToken(Trim(s)) ==> r == Some(MantissaValue(Trim(s)))
  {
    NumberOfTrimmed(Trim(s))
  }

  /** The texts `Number(s)` reads as an infinity. */
  predicate IsInfinityText(t: string)
  {
    t == "Infinity" || t == "+Infinity" || t == "-Infinity"
  }

  /** A numeral starts with a digit or a point: text led by anything else has no value. */
  lemma UnsignedNeedsDigit(t: string)
    requires |t| >= 1 && !IsDigit(t[0]) && t[0] != '.'
    ensures UnsignedDecimal(t) == None
  {
    var k := MantissaLen(t);
    if k >= 1 {
      var m := t[..k];
      assert m[0] == t[0];
      if '.' in m {
        assert IndexOf(m, '.') >= 1;
      }
    }
  }

  /** Text led by a letter, or by a sign and then a letter, is NaN. */
  lemma LetterLedIsNaN(t: string)
    requires |t| >= 2 && !IsDigit(t[0]) && t[0] != '.'
    requires t[0] == '+' || t[0] == '-' ==> !IsDigit(t[1]) && t[1] != '.'
    ensures NumberOfTrimmed(t) == None
  {
    if StarParser.IsDecimalToken(t) {
      DecimalTokenShape(t);
    }
    if t[0] == '+' || t[0] == '-' {
      UnsignedNeedsDigit(t[1..]);
    } else {
      UnsignedNeedsDigit(t);
    }
  }

  /** `Infinity` is no numeral of `UnsignedDecimal`, so `NumberOfString` gives it no value. */
  lemma InfinityNotRead(s: string)
    ensures IsInfinityText(Trim(s)) ==> NumberOfString(s) == None
  {
    var t := Trim(s);
    if IsInfinityText(t) {
      assert t[0] == 'I' || t[1] == 'I';
      LetterLedIsNaN(t);
    }
  }

  /**
   * Values whose number this model does not follow: `VOpaque`, the text of
   * an infinity, and a one-element list of either (which converts through
   * its element's text).
   */
  predicate Untracked(v: Value)
  {
    match v
    case VOpaque => true
    case VStr(s) => IsInfinityText(Trim(s))
    case VList(items) => |items| == 1 && Untracked(items[0])
    case _ => false
  }

  /**
   * `Number(v)`; `None` is NaN. A list converts through its text: the empty
   * list is 0, a one-element list converts as its element's text does, a
   * longer one has a comma in its text and is NaN.
   */
  function ToNumber(v: Value): (r: Option<real>)
    ensures v.VNum? ==> r == Some(v.n)
    ensures v.VStr? ==> r == NumberOfString(v.s)
    ensures Untracked(v) ==> r == None
    ensures v == VUndef || v == VNaN || v.VObj? || v.VFun? ==> r == None
  {
    match v
    case VUndef => None
    case VNull => Some(0.0)
    case VBool(b) => Some(if b then 1.0 else 0.0)
    case VNum(n) => Some(n)
    case VNaN => None
    case VStr(s) => InfinityNotRead(s); NumberOfString(s)
    case VList(items) =>
      if |items| == 0 then Some(0.0)
      else if |items| == 1 then
        assert Untracked(v) == Untracked(items[0]);
        match items[0]
        case VUndef => Some(0.0)
        case VNull => Some(0.0)
        case VNum(n) => Some(n)
        case VStr(s) => InfinityNotRead(s); NumberOfString(s)
        case VList(_) => ToNumber(items[0])
        case _ => None
      else None
    case _ => None
  }

  /** Whether the real is a whole number. */
  predicate IsInteger(x: real)
  {
    x.Floor as real == x
  }

  /** `String(k)` for a whole number k, digits below 1e21 in magnitude. */
  function WholeText(k: int): (r: string)
    ensures -1_000_000_000_000_000_000_000 < k < 1_000_000_000_000_000_000_000 ==> r == IntToString(k)
  {
    var d := Decimal(k, 0);
    if -1_000_000_000_000_000_000_000 < k < 1_000_000_000_000_000_000_000 then
      NumberTextWhole(d);
      NumberText(d)
    else NumberText(d)
  }

  /**
   * `String(v)` where it is needed as a property key or inside a template
   * literal; `None` for values whose text is not modelled (fractions, lists,
   * objects, functions). A whole number is printed as `Number::toString`
   * prints it: its digits below 1e21 in magnitude, exponent notation beyond.
   */
  function KeyOf(v: Value): (r: Option<string>)
    ensures v.VStr? ==> r == Some(v.s)
    ensures v.VNum? && IsInteger(v.n) && -1e21 < v.n < 1e21 ==> r == Some(IntToString(v.n.Floor))
  {
    match v
    case VStr(s) => Some(s)
    case VNum(n) => if IsInteger(n) then Some(WholeText(n.Floor)) else None
    case VBool(b) => Some(if b then "true" else "false")
    case VUndef => Some("undefined")
    case VNull => Some("null")
    case VNaN => Some("NaN")
    case _ => None
  }

  /** A whole number's key is in exponent notation exactly when its magnitude is 1e21 or more. */
  lemma KeyOfWholeNotation(n: real)
    requires IsInteger(n)
    ensures KeyOf(VNum(n)).Some?
    ensures 'e' in KeyOf(VNum(n)).value <==> n <= -1e21 || 1e21 <= n
  {
    var d := Decimal(n.Floor, 0);
    var m := Magnitude(d);
    assert KeyOf(VNum(n)) == Some(NumberText(d));
    NumberTextNotation(d);
    Pow10TwentyOne();
    assert Pow10(21 + d.scale) == 1_000_000_000_000_000_000_000;
    assert Pow10(d.scale) == 1;
    assert m >= 1 ==> m * Pow10(6) >= 1 by {
      if m >= 1 {
        MulBounds(1, m, m + 1, Pow10(6));
      }
    }
    assert n <= -1e21 || 1e21 <= n <==> m >= 1_000_000_000_000_000_000_000;
  }

  /** The key of a whole number is its `Number::toString` text. */
  lemma KeyOfWhole(k: int)
    ensures KeyOf(VNum(k as real)) == Some(NumberText(Decimal(k, 0)))
  {
    assert IsInteger(k as real) && (k as real).Floor == k;
  }

  /** `String(1e21)` is `1e+21`. */
  lemma KeyOfTenToTwentyOne()
    ensures KeyOf(VNum(1e21)) == Some("1e+21")
  {
    KeyOfWhole(1_000_000_000_000_000_000_000);
    NumberTextTenToTwentyOne();
  }

  /** The keys that name an element of an array or a string: canonical decimal integers. */
  predicate IsIndexKey(k: string)
  {
    |k| >= 1 && (forall i :: 0 <= i < |k| ==> IsDigit(k[i])) && (k[0] != '0' || |k| == 1)
  }

  /**
   * `v[key]` for a value that is not null or undefined: own fields of an
   * object, elements and `length` of arrays and strings. Members inherited
   * from prototypes are not modelled and read as undefined.
   */
  function Prop(v: Value, key: string): (r: Value)
    ensures v.VObj? ==> r == (if key in v.fields then v.fields[key] else VUndef)
    ensures v.VList? && IsIndexKey(key) && DigitsValue(key) < |v.items| ==> r == v.items[DigitsValue(key)]
  {
    match v
    case VObj(m) => if key in m then m[key] else VUndef
    case VList(items) =>
      if key == "length" then VNum(|items| as real)
      else if IsIndexKey(key) && DigitsValue(key) < |items| then items[DigitsValue(key)]
      else VUndef
    case VStr(s) =>
      if key == "length" then VNum(|s| as real)
      else if IsIndexKey(key) && DigitsValue(key) < |s| then VStr([s[DigitsValue(key)]])
      else VUndef
    case _ => VUndef
  }

  /** A variable of the environment: `env[key]`. */
  function Lookup(vars: map<string, Value>, key: string): (r: Value)
    ensures key !in vars ==> r == VUndef
  {
    if key in vars then vars[key] else VUndef
  }

  /** `args[i]`, undefined past the end. */
  function Arg(args: seq<Value>, i: nat): Value
  {
    if i < |args| then args[i] else VUndef
  }

  /**
   * The runtime environment. `vars` is the script-visible object (bindings,
   * built-in namespaces, `_opCount`, `_opLimit`); the lists the helpers
   * record into (plots, `_inputs`, strategy entries and exits) are kept
   * beside it.
   */
  datatype Env = Env(
    vars: map<string, Value>,
    plots: seq<Value>,
    inputs: map<string, Value>,
    entries: seq<Value>,
    exits: seq<Value>)
}
