/**
 * Plain JavaScript data as `JSON.stringify` and the AST canonicalisers see
 * it: undefined, null, booleans, finite numbers, strings, arrays and objects
 * whose own properties keep their insertion order. It also holds the JSON
 * string escaping of section 7 of RFC 8259 as `JSON.stringify` writes it,
 * with the decoder that reads it back.
 */
module Js {
  import opened Wrappers
  import opened Strings
  import opened StarAst

  datatype Js =
    | JUndef
    | JNull
    | JBool(b: bool)
    | JNum(d: Decimal)
    | JStr(s: string)
    | JArr(items: seq<Js>)
    | JObj(fields: seq<(string, Js)>)

  /** JavaScript truthiness: undefined, null, false, 0 and "" are falsy. */
  predicate Truthy(v: Js)
  {
    match v
    case JUndef => false
    case JNull => false
    case JBool(b) => b
    case JNum(d) => d.mant != 0
    case JStr(s) => s != ""
    case _ => true
  }

  /** `v == null` */
  predicate IsNullish(v: Js)
  {
    v.JUndef? || v.JNull?
  }

  /** A size of a value that every property value and array element is below. */
  function JsSize(v: Js): (n: nat)
    ensures n >= 1
    decreases v, 2
  {
    match v
    case JArr(items) => 1 + JsItemsSize(items)
    case JObj(fields) => 2 + JsFieldsSize(fields)
    case _ => 1
  }

  function JsItemsSize(items: seq<Js>): nat
    decreases items, 1
  {
    if items == [] then 0 else JsSize(items[0]) + JsItemsSize(items[1..])
  }

  function JsFieldsSize(fields: seq<(string, Js)>): nat
    decreases fields, 1
  {
    if fields == [] then 0 else JsFieldSize(fields[0]) + JsFieldsSize(fields[1..])
  }

  function JsFieldSize(f: (string, Js)): nat
    decreases f, 0
  {
    JsSize(f.1)
  }

  /** Every element of an array is no larger than all its elements together. */
  lemma {:induction false} ItemBelow(items: seq<Js>, i: nat)
    requires i < |items|
    ensures JsSize(items[i]) <= JsItemsSize(items)
  {
    if i > 0 {
      ItemBelow(items[1..], i - 1);
    }
  }

  /** `v.k`: the first own property named `k` of an object, undefined otherwise. */
  function Get(v: Js, k: string): (r: Js)
    ensures v.JObj? && r != JUndef ==> exists i :: 0 <= i < |v.fields| && v.fields[i] == (k, r)
    ensures !v.JObj? ==> r == JUndef
    ensures v.JObj? ==> JsSize(r) < JsSize(v)
  {
    if v.JObj? then GetField(v.fields, k) else JUndef
  }

  function GetField(fs: seq<(string, Js)>, k: string): (r: Js)
    ensures r != JUndef ==> exists i :: 0 <= i < |fs| && fs[i] == (k, r)
    ensures (forall i :: 0 <= i < |fs| ==> fs[i].0 != k) ==> r == JUndef
    ensures r == JUndef || JsSize(r) <= JsFieldsSize(fs)
  {
    if fs == [] then JUndef
    else if fs[0].0 == k then fs[0].1
    else GetField(fs[1..], k)
  }

  /** `o.k` is the value of the first property named `k`. */
  lemma {:induction false} GetFieldFirst(fs: seq<(string, Js)>, k: string, i: nat)
    requires i < |fs| && fs[i].0 == k && forall j :: 0 <= j < i ==> fs[j].0 != k
    ensures GetField(fs, k) == fs[i].1
  {
    if i > 0 {
      GetFieldFirst(fs[1..], k, i - 1);
    }
  }

  /** `o.k` on an object whose first property is `f`. */
  lemma GetFieldCons(f: (string, Js), rest: seq<(string, Js)>, k: string)
    ensures GetField([f] + rest, k) == if f.0 == k then f.1 else GetField(rest, k)
  {
    assert ([f] + rest)[0] == f && ([f] + rest)[1..] == rest;
  }

  /** `o.k` on an object of three properties. */
  lemma GetField3(a: (string, Js), b: (string, Js), c: (string, Js), k: string)
    ensures GetField([a, b, c], k) ==
      if a.0 == k then a.1 else if b.0 == k then b.1 else if c.0 == k then c.1 else JUndef
  {
    GetFieldCons(c, [], k);
    GetFieldCons(b, [c], k);
    GetFieldCons(a, [b, c], k);
    assert [a] + ([b] + ([c] + [])) == [a, b, c];
  }

  /** `o.k` on an object of four properties. */
  lemma GetField4(a: (string, Js), b: (string, Js), c: (string, Js), d: (string, Js), k: string)
    ensures GetField([a, b, c, d], k) ==
      if a.0 == k then a.1 else if b.0 == k then b.1 else if c.0 == k then c.1 else if d.0 == k then d.1 else JUndef
  {
    GetFieldCons(d, [], k);
    GetFieldCons(c, [d], k);
    GetFieldCons(b, [c, d], k);
    GetFieldCons(a, [b, c, d], k);
    assert [a] + ([b] + ([c] + ([d] + []))) == [a, b, c, d];
  }

  /** `a || b` */
  function Or(a: Js, b: Js): (r: Js)
    ensures Truthy(a) ==> r == a
    ensures !Truthy(a) ==> r == b
  {
    if Truthy(a) then a else b
  }

  /** A node with exactly two properties: `type` and one more. */
  function Leaf(t: string, k: string, v: Js): (r: Js)
    ensures r.JObj? && Get(r, "type") == JStr(t) && (k != "type" ==> Get(r, k) == v)
  {
    var fs := [("type", JStr(t)), (k, v)];
    assert fs[1..] == [(k, v)];
    assert k != "type" ==> GetField(fs, k) == GetField([(k, v)], k) == v;
    JObj(fs)
  }

  /** `e.k || []`, the list `.map` runs over. */
  function ListOf(e: Js, k: string): (r: Js)
    ensures e.JObj? ==> JsSize(r) < JsSize(e)
  {
    Or(Get(e, k), JArr([]))
  }

  /** `v.type === t` */
  predicate HasType(v: Js, t: string)
  {
    Get(v, "type") == JStr(t)
  }

  /** `Array.isArray(v.k)` */
  predicate IsArrayField(v: Js, k: string)
  {
    Get(v, k).JArr?
  }

  function Prepend(c: char, rest: Option<string>): (r: Option<string>)
    ensures r.Some? <==> rest.Some?
    ensures r.Some? ==> r.value == [c] + rest.value
  {
    match rest
    case None => None
    case Some(t) => Some([c] + t)
  }

  function HexDigit(d: nat): char
    requires d < 16
  {
    "0123456789abcdef"[d]
  }

  /** The value of one hexadecimal digit, either case. */
  function HexValue(c: char): (r: Option<nat>)
    ensures r.Some? ==> r.value < 16
  {
    if '0' <= c <= '9' then Some(c as int - '0' as int)
    else if 'a' <= c <= 'f' then Some(c as int - 'a' as int + 10)
    else if 'A' <= c <= 'F' then Some(c as int - 'A' as int + 10)
    else None
  }

  /** The value of four hexadecimal digits. */
  function HexQuad(h: string): (r: Option<nat>)
    requires |h| == 4
    ensures r.Some? ==> r.value < 0x10000
  {
    match (HexValue(h[0]), HexValue(h[1]), HexValue(h[2]), HexValue(h[3]))
    case (Some(a), Some(b), Some(c), Some(d)) => Some(((a * 16 + b) * 16 + c) * 16 + d)
    case _ => None
  }

  const Backspace: char := '\U{0008}'
  const FormFeed: char := '\U{000C}'

  /**
   * What `JSON.stringify` writes for one character of a string: the two-character
   * escapes for quote, backslash, backspace, form feed, newline, carriage
   * return and tab, `\u00xx` with lower-case hex for the other control
   * characters, and the character itself otherwise.
   */
  function EscapeChar(c: char): (r: string)
    ensures |r| >= 1
    ensures r[0] == '\\' <==> c == '"' || c == '\\' || c < ' '
    ensures '\n' !in r
  {
    if c == '"' then "\\\""
    else if c == '\\' then "\\\\"
    else if c == Backspace then "\\b"
    else if c == FormFeed then "\\f"
    else if c == '\n' then "\\n"
    else if c == '\r' then "\\r"
    else if c == '\t' then "\\t"
    else if c < ' ' then "\\u00" + [HexDigit(c as int / 16), HexDigit(c as int % 16)]
    else [c]
  }

  function Escape(s: string): (r: string)
    ensures '\n' !in r
  {
    if s == [] then [] else EscapeChar(s[0]) + Escape(s[1..])
  }

  /** `JSON.stringify(s)` for a string (section 7 of RFC 8259). */
  function Quote(s: string): (r: string)
    ensures |r| >= 2 && r[0] == '"' && r[|r| - 1] == '"'
    ensures '\n' !in r
  {
    "\"" + Escape(s) + "\""
  }

  /**
   * Decodes the characters between the quotes of a JSON string: an
   * unescaped quote or control character is an error, and so is an escape
   * RFC 8259 does not define or a lone surrogate.
   */
  function Unescape(t: string): (r: Option<string>)
    decreases |t|
  {
    if t == [] then Some([])
    else if t[0] == '"' || t[0] < ' ' then None
    else if t[0] != '\\' then Prepend(t[0], Unescape(t[1..]))
    else if |t| < 2 then None
    else
      var c := t[1];
      if c == '"' || c == '\\' || c == '/' then Prepend(c, Unescape(t[2..]))
      else if c == 'b' then Prepend(Backspace, Unescape(t[2..]))
      else if c == 'f' then Prepend(FormFeed, Unescape(t[2..]))
      else if c == 'n' then Prepend('\n', Unescape(t[2..]))
      else if c == 'r' then Prepend('\r', Unescape(t[2..]))
      else if c == 't' then Prepend('\t', Unescape(t[2..]))
      else if c == 'u' && |t| >= 6 then
        match HexQuad(t[2..6])
        case Some(v) =>
          if v < 0xD800 || 0xE000 <= v then Prepend(v as char, Unescape(t[6..])) else None
        case None => None
      else None
  }

  /** Reads a JSON string literal back into its text. */
  function Unquote(q: string): Option<string>
  {
    if |q| >= 2 && q[0] == '"' && q[|q| - 1] == '"' then Unescape(q[1..|q| - 1]) else None
  }

  /** Decoding one escaped character in front of more text decodes that character first. */
  lemma UnescapeEscapeChar(c: char, rest: string)
    ensures Unescape(EscapeChar(c) + rest) == Prepend(c, Unescape(rest))
  {
    if c == '"' || c == '\\' || c == Backspace || c == FormFeed || c == '\n' || c == '\r' || c == '\t' {
      UnescapeShortEscape(c, rest);
    } else if c < ' ' {
      UnescapeHexEscape(c, rest);
    } else {
      var t := EscapeChar(c) + rest;
      assert t[1..] == rest;
    }
  }

  lemma UnescapeShortEscape(c: char, rest: string)
    requires c == '"' || c == '\\' || c == Backspace || c == FormFeed || c == '\n' || c == '\r' || c == '\t'
    ensures Unescape(EscapeChar(c) + rest) == Prepend(c, Unescape(rest))
  {
    var t := EscapeChar(c) + rest;
    assert t[2..] == rest;
  }

  lemma UnescapeHexEscape(c: char, rest: string)
    requires c < ' ' && c != Backspace && c != FormFeed && c != '\n' && c != '\r' && c != '\t'
    ensures Unescape(EscapeChar(c) + rest) == Prepend(c, Unescape(rest))
  {
    var n := c as int;
    var h := "00" + [HexDigit(n / 16), HexDigit(n % 16)];
    var t := "\\u" + h + rest;
    assert EscapeChar(c) + rest == t;
    assert t[2..6] == h;
    assert HexValue(h[2]) == Some(n / 16);
    assert HexValue(h[3]) == Some(n % 16);
    assert HexQuad(h) == Some(n);
    assert t[6..] == rest;
  }

  lemma {:induction false} UnescapeEscape(s: string)
    ensures Unescape(Escape(s)) == Some(s)
  {
    if s != [] {
      UnescapeEscape(s[1..]);
      UnescapeEscapeChar(s[0], Escape(s[1..]));
      assert [s[0]] + s[1..] == s;
    }
  }

  /** Every string survives `JSON.stringify` followed by decoding: the escaping loses nothing. */
  lemma QuoteRoundTrip(s: string)
    ensures Unquote(Quote(s)) == Some(s)
  {
    var q := Quote(s);
    assert q[1..|q| - 1] == Escape(s);
    UnescapeEscape(s);
  }

  /**
   * `JSON.stringify(v)` for a value inside an array (where undefined is
   * written `null`) or at the top; object properties holding undefined are
   * left out.
   */
  function Stringify(v: Js): (r: string)
    ensures v.JUndef? || v.JNull? ==> r == "null"
    ensures v.JStr? ==> |r| >= 2 && r[0] == '"' && r[|r| - 1] == '"'
    ensures v.JArr? ==> |r| >= 2 && r[0] == '[' && r[|r| - 1] == ']'
    ensures v.JObj? ==> |r| >= 2 && r[0] == '{' && r[|r| - 1] == '}'
    decreases v, 2
  {
    match v
    case JUndef => "null"
    case JNull => "null"
    case JBool(b) => if b then "true" else "false"
    case JNum(d) => NumberText(d)
    case JStr(s) => Quote(s)
    case JArr(items) => "[" + Join(StringifyItems(items), ",") + "]"
    case JObj(fields) => "{" + Join(StringifyFields(fields), ",") + "}"
  }

  function StringifyItems(items: seq<Js>): (r: seq<string>)
    ensures |r| == |items|
    decreases items, 1
  {
    if items == [] then [] else [Stringify(items[0])] + StringifyItems(items[1..])
  }

  function StringifyFields(fields: seq<(string, Js)>): (r: seq<string>)
    ensures |r| <= |fields|
    decreases fields, 1
  {
    if fields == [] then []
    else if fields[0].1 == JUndef then StringifyFields(fields[1..])
    else [StringifyField(fields[0])] + StringifyFields(fields[1..])
  }

  /** `"key":value` */
  function StringifyField(f: (string, Js)): string
    decreases f, 0
  {
    Quote(f.0) + ":" + Stringify(f.1)
  }

  /** JSON text never holds a raw line break: strings escape it as `\n`. */
  lemma {:induction false} StringifyNoNewline(v: Js)
    ensures '\n' !in Stringify(v)
    decreases v, 2
  {
    match v
    case JArr(items) =>
      StringifyItemsNoNewline(items);
      JoinAvoids(StringifyItems(items), ",", '\n');
    case JObj(fields) =>
      StringifyFieldsNoNewline(fields);
      JoinAvoids(StringifyFields(fields), ",", '\n');
    case _ =>
  }

  lemma {:induction false} StringifyItemsNoNewline(items: seq<Js>)
    ensures forall i :: 0 <= i < |StringifyItems(items)| ==> '\n' !in StringifyItems(items)[i]
    decreases items, 1
  {
    if items != [] {
      StringifyNoNewline(items[0]);
      StringifyItemsNoNewline(items[1..]);
    }
  }

  lemma {:induction false} StringifyFieldsNoNewline(fields: seq<(string, Js)>)
    ensures forall i :: 0 <= i < |StringifyFields(fields)| ==> '\n' !in StringifyFields(fields)[i]
    decreases fields, 1
  {
    if fields != [] {
      StringifyFieldsNoNewline(fields[1..]);
      if fields[0].1 != JUndef {
        StringifyFieldNoNewline(fields[0]);
      }
    }
  }

  lemma StringifyFieldNoNewline(f: (string, Js))
    ensures '\n' !in StringifyField(f)
    decreases f, 0
  {
    StringifyNoNewline(f.1);
  }
}
