/**
 * The hand-written Star Script line parser (src/lib/star-parser/index.ts).
 * Each line is trimmed and classified by a fixed sequence of regular
 * expressions; the regular expressions are written out here as scans over
 * the characters. A match of `[set]*` followed by something outside the set
 * can only end where the run of that set ends, so every scan below takes
 * the longest run and never needs to backtrack.
 */
module StarParser {
  import opened Wrappers
  import opened Strings
  import opened StarAst

  /** Length of the longest prefix whose characters all satisfy `p`. */
  function SpanLen(s: string, p: char -> bool): (n: nat)
    ensures n <= |s|
    ensures forall i :: 0 <= i < n ==> p(s[i])
    ensures n < |s| ==> !p(s[n])
  {
    if s == [] || !p(s[0]) then 0 else 1 + SpanLen(s[1..], p)
  }

  predicate AllDigits(s: string)
  {
    |s| >= 1 && forall i :: 0 <= i < |s| ==> IsDigit(s[i])
  }

  /** `/^\d+(?:\.\d+)?$/` */
  predicate IsDecimalToken(s: string)
  {
    AllDigits(s) || ('.' in s && AllDigits(s[..IndexOf(s, '.')]) && AllDigits(s[IndexOf(s, '.') + 1..]))
  }

  /**
   * Digits with at most one point and at least one digit: `\d+(\.\d+)?`,
   * and also `12.` and `.5`, which `Number(s)` reads as well.
   */
  predicate IsMantissa(s: string)
  {
    if '.' in s then
      var k := IndexOf(s, '.');
      |s| >= 2 && (forall i :: 0 <= i < k ==> IsDigit(s[i])) && (forall i :: k < i < |s| ==> IsDigit(s[i]))
    else AllDigits(s)
  }

  lemma DecimalTokenIsMantissa(s: string)
    ensures IsDecimalToken(s) ==> IsMantissa(s)
  {
    if IsDecimalToken(s) && '.' in s {
      var k := IndexOf(s, '.');
      assert forall i :: k < i < |s| ==> s[i] == s[k + 1..][i - k - 1];
    }
  }

  /** The digits before the point of a mantissa. */
  function IntDigits(tok: string): (r: string)
    requires IsMantissa(tok) && '.' in tok
    ensures forall i :: 0 <= i < |r| ==> IsDigit(r[i])
  {
    tok[..IndexOf(tok, '.')]
  }

  /** The digits after the point of a mantissa. */
  function FracDigits(tok: string): (r: string)
    requires IsMantissa(tok) && '.' in tok
    ensures forall i :: 0 <= i < |r| ==> IsDigit(r[i])
    ensures |r| == |tok| - IndexOf(tok, '.') - 1
  {
    tok[IndexOf(tok, '.') + 1..]
  }

  lemma ShiftedSum(a: nat, b: nat, p: nat)
    requires p >= 1
    ensures (a * p + b) as real / p as real == a as real + b as real / p as real
  {
    assert (a * p) as real == a as real * p as real;
  }

  /** The decimal a mantissa denotes: its digits without the point, scaled by the number of digits after it. */
  function DecimalOf(tok: string): (d: Decimal)
    requires IsMantissa(tok)
    ensures d.mant >= 0
    ensures '.' !in tok ==> DecimalValue(d) == DigitsValue(tok) as real
    ensures '.' in tok ==>
      DecimalValue(d) == DigitsValue(IntDigits(tok)) as real + DigitsValue(FracDigits(tok)) as real / Pow10(|FracDigits(tok)|) as real
  {
    if '.' in tok then
      var k := IndexOf(tok, '.');
      DigitsValueAppend(IntDigits(tok), FracDigits(tok));
      ShiftedSum(DigitsValue(IntDigits(tok)), DigitsValue(FracDigits(tok)), Pow10(|FracDigits(tok)|));
      Decimal(DigitsValue(tok[..k] + tok[k + 1..]), |tok| - k - 1)
    else Decimal(DigitsValue(tok), 0)
  }

  /** Single or double quotes at both ends (a lone quote character counts, as in the source). */
  predicate IsQuoted(s: string)
  {
    (StartsWith(s, "\"") && EndsWith(s, "\"")) || (StartsWith(s, "'") && EndsWith(s, "'"))
  }

  /** `parseIdentifier` */
  function ParseIdentifier(tok: string): string
  {
    Trim(tok)
  }

  /** `parseNumber`, on the digit tokens that every call site passes: the value they write in decimal. */
  function ParseNumber(tok: string): (e: Expr)
    requires IsDecimalToken(tok)
    ensures e.Number? && e.value.mant >= 0
    ensures '.' !in tok ==> DecimalValue(e.value) == DigitsValue(tok) as real
    ensures '.' in tok ==>
      IsMantissa(tok) &&
      DecimalValue(e.value) == DigitsValue(IntDigits(tok)) as real
                               + DigitsValue(FracDigits(tok)) as real / Pow10(|FracDigits(tok)|) as real
  {
    DecimalTokenIsMantissa(tok);
    Number(DecimalOf(tok))
  }

  /** `slice(1, -1)`: drops the first and the last character; empty for a single character. */
  function Unquote(s: string): string
  {
    if |s| >= 2 then s[1..|s| - 1] else ""
  }

  /** The three global replacements of `parseString`, in source order: `\"`, then `\'`, then `\n`. */
  function Unescape(s: string): string
  {
    ReplaceAll(ReplaceAll(ReplaceAll(s, ['\\', '"'], ['"']), ['\\', '\''], ['\'']), ['\\', 'n'], ['\n'])
  }

  /** No backslash is followed by the letter `n`. */
  predicate NoEscapedNewline(s: string)
  {
    forall i :: 0 <= i < |s| - 1 ==> !(s[i] == '\\' && s[i + 1] == 'n')
  }

  /**
   * The last pass of `Unescape` leaves no `\n` behind, since the newline it
   * writes can neither end nor start a new one; its first character is the
   * text's first character or that newline.
   */
  lemma {:induction false} NewlinesDecoded(s: string)
    ensures NoEscapedNewline(ReplaceAll(s, ['\\', 'n'], ['\n']))
    ensures s != [] ==>
      ReplaceAll(s, ['\\', 'n'], ['\n']) != [] && ReplaceAll(s, ['\\', 'n'], ['\n'])[0] in {s[0], '\n'}
    decreases |s|
  {
    var pat, rep := ['\\', 'n'], ['\n'];
    if |s| >= 2 {
      if s[..2] == pat {
        NewlinesDecoded(s[2..]);
      } else {
        NewlinesDecoded(s[1..]);
        var r := ReplaceAll(s[1..], pat, rep);
        assert s[0] == '\\' ==> s[1] != 'n';
        assert ReplaceAll(s, pat, rep) == [s[0]] + r;
      }
    }
  }

  /**
   * `parseString`: a quoted token is unquoted and its escapes decoded, so
   * the text is shorter than the token and holds no `\n` (a lone quote
   * reads as the empty text); any other token is kept as trimmed.
   */
  function ParseString(tok: string): (e: Expr)
    ensures e.String?
    ensures !IsQuoted(Trim(tok)) ==> e.text == Trim(tok)
    ensures IsQuoted(Trim(tok)) ==> NoEscapedNewline(e.text)
    ensures IsQuoted(Trim(tok)) ==> if |Trim(tok)| >= 2 then |e.text| <= |Trim(tok)| - 2 else e.text == ""
  {
    var inner := Trim(tok);
    var u := Unquote(inner);
    var first := ReplaceAll(u, ['\\', '"'], ['"']);
    var second := ReplaceAll(first, ['\\', '\''], ['\'']);
    ReplaceAllNoLonger(u, ['\\', '"'], ['"']);
    ReplaceAllNoLonger(first, ['\\', '\''], ['\'']);
    ReplaceAllNoLonger(second, ['\\', 'n'], ['\n']);
    NewlinesDecoded(second);
    assert Unescape(u) == ReplaceAll(second, ['\\', 'n'], ['\n']);
    if IsQuoted(inner) then String(Unescape(u)) else String(inner)
  }

  /** `split(',').map(trim).filter(Boolean)` */
  function NonEmptyTrimmed(parts: seq<string>): (r: seq<string>)
    ensures |r| <= |parts|
    ensures forall i :: 0 <= i < |r| ==> r[i] != [] && Trim(r[i]) == r[i]
  {
    if parts == [] then []
    else
      var t := Trim(parts[0]);
      TrimIdempotent(parts[0]);
      if t == [] then NonEmptyTrimmed(parts[1..]) else [t] + NonEmptyTrimmed(parts[1..])
  }

  function CommaPieces(s: string): seq<string>
  {
    NonEmptyTrimmed(Split(s, ','))
  }

  /** One element of an array literal: a number, a quoted string or an identifier. */
  function ArrayItem(p: string): (e: Expr)
    ensures e.Number? || e.String? || e.Identifier?
    ensures e.Number? <==> IsDecimalToken(p)
    ensures !IsDecimalToken(p) && IsQuoted(p) ==> e == ParseString(p)
    ensures !IsDecimalToken(p) && !IsQuoted(p) ==> e == Identifier(Trim(p))
  {
    if IsDecimalToken(p) then ParseNumber(p)
    else if IsQuoted(p) then ParseString(p)
    else Identifier(ParseIdentifier(p))
  }

  function ArrayItems(ps: seq<string>): (r: seq<Expr>)
    ensures |r| == |ps|
    ensures forall i :: 0 <= i < |ps| ==> r[i] == ArrayItem(ps[i])
    ensures NoOperatorsList(r)
  {
    if ps == [] then [] else [ArrayItem(ps[0])] + ArrayItems(ps[1..])
  }

  /** `inner.replace(/^\[|\]$/g, '')` */
  function StripBrackets(inner: string): string
  {
    var a := if StartsWith(inner, "[") then inner[1..] else inner;
    if EndsWith(a, "]") then a[..|a| - 1] else a
  }

  /** `parseArray` */
  function ParseArray(tok: string): (e: Expr)
    ensures e.Array? && NoOperators(e)
    ensures forall i :: 0 <= i < |e.items| ==> e.items[i].Number? || e.items[i].String? || e.items[i].Identifier?
  {
    Array(ArrayItems(CommaPieces(StripBrackets(Trim(tok)))))
  }

  /** `/^([a-zA-Z_][a-zA-Z0-9_]*)\s*\[\s*(\d+)\s*\]$/`: the name and the digits. */
  function IndexMatch(s: string): (m: Option<(string, string)>)
    ensures m.Some? ==> AllDigits(m.value.1) && |m.value.0| >= 1 && IsIdentStart(m.value.0[0])
  {
    if s == [] || !IsIdentStart(s[0]) then None
    else
      var k := SpanLen(s, IsIdentChar);
      var j := k + LeadingWs(s[k..]);
      if j < |s| && s[j] == '[' then
        var j2 := j + 1 + LeadingWs(s[j + 1..]);
        var dl := SpanLen(s[j2..], IsDigit);
        var j3 := j2 + dl + LeadingWs(s[j2 + dl..]);
        if dl > 0 && j3 == |s| - 1 && s[j3] == ']' then Some((s[..k], s[j2..j2 + dl])) else None
      else None
  }

  /** `^[a-zA-Z_][a-zA-Z0-9_]*$` */
  predicate IsIdentifier(s: string)
  {
    |s| >= 1 && IsIdentStart(s[0]) && forall i :: 0 <= i < |s| ==> IsIdentChar(s[i])
  }

  /** `[a-zA-Z0-9_\.]` */
  predicate IsCalleeChar(c: char) { IsIdentChar(c) || c == '.' }

  /** `/^([a-zA-Z0-9_\.]+)\s*\((.*)\)$/s`: the callee and the text between the first `(` and the final `)`. */
  function CallMatch(text: string): (m: Option<(string, string)>)
    ensures m.Some? ==> |m.value.0| >= 1 && forall i :: 0 <= i < |m.value.0| ==> IsCalleeChar(m.value.0[i])
  {
    var k := SpanLen(text, IsCalleeChar);
    var j := k + LeadingWs(text[k..]);
    if k > 0 && j + 2 <= |text| && text[j] == '(' && text[|text| - 1] == ')' then
      Some((text[..k], text[j + 1..|text| - 1]))
    else None
  }

  /** `/^[a-zA-Z0-9_\.]+\s*\(/` */
  predicate HasCallPrefix(text: string)
  {
    var k := SpanLen(text, IsCalleeChar);
    var j := k + LeadingWs(text[k..]);
    k > 0 && j < |text| && text[j] == '('
  }

  /** One call argument: a number, a quoted string, `name[digits]`, or else an identifier named by the whole piece. */
  function CallArg(a: string): (e: Expr)
    ensures NoOperators(e)
    ensures IsDecimalToken(a) ==> e.Number?
    ensures !IsDecimalToken(a) && IsQuoted(a) ==> e == ParseString(a)
    ensures !IsDecimalToken(a) && !IsQuoted(a) && IndexMatch(a).Some? ==>
      e == Index(Identifier(IndexMatch(a).value.0), ParseNumber(IndexMatch(a).value.1))
    ensures !IsDecimalToken(a) && !IsQuoted(a) && IndexMatch(a).None? ==> e == Identifier(Trim(a))
  {
    if IsDecimalToken(a) then ParseNumber(a)
    else if IsQuoted(a) then ParseString(a)
    else match IndexMatch(a)
      case Some((name, digits)) => Index(Identifier(name), ParseNumber(digits))
      case None => Identifier(ParseIdentifier(a))
  }

  function CallArgs(ps: seq<string>): (r: seq<Expr>)
    ensures |r| == |ps|
    ensures forall i :: 0 <= i < |ps| ==> r[i] == CallArg(ps[i])
    ensures NoOperatorsList(r)
  {
    if ps == [] then [] else [CallArg(ps[0])] + CallArgs(ps[1..])
  }

  /** `parseCall`: `None` is the source's `null`. */
  function ParseCall(text: string): (r: Option<Expr>)
    ensures r.Some? <==> CallMatch(text).Some?
    ensures r.Some? ==> r.value.Call? && r.value.callee == CallMatch(text).value.0
    ensures r.Some? ==> NoOperators(r.value)
  {
    match CallMatch(text)
    case None => None
    case Some((callee, inner)) =>
      var argsRaw := Trim(inner);
      if argsRaw == "" then Some(Call(callee, []))
      else Some(Call(callee, CallArgs(CommaPieces(argsRaw))))
  }

  /**
   * `/^([a-zA-Z_][a-zA-Z0-9_]*)\s*=\s*(.+)$/s` followed by `m[2].trim()`.
   * Whatever white space the greedy `\s*` leaves to `(.+)` is removed again
   * by the trim, so the right-hand side is the trimmed text after `=`.
   */
  function AssignMatch(line: string): (m: Option<(string, string)>)
    ensures m.Some? ==> |m.value.0| >= 1 && IsIdentStart(m.value.0[0])
                        && forall i :: 0 <= i < |m.value.0| ==> IsIdentChar(m.value.0[i])
  {
    if line == [] || !IsIdentStart(line[0]) then None
    else
      var k := SpanLen(line, IsIdentChar);
      var j := k + LeadingWs(line[k..]);
      if j + 1 < |line| && line[j] == '=' then Some((line[..k], Trim(line[j + 1..]))) else None
  }

  /** `/^\[.*\]$/` */
  predicate IsBracketed(s: string)
  {
    StartsWith(s, "[") && EndsWith(s, "]")
  }

  /**
   * The right-hand side of an assignment, classified by the first test that
   * matches (index.ts:83-96): a quoted text, a decimal numeral, a bracketed
   * list, a call (whose arguments may fail to parse), `name[digits]`, and
   * otherwise the whole text as one identifier.
   */
  function ClassifyRhs(rhs: string): (e: Expr)
    ensures NoOperators(e)
    ensures IsQuoted(rhs) ==> e == ParseString(rhs)
    ensures !IsQuoted(rhs) && IsDecimalToken(rhs) ==> e == ParseNumber(rhs)
    ensures !IsQuoted(rhs) && !IsDecimalToken(rhs) && IsBracketed(rhs) ==> e == ParseArray(rhs)
    ensures !IsQuoted(rhs) && !IsDecimalToken(rhs) && !IsBracketed(rhs) && HasCallPrefix(rhs) ==>
      e == (if ParseCall(rhs).Some? then ParseCall(rhs).value else Unknown(rhs))
    ensures !IsQuoted(rhs) && !IsDecimalToken(rhs) && !IsBracketed(rhs) && !HasCallPrefix(rhs) ==>
      e == (if IndexMatch(rhs).Some? then Index(Identifier(IndexMatch(rhs).value.0), ParseNumber(IndexMatch(rhs).value.1))
            else Identifier(rhs))
  {
    if IsQuoted(rhs) then ParseString(rhs)
    else if IsDecimalToken(rhs) then ParseNumber(rhs)
    else if IsBracketed(rhs) then ParseArray(rhs)
    else if HasCallPrefix(rhs) then
      (match ParseCall(rhs) case Some(c) => c case None => Unknown(rhs))
    else match IndexMatch(rhs)
      case Some((name, digits)) => Index(Identifier(name), ParseNumber(digits))
      case None => Identifier(rhs)
  }

  /** `_call` is itself a well-formed identifier. */
  lemma CallIdIsIdentifier()
    ensures IsIdentifier(CallId)
  {
  }

  datatype LineResult = Skipped | IndicatorLine(text: string) | AssignmentLine(a: Assignment)

  /** A trimmed line that is neither blank, a comment nor an indicator declaration. */
  predicate IsStatementLine(line: string)
  {
    line != "" && !StartsWith(line, "//") && !StartsWith(line, "/*") && !StartsWith(line, "indicator")
  }

  /**
   * What one source line contributes to the program (index.ts:66-106):
   * blank and comment lines nothing, an `indicator` line its text, a
   * `name = rhs` line an assignment of the classified right-hand side, a
   * bare call an assignment to `_call`, and any other line nothing.
   */
  function ParseLine(raw: string): (r: LineResult)
    ensures Trim(raw) == "" || StartsWith(Trim(raw), "//") || StartsWith(Trim(raw), "/*") ==> r == Skipped
    ensures r.IndicatorLine? <==> Trim(raw) != "" && StartsWith(Trim(raw), "indicator")
    ensures r.IndicatorLine? ==> r.text == Trim(raw)
    ensures r.AssignmentLine? ==> IsIdentifier(r.a.id) && NoOperators(r.a.expr)
    ensures IsStatementLine(Trim(raw)) && AssignMatch(Trim(raw)).Some? ==>
      r == AssignmentLine(Assignment(AssignMatch(Trim(raw)).value.0, ClassifyRhs(AssignMatch(Trim(raw)).value.1)))
    ensures IsStatementLine(Trim(raw)) && AssignMatch(Trim(raw)).None? ==>
      r == (if ParseCall(Trim(raw)).Some? then AssignmentLine(Assignment(CallId, ParseCall(Trim(raw)).value)) else Skipped)
  {
    var line := Trim(raw);
    CallIdIsIdentifier();
    if line == "" then Skipped
    else if StartsWith(line, "//") || StartsWith(line, "/*") then Skipped
    else if StartsWith(line, "indicator") then IndicatorLine(line)
    else match AssignMatch(line)
      case Some((id, rhs)) => AssignmentLine(Assignment(id, ClassifyRhs(rhs)))
      case None =>
        match ParseCall(line)
        case Some(c) => AssignmentLine(Assignment(CallId, c))
        case None => Skipped
  }

  function AddLine(p: Program, r: LineResult): Program
  {
    match r
    case Skipped => p
    case IndicatorLine(t) => p.(indicators := p.indicators + [t])
    case AssignmentLine(a) => p.(assignments := p.assignments + [a])
  }

  /** The program built by appending each line's contribution in order; `classify` is the per-line step. */
  function Assemble(classify: string -> LineResult, lines: seq<string>): Program
  {
    if lines == [] then Program([], [])
    else AddLine(Assemble(classify, lines[..|lines| - 1]), classify(lines[|lines| - 1]))
  }

  /** What every parsed program holds: at most one entry per line, `indicator` texts, and operator-free assignments to identifiers. */
  predicate WellParsed(p: Program, lineCount: nat)
  {
    |p.indicators| + |p.assignments| <= lineCount
    && (forall i :: 0 <= i < |p.indicators| ==> StartsWith(p.indicators[i], "indicator"))
    && (forall i :: 0 <= i < |p.assignments| ==> IsIdentifier(p.assignments[i].id) && NoOperators(p.assignments[i].expr))
  }

  lemma {:induction false} AssembledWellParsed(lines: seq<string>)
    ensures WellParsed(Assemble(ParseLine, lines), |lines|)
    decreases |lines|
  {
    if lines != [] {
      var prev := Assemble(ParseLine, lines[..|lines| - 1]);
      AssembledWellParsed(lines[..|lines| - 1]);
      var r := ParseLine(lines[|lines| - 1]);
      assert Assemble(ParseLine, lines) == AddLine(prev, r);
      match r
      case Skipped =>
      case IndicatorLine(t) =>
        assert StartsWith(t, "indicator");
      case AssignmentLine(a) =>
        assert IsIdentifier(a.id) && NoOperators(a.expr);
    }
  }

  /**
   * The program the parse loop has built after the given lines: each line
   * adds one indicator, one assignment or nothing.
   */
  function ParseLines(lines: seq<string>): (r: Program)
    ensures WellParsed(r, |lines|)
  {
    AssembledWellParsed(lines);
    Assemble(ParseLine, lines)
  }

  /**
   * The lines of the input. The source splits on `/\r?\n/`; splitting on
   * `\n` alone gives the same program because every piece is trimmed first
   * and a trailing `\r` is white space.
   */
  function Lines(input: string): seq<string>
  {
    Split(input, '\n')
  }

  /** `parse`: one pass over the lines, appending indicators and assignments. */
  method Parse(input: string) returns (p: Program)
    ensures p == ParseLines(Lines(input))
  {
    var lines := Lines(input);
    p := Program([], []);
    var i := 0;
    while i < |lines|
      invariant 0 <= i <= |lines|
      invariant p == Assemble(ParseLine, lines[..i])
    {
      assert lines[..i + 1][..i] == lines[..i];
      p := AddLine(p, ParseLine(lines[i]));
      i := i + 1;
    }
    assert lines[..|lines|] == lines;
  }
}
