/** Properties of the Star Script line parser (src/lib/star-parser/index.ts). */
module StarParserProps {
  import opened Wrappers
  import opened Strings
  import opened StarAst
  import opened StarParser

  function Concat(p: Program, q: Program): Program
  {
    Program(p.indicators + q.indicators, p.assignments + q.assignments)
  }

  lemma {:induction false} AssembleAppend(f: string -> LineResult, a: seq<string>, b: seq<string>)
    ensures Assemble(f, a + b) == Concat(Assemble(f, a), Assemble(f, b))
    decreases |b|
  {
    if b == [] {
      assert a + b == a;
    } else {
      var b' := b[..|b| - 1];
      assert (a + b)[..|a + b| - 1] == a + b';
      AssembleAppend(f, a, b');
    }
  }

  /** Lines are independent: the program of two blocks of lines is the two programs one after the other, in line order. */
  lemma ParseLinesAppend(a: seq<string>, b: seq<string>)
    ensures ParseLines(a + b) == Concat(ParseLines(a), ParseLines(b))
  {
    AssembleAppend(ParseLine, a, b);
  }

  /** Blank lines and comment lines (starting with two slashes, or a slash and a star) add nothing, wherever they stand. */
  lemma CommentLineAddsNothing(a: seq<string>, line: string, b: seq<string>)
    requires Trim(line) == "" || StartsWith(Trim(line), "//") || StartsWith(Trim(line), "/*")
    ensures ParseLines(a + [line] + b) == ParseLines(a + b)
  {
    ParseLinesAppend(a + [line], b);
    ParseLinesAppend(a, [line]);
    ParseLinesAppend(a, b);
    assert [line][..0] == [];
  }

  /**
   * A line whose trimmed text starts with `indicator` is appended verbatim
   * to the indicators and never becomes an assignment, even when it has the
   * shape `name = value`.
   */
  lemma IndicatorLineIsVerbatim(a: seq<string>, line: string)
    requires StartsWith(Trim(line), "indicator")
    ensures ParseLines(a + [line]).indicators == ParseLines(a).indicators + [Trim(line)]
    ensures ParseLines(a + [line]).assignments == ParseLines(a).assignments
  {
    assert (a + [line])[..|a|] == a;
  }

  /** Each line adds at most one indicator or one assignment. */
  lemma {:induction false} AtMostOneEntryPerLine(lines: seq<string>)
    ensures |ParseLines(lines).indicators| + |ParseLines(lines).assignments| <= |lines|
  {
    if lines != [] {
      AtMostOneEntryPerLine(lines[..|lines| - 1]);
    }
  }

  /** Every assignment the fold collects is the contribution of one of the lines, in line order. */
  lemma {:induction false} AssembleAssignmentsFromLines(f: string -> LineResult, lines: seq<string>, i: nat)
    requires i < |Assemble(f, lines).assignments|
    ensures exists j :: 0 <= j < |lines| && f(lines[j]).AssignmentLine? && f(lines[j]).a == Assemble(f, lines).assignments[i]
  {
    var init := lines[..|lines| - 1];
    var last := lines[|lines| - 1];
    if i < |Assemble(f, init).assignments| {
      AssembleAssignmentsFromLines(f, init, i);
      var j :| 0 <= j < |init| && f(init[j]).AssignmentLine? && f(init[j]).a == Assemble(f, init).assignments[i];
      assert lines[j] == init[j];
    } else {
      assert f(lines[|lines| - 1]).AssignmentLine?;
    }
  }

  /**
   * The parser has no operator precedence: no `Binary` or `Unary` node ever
   * appears in what it returns, and every assignment id is an identifier
   * (`_call` for a bare call line).
   */
  lemma ParsedAssignmentsShape(input: string, i: nat)
    requires i < |ParseLines(Lines(input)).assignments|
    ensures NoOperators(ParseLines(Lines(input)).assignments[i].expr)
    ensures IsIdentifier(ParseLines(Lines(input)).assignments[i].id)
  {
    AssembleAssignmentsFromLines(ParseLine, Lines(input), i);
  }

  /** One character as it must be written inside quotes for `parseString` to read it back. */
  function EscapeChar(c: char): string
  {
    if c == '"' then ['\\', '"'] else if c == '\n' then ['\\', 'n'] else [c]
  }

  /** A double-quoted literal: `"` and newlines escaped with a backslash. */
  function EscapeForParse(s: string): string
  {
    if s == [] then [] else EscapeChar(s[0]) + EscapeForParse(s[1..])
  }

  /** The text after the first replacement pass (`\"` to `"`): only newlines are still escaped. */
  function NewlinesEscaped(s: string): string
  {
    if s == [] then []
    else (if s[0] == '\n' then ['\\', 'n'] else [s[0]]) + NewlinesEscaped(s[1..])
  }

  lemma {:induction false} FirstPass(s: string)
    requires '\\' !in s
    ensures ReplaceAll(EscapeForParse(s), ['\\', '"'], ['"']) == NewlinesEscaped(s)
  {
    if s != [] {
      var rest := EscapeForParse(s[1..]);
      FirstPass(s[1..]);
      if s[0] == '"' {
        ReplaceAllHit(rest, ['\\', '"'], ['"']);
      } else if s[0] == '\n' {
        assert EscapeForParse(s) == ['\\'] + (['n'] + rest);
        ReplaceAllSkip('n', rest, ['\\', '"'], ['"']);
        var x := ['\\'] + (['n'] + rest);
        assert |x| >= 2 && x[..2] != ['\\', '"'];
        assert x[1..] == ['n'] + rest;
      } else {
        ReplaceAllSkip(s[0], rest, ['\\', '"'], ['"']);
      }
    }
  }

  lemma {:induction false} SecondPass(s: string)
    requires '\\' !in s
    ensures ReplaceAll(NewlinesEscaped(s), ['\\', '\''], ['\'']) == NewlinesEscaped(s)
  {
    if s != [] {
      var rest := NewlinesEscaped(s[1..]);
      SecondPass(s[1..]);
      if s[0] == '\n' {
        assert NewlinesEscaped(s) == ['\\'] + (['n'] + rest);
        ReplaceAllSkip('n', rest, ['\\', '\''], ['\'']);
        var x := ['\\'] + (['n'] + rest);
        assert |x| >= 2 && x[..2] != ['\\', '\''];
        assert x[1..] == ['n'] + rest;
      } else {
        ReplaceAllSkip(s[0], rest, ['\\', '\''], ['\'']);
      }
    }
  }

  lemma {:induction false} ThirdPass(s: string)
    requires '\\' !in s
    ensures ReplaceAll(NewlinesEscaped(s), ['\\', 'n'], ['\n']) == s
  {
    if s != [] {
      var rest := NewlinesEscaped(s[1..]);
      ThirdPass(s[1..]);
      if s[0] == '\n' {
        ReplaceAllHit(rest, ['\\', 'n'], ['\n']);
      } else {
        ReplaceAllSkip(s[0], rest, ['\\', 'n'], ['\n']);
      }
      assert s == [s[0]] + s[1..];
    }
  }

  /**
   * `parseString` reads back any text without a backslash once its double
   * quotes and newlines are escaped and it is wrapped in double quotes.
   */
  lemma ParseStringRoundTrip(s: string)
    requires '\\' !in s
    ensures ParseString("\"" + EscapeForParse(s) + "\"") == String(s)
  {
    var q := "\"" + EscapeForParse(s) + "\"";
    TrimOfTrimmed(q);
    assert IsQuoted(q);
    assert Unquote(q) == EscapeForParse(s);
    FirstPass(s);
    SecondPass(s);
    ThirdPass(s);
  }

  /**
   * No precedence: a right-hand side led by a digit, holding a character
   * that cannot be part of a numeral (an operator such as the `+` of
   * `a = 1 + 2 * 3`) and no `(`, binds the name to one identifier whose name
   * is the whole right-hand side.
   */
  lemma ArithmeticIsOneIdentifier(rhs: string, k: nat)
    requires |rhs| >= 1 && IsDigit(rhs[0]) && '(' !in rhs
    requires k < |rhs| && !IsDigit(rhs[k]) && rhs[k] != '.'
    ensures ClassifyRhs(rhs) == Identifier(rhs)
  {
    assert !AllDigits(rhs);
    if '.' in rhs {
      var d := IndexOf(rhs, '.');
      if k < d {
        assert rhs[..d][k] == rhs[k];
      } else {
        assert rhs[d + 1..][k - d - 1] == rhs[k];
      }
    }
    assert !HasCallPrefix(rhs);
    DigitLedFacts(rhs);
    PlainRhsIsIdentifier(rhs);
  }

  /** A token with a space and no dot is no decimal. */
  lemma NoDotNotDecimal(s: string)
    requires |s| >= 2 && s[1] == ' ' && forall i :: 0 <= i < |s| ==> s[i] != '.'
    ensures !IsDecimalToken(s)
  {
    assert !IsDigit(s[1]);
  }

  /** A digit, one space and then neither a blank nor `(` is no call prefix. */
  lemma DigitThenSpaceNotCall(s: string)
    requires |s| >= 3 && IsDigit(s[0]) && s[1] == ' ' && !IsWs(s[2]) && s[2] != '('
    ensures !HasCallPrefix(s)
  {
    assert SpanLen(s[1..], IsCalleeChar) == 0;
    assert SpanLen(s, IsCalleeChar) == 1;
    assert LeadingWs(s[1..][1..]) == 0;
    assert LeadingWs(s[1..]) == 1;
  }

  /** A token led by a digit is neither quoted, nor an array, nor `name[digits]`. */
  lemma DigitLedFacts(s: string)
    requires |s| >= 1 && IsDigit(s[0])
    ensures !IsQuoted(s) && !StartsWith(s, "[") && IndexMatch(s) == None
  {
  }

  /** A right-hand side no earlier pattern matches is an identifier named by all of it. */
  lemma PlainRhsIsIdentifier(s: string)
    requires !IsQuoted(s) && !IsDecimalToken(s) && !StartsWith(s, "[") && !HasCallPrefix(s) && IndexMatch(s) == None
    ensures ClassifyRhs(s) == Identifier(s)
  {
  }

  lemma UnknownWhenNoClosingParen(s: string)
    requires !IsQuoted(s) && !IsDecimalToken(s) && !StartsWith(s, "[") && HasCallPrefix(s) && CallMatch(s) == None
    ensures ClassifyRhs(s) == Unknown(s)
  {
  }

  /** A token led by a letter is neither quoted, nor an array, nor a decimal. */
  lemma LetterLedFacts(s: string)
    requires |s| >= 1 && IsLetter(s[0])
    ensures !IsQuoted(s) && !StartsWith(s, "[") && !IsDecimalToken(s)
  {
    assert !AllDigits(s);
    if '.' in s {
      var k := IndexOf(s, '.');
      if k > 0 {
        assert s[..k][0] == s[0];
      }
    }
  }

  /** The run of `p`-characters ends at the first character that fails `p`. */
  lemma {:induction false} SpanLenAt(s: string, p: char -> bool, k: nat)
    requires k < |s| && !p(s[k]) && forall i :: 0 <= i < k ==> p(s[i])
    ensures SpanLen(s, p) == k
    decreases k
  {
    if k > 0 {
      SpanLenAt(s[1..], p, k - 1);
    }
  }

  /** Callee characters up to a `(` at position `k` make a call prefix. */
  lemma CallPrefixAt(s: string, k: nat)
    requires 0 < k < |s| && s[k] == '(' && forall i :: 0 <= i < k ==> IsCalleeChar(s[i])
    ensures HasCallPrefix(s)
  {
    SpanLenAt(s, IsCalleeChar, k);
    assert LeadingWs(s[k..]) == 0 by {
      assert s[k..][0] == '(';
    }
  }

  /** Without a final `)` the call pattern does not match. */
  lemma NoClosingParen(s: string)
    requires |s| >= 1 && s[|s| - 1] != ')'
    ensures CallMatch(s) == None
  {
  }

  /**
   * A call followed by an index, such as `ta.hma(close,12)[2]`, does not end
   * in `)` and becomes `Unknown`, whatever the arguments and the index.
   */
  lemma CallWithTrailingIndexIsUnknown(callee: string, args: string, k: string)
    requires |callee| >= 1 && IsLetter(callee[0]) && forall i :: 0 <= i < |callee| ==> IsCalleeChar(callee[i])
    ensures ClassifyRhs(callee + "(" + args + ")[" + k + "]") == Unknown(callee + "(" + args + ")[" + k + "]")
  {
    var rhs := callee + "(" + args + ")[" + k + "]";
    assert forall i :: 0 <= i < |callee| ==> rhs[i] == callee[i];
    assert rhs[|callee|] == '(' && rhs[|rhs| - 1] == ']';
    LetterLedFacts(rhs);
    CallPrefixAt(rhs, |callee|);
    NoClosingParen(rhs);
    UnknownWhenNoClosingParen(rhs);
  }

  lemma IdentifierArg(a: string)
    requires !IsDecimalToken(a) && !IsQuoted(a) && IndexMatch(a) == None && Trim(a) == a
    ensures CallArg(a) == Identifier(a)
  {
  }

  /** Identifier characters up to a character that is neither blank nor `[` rule out `name[digits]`. */
  lemma NoIndexAt(s: string, k: nat)
    requires 0 < k < |s| && !IsIdentChar(s[k]) && !IsWs(s[k]) && s[k] != '['
    requires forall i :: 0 <= i < k ==> IsIdentChar(s[i])
    ensures IndexMatch(s) == None
  {
    SpanLenAt(s, IsIdentChar, k);
    assert LeadingWs(s[k..]) == 0 by {
      assert s[k..][0] == s[k];
    }
  }

  /**
   * A named argument inside a call, such as `slippage=0.01`, is one
   * identifier named by the whole `name=value` text.
   */
  lemma NamedArgumentIsOneIdentifier(name: string, value: string)
    requires |name| >= 1 && IsLetter(name[0]) && forall i :: 0 <= i < |name| ==> IsIdentChar(name[i])
    requires |value| >= 1 && !IsWs(value[|value| - 1])
    ensures CallArg(name + "=" + value) == Identifier(name + "=" + value)
  {
    var a := name + "=" + value;
    assert forall i :: 0 <= i < |name| ==> a[i] == name[i];
    assert a[|name|] == '=' && a[|a| - 1] == value[|value| - 1];
    LetterLedFacts(a);
    NoIndexAt(a, |name|);
    TrimOfTrimmed(a);
    IdentifierArg(a);
  }
}
