/**
 * Properties of the transpiler: how call arguments are grouped into
 * `name: value` pairs, that rendered text keeps to one line so the printed
 * program splits back into its lines, and what the template-literal
 * embedding of the module recovers.
 */
module StarTranspilerProps {
  import opened Wrappers
  import opened Strings
  import opened StarAst
  import opened Js
  import opened StarJson
  import opened StarTransform
  import opened StarValues
  import opened StarRuntime
  import opened StarTranspiler

  /** With no pair left from index `i` on, the rest of the arguments stay positional, in order. */
  lemma {:induction false} NoPairsFrom(args: seq<Expr>, i: nat, acc: Grouped)
    requires i <= |args| && DistinctKeys(acc.named) && FromArgs(acc, args)
    requires forall j :: i <= j < |args| ==> !IsPair(args, j)
    ensures GroupFrom(args, i, acc) == Grouped(acc.positional + args[i..], acc.named)
    decreases |args| - i
  {
    if i < |args| {
      var next := acc.(positional := acc.positional + [args[i]]);
      NoPairsFrom(args, i + 1, next);
      assert acc.positional + [args[i]] + args[i + 1..] == acc.positional + args[i..];
    }
  }

  /** A call without an Identifier followed by a non-Identifier keeps every argument positional (star-transpiler.ts:46-56). */
  lemma UngroupedWithoutPairs(args: seq<Expr>)
    requires forall j :: 0 <= j < |args| ==> !IsPair(args, j)
    ensures GroupArgs(args) == Grouped(args, [])
  {
    NoPairsFrom(args, 0, Grouped([], []));
  }

  /** `name value` at the front of the arguments becomes the pair `name: value` and leaves the rest positional (star-transpiler.ts:49-53). */
  lemma LeadingPairIsNamed(k: string, v: Expr, rest: seq<Expr>)
    requires k != ProtoKey && !v.Identifier?
    requires forall j :: 0 <= j < |rest| ==> !IsPair(rest, j)
    ensures GroupArgs([Identifier(k), v] + rest) == Grouped(rest, [(k, v)])
  {
    var args := [Identifier(k), v] + rest;
    assert IsPair(args, 0);
    forall j | 2 <= j < |args| ensures !IsPair(args, j) {
      assert args[j] == rest[j - 2];
      assert j + 1 < |args| ==> args[j + 1] == rest[j - 1];
      assert !IsPair(rest, j - 2);
    }
    NoPairsFrom(args, 2, Grouped([], [(k, v)]));
    assert args[2..] == rest;
  }

  /** A name given twice keeps its first place and takes the later value, as a JavaScript object does. */
  lemma LaterValueWins(k: string, v1: Expr, v2: Expr)
    requires k != ProtoKey && !v1.Identifier? && !v2.Identifier?
    ensures GroupArgs([Identifier(k), v1, Identifier(k), v2]) == Grouped([], [(k, v2)])
  {
    var args := [Identifier(k), v1, Identifier(k), v2];
    assert IsPair(args, 0) && IsPair(args, 2);
    var g1 := Grouped([], [(k, v1)]);
    assert GroupArgs(args) == GroupFrom(args, 2, g1);
    assert Put(g1.named, k, v2) == [(k, v2)];
  }

  /** A pair named `__proto__` sets the prototype of the object and is not printed. */
  lemma ProtoPairIsDropped(v: Expr)
    requires !v.Identifier?
    ensures GroupArgs([Identifier(ProtoKey), v]) == Grouped([], [])
  {
    var args := [Identifier(ProtoKey), v];
    assert IsPair(args, 0);
    assert Put([], ProtoKey, v) == [];
    assert GroupArgs(args) == GroupFrom(args, 2, Grouped([], []));
  }

  /** A call with one pair prints the pair as a trailing object literal (star-transpiler.ts:57-62). */
  lemma RenderPairCall(c: string, k: string, v: Expr)
    requires k != ProtoKey && !v.Identifier?
    ensures Render(Call(c, [Identifier(k), v])) == c + "({ " + k + ": " + Render(v) + " })"
  {
    LeadingPairIsNamed(k, v, []);
    assert [Identifier(k), v] + [] == [Identifier(k), v];
    RenderOnePair(c, k, v);
    OnePairText(c, k, Render(v));
  }

  lemma RenderOnePair(c: string, k: string, v: Expr)
    requires GroupArgs([Identifier(k), v]) == Grouped([], [(k, v)])
    ensures Render(Call(c, [Identifier(k), v])) == c + "(" + Join([] + ["{ " + Join([k + ": " + Render(v)], ", ") + " }"], ", ") + ")"
  {
  }

  lemma OnePairText(c: string, k: string, rv: string)
    ensures c + "(" + Join([] + ["{ " + Join([k + ": " + rv], ", ") + " }"], ", ") + ")" == c + "({ " + k + ": " + rv + " })"
  {
    var pair := k + ": " + rv;
    var obj := "{ " + Join([pair], ", ") + " }";
    assert [] + [obj] == [obj];
    assert Join([pair], ", ") == pair && Join([obj], ", ") == obj;
    assert "(" + "{ " == "({ " && " }" + ")" == " })";
  }

  /** Without pairs a rendered call reads like a `_call` line: the arguments in order (star-transpiler.ts:17-19, 57-62). */
  lemma CallWithoutPairsIsCallLine(c: string, args: seq<Expr>)
    requires forall j :: 0 <= j < |args| ==> !IsPair(args, j)
    ensures Render(Call(c, args)) == CallLine(Call(c, args))
  {
    UngroupedWithoutPairs(args);
    var g := GroupArgs(args);
    var parts := seq(|g.positional|, i requires 0 <= i < |g.positional| => Render(g.positional[i]));
    assert parts == RenderList(args);
    assert Render(Call(c, args)) == c + "(" + Join(parts, ", ") + ")";
  }

  /** A string literal is printed as JSON and reads back to the same text (section 7 of RFC 8259). */
  lemma RenderStringRoundTrip(t: string)
    ensures Unquote(Render(String(t))) == Some(t)
  {
    QuoteRoundTrip(t);
  }

  predicate OptNewlineFree(o: Option<string>)
  {
    o.Some? ==> '\n' !in o.value
  }

  /** No name, callee or operator in the tree holds a line break. */
  predicate NewlineFree(e: Expr)
    decreases e, 1
  {
    match e
    case Identifier(n) => '\n' !in n
    case Array(items) => NewlineFreeList(items)
    case Index(t, i) => NewlineFree(t) && NewlineFree(i)
    case Call(c, args) => '\n' !in c && NewlineFreeList(args)
    case Binary(op, operator, l, r) => OptNewlineFree(op) && OptNewlineFree(operator) && NewlineFree(l) && NewlineFree(r)
    case Unary(op, operator, x) => OptNewlineFree(op) && OptNewlineFree(operator) && NewlineFree(x)
    case _ => true
  }

  predicate NewlineFreeList(es: seq<Expr>)
    decreases es, 0
  {
    forall i :: 0 <= i < |es| ==> NewlineFree(es[i])
  }

  /** Rendering a tree without line breaks in its names gives one line of text. */
  lemma {:induction false} RenderNoNewline(e: Expr)
    requires NewlineFree(e)
    ensures '\n' !in Render(e)
    decreases e, 1
  {
    match e
    case Call(c, args) => RenderCallNoNewline(c, args);
    case Array(items) =>
      RenderListNoNewline(items);
      JoinAvoids(RenderList(items), ", ", '\n');
    case Index(_, _) => RenderOperatorNoNewline(e);
    case Unary(_, _, _) => RenderOperatorNoNewline(e);
    case Binary(_, _, _, _) => RenderOperatorNoNewline(e);
    case Unknown(_) => StringifyNoNewline(ExprJs(e));
    case _ =>
  }

  /** The index, unary and binary cases of `RenderNoNewline`: the parts are joined by newline-free text. */
  lemma {:induction false} RenderOperatorNoNewline(e: Expr)
    requires (e.Index? || e.Unary? || e.Binary?) && NewlineFree(e)
    ensures '\n' !in Render(e)
    decreases e, 0
  {
    match e
    case Index(t, i) =>
      RenderNoNewline(t);
      RenderNoNewline(i);
      assert Render(e) == Render(t) + "[" + Render(i) + "]";
    case Unary(op, operator, x) =>
      RenderNoNewline(x);
      assert Render(e) == UnaryOpText(op, operator) + Render(x);
    case Binary(op, operator, l, r) =>
      RenderNoNewline(l);
      RenderNoNewline(r);
      assert Render(e) == Render(l) + " " + BinaryOpText(op, operator) + " " + Render(r);
  }

  lemma {:induction false} RenderCallNoNewline(c: string, args: seq<Expr>)
    requires NewlineFree(Call(c, args))
    ensures '\n' !in Render(Call(c, args))
    decreases Call(c, args), 0
  {
    var g := GroupArgs(args);
    var parts := seq(|g.positional|, i requires 0 <= i < |g.positional| => Render(g.positional[i]));
    var pairs := seq(|g.named|, i requires 0 <= i < |g.named| => g.named[i].0 + ": " + Render(g.named[i].1));
    forall i | 0 <= i < |g.positional| ensures '\n' !in parts[i] {
      RenderNoNewline(g.positional[i]);
    }
    forall i | 0 <= i < |g.named| ensures '\n' !in pairs[i] {
      NamedKeyNewlineFree(args, g, i);
      RenderNoNewline(g.named[i].1);
    }
    JoinAvoids(pairs, ", ", '\n');
    var all := if pairs == [] then parts else parts + ["{ " + Join(pairs, ", ") + " }"];
    assert forall i :: 0 <= i < |all| ==> '\n' !in all[i];
    JoinAvoids(all, ", ", '\n');
  }

  lemma {:induction false} RenderListNoNewline(es: seq<Expr>)
    requires NewlineFreeList(es)
    ensures forall i :: 0 <= i < |es| ==> '\n' !in RenderList(es)[i]
    decreases es, 0
  {
    forall i | 0 <= i < |es| ensures '\n' !in RenderList(es)[i] {
      RenderNoNewline(es[i]);
    }
  }

  /** The name of a pair is the name of an Identifier argument. */
  lemma NamedKeyNewlineFree(args: seq<Expr>, g: Grouped, i: nat)
    requires NewlineFreeList(args) && g == GroupArgs(args) && i < |g.named|
    ensures '\n' !in g.named[i].0
  {
    NamedKeysFromArgs(args, 0, Grouped([], []));
  }

  /** Every pair name is the name of some Identifier argument. */
  lemma {:induction false} NamedKeysFromArgs(args: seq<Expr>, i: nat, acc: Grouped)
    requires i <= |args| && DistinctKeys(acc.named) && FromArgs(acc, args)
    requires forall j :: 0 <= j < |acc.named| ==> Identifier(acc.named[j].0) in args
    ensures forall j :: 0 <= j < |GroupFrom(args, i, acc).named| ==> Identifier(GroupFrom(args, i, acc).named[j].0) in args
    decreases |args| - i
  {
    if i < |args| {
      if IsPair(args, i) {
        var named := Put(acc.named, args[i].name, args[i + 1]);
        assert forall j :: 0 <= j < |named| ==> Identifier(named[j].0) in args;
        NamedKeysFromArgs(args, i + 2, acc.(named := named));
      } else {
        NamedKeysFromArgs(args, i + 1, acc.(positional := acc.positional + [args[i]]));
      }
    }
  }

  /** Every id and tree of the program is free of line breaks. */
  predicate ProgramNewlineFree(p: Program)
  {
    forall i :: 0 <= i < |p.assignments| ==> '\n' !in p.assignments[i].id && NewlineFree(p.assignments[i].expr)
  }

  lemma StarLineNoNewline(a: Assignment)
    requires '\n' !in a.id && NewlineFree(a.expr)
    ensures '\n' !in StarLine(a)
  {
    if a.id == CallId {
      if a.expr.Call? {
        RenderListNoNewline(a.expr.args);
        JoinAvoids(RenderList(a.expr.args), ", ", '\n');
      }
    } else {
      RenderNoNewline(a.expr);
    }
  }

  /**
   * The printed program splits back into exactly one line per assignment, in
   * order (star-transpiler.ts:13-24).
   */
  lemma PrintedLinesSplitBack(p: Program)
    requires |p.assignments| >= 1 && ProgramNewlineFree(p)
    ensures Split(Join(StarLines(p), "\n"), '\n') == StarLines(p)
  {
    var lines := StarLines(p);
    forall i | 0 <= i < |lines| ensures '\n' !in lines[i] {
      StarLineNoNewline(p.assignments[i]);
    }
    SplitJoin(lines, '\n');
  }

  /** One character of `EscapeAsWritten`. */
  function EscapeCharAsWritten(x: char): string
  {
    if x == '\\' then "\\\\" else if x == '`' then "\\`" else [x]
  }

  /** One character of `EscapeCorrected`. */
  function EscapeCharCorrected(x: char): string
  {
    if x == '$' then "\\$" else EscapeCharAsWritten(x)
  }

  /** Replacing a one-character pattern works character by character. */
  lemma ReplaceCharCons(x: char, t: string, c: char, rep: string)
    ensures ReplaceAll([x] + t, [c], rep) == (if x == c then rep else [x]) + ReplaceAll(t, [c], rep)
  {
    if x == c {
      ReplaceAllHit(t, [c], rep);
    } else {
      ReplaceAllSkip(x, t, [c], rep);
    }
  }

  lemma {:induction false} ReplaceCharAppend(a: string, b: string, c: char, rep: string)
    ensures ReplaceAll(a + b, [c], rep) == ReplaceAll(a, [c], rep) + ReplaceAll(b, [c], rep)
    decreases |a|
  {
    if a == [] {
      assert a + b == b;
      assert ReplaceAll(a, [c], rep) == [];
    } else {
      var x, t := a[0], a[1..];
      var head := if x == c then rep else [x];
      assert a + b == [x] + (t + b);
      assert a == [x] + t;
      ReplaceCharCons(x, t + b, c, rep);
      ReplaceCharCons(x, t, c, rep);
      ReplaceCharAppend(t, b, c, rep);
      calc {
        ReplaceAll(a + b, [c], rep);
        head + ReplaceAll(t + b, [c], rep);
        head + (ReplaceAll(t, [c], rep) + ReplaceAll(b, [c], rep));
        (head + ReplaceAll(t, [c], rep)) + ReplaceAll(b, [c], rep);
        ReplaceAll(a, [c], rep) + ReplaceAll(b, [c], rep);
      }
    }
  }

  lemma EscapeAsWrittenCons(x: char, t: string)
    ensures EscapeAsWritten([x] + t) == EscapeCharAsWritten(x) + EscapeAsWritten(t)
  {
    ReplaceCharCons(x, t, '\\', "\\\\");
    var first := if x == '\\' then "\\\\" else [x];
    var mid := ReplaceAll(t, "\\", "\\\\");
    ReplaceCharAppend(first, mid, '`', "\\`");
    if x == '\\' {
      ReplaceAllAbsent(first, "`", "\\`");
    } else {
      ReplaceCharCons(x, [], '`', "\\`");
      assert ReplaceAll([], "`", "\\`") == [];
    }
  }

  lemma EscapeCorrectedCons(x: char, t: string)
    ensures EscapeCorrected([x] + t) == EscapeCharCorrected(x) + EscapeCorrected(t)
  {
    EscapeAsWrittenCons(x, t);
    var first := EscapeCharAsWritten(x);
    ReplaceCharAppend(first, EscapeAsWritten(t), '$', "\\$");
    if x == '\\' || x == '`' {
      assert first[0] == '\\' && first[1..] == [x];
      ReplaceCharCons('\\', [x], '$', "\\$");
      ReplaceCharCons(x, [], '$', "\\$");
      assert ReplaceAll([], "$", "\\$") == [];
      assert first == ['\\'] + [x];
    } else {
      ReplaceCharCons(x, [], '$', "\\$");
      assert ReplaceAll([], "$", "\\$") == [];
    }
  }

  /** `${` occurs in the text. */
  predicate HasSubstitutionStart(s: string)
  {
    exists i :: 0 <= i < |s| - 1 && s[i] == '$' && s[i + 1] == '{'
  }

  lemma SubstitutionStartCons(s: string)
    requires s != []
    ensures HasSubstitutionStart(s) <==> (|s| >= 2 && s[0] == '$' && s[1] == '{') || HasSubstitutionStart(s[1..])
  {
    if HasSubstitutionStart(s) {
      var i :| 0 <= i < |s| - 1 && s[i] == '$' && s[i + 1] == '{';
      if i > 0 {
        assert s[1..][i - 1] == '$' && s[1..][i] == '{';
      }
    }
    if HasSubstitutionStart(s[1..]) {
      var i :| 0 <= i < |s| - 2 && s[1..][i] == '$' && s[1..][i + 1] == '{';
      assert s[i + 1] == '$' && s[i + 2] == '{';
    }
  }

  /** The first character of the as-written escape of a non-empty text. */
  lemma EscapeAsWrittenHead(t: string)
    requires t != []
    ensures EscapeAsWritten(t) != []
    ensures EscapeAsWritten(t)[0] == if t[0] == '\\' || t[0] == '`' then '\\' else t[0]
  {
    EscapeAsWrittenCons(t[0], t[1..]);
    assert [t[0]] + t[1..] == t;
  }

  /**
   * The embedding as written gives the JSON back exactly when the JSON holds
   * no `${`; with a `${` the template literal starts a substitution instead
   * (star-transpiler.ts:35-36).
   */
  lemma {:induction false} CookAsWritten(s: string)
    ensures Cook(EscapeAsWritten(s)) == if HasSubstitutionStart(s) then None else Some(s)
    decreases |s|
  {
    if s == [] {
      assert EscapeAsWritten(s) == [];
    } else {
      var x := s[0];
      var rest := s[1..];
      assert s == [x] + rest;
      EscapeAsWrittenCons(x, rest);
      CookAsWritten(rest);
      SubstitutionStartCons(s);
      var tail := EscapeAsWritten(rest);
      var t := EscapeCharAsWritten(x) + tail;
      if x == '\\' || x == '`' {
        assert t[0] == '\\' && t[1] == x && t[2..] == tail;
      } else if x == '$' {
        assert t[1..] == tail;
        if rest != [] {
          EscapeAsWrittenHead(rest);
        }
      } else {
        assert t[1..] == tail;
      }
    }
  }

  /** With `$` escaped as well, the embedding always gives the JSON back. */
  lemma {:induction false} CookCorrected(s: string)
    ensures Cook(EscapeCorrected(s)) == Some(s)
    decreases |s|
  {
    if s == [] {
      assert EscapeAsWritten(s) == [];
      assert EscapeCorrected(s) == [];
    } else {
      var x := s[0];
      var rest := s[1..];
      assert s == [x] + rest;
      EscapeCorrectedCons(x, rest);
      CookCorrected(rest);
      var tail := EscapeCorrected(rest);
      var t := EscapeCharCorrected(x) + tail;
      if x == '\\' || x == '`' || x == '$' {
        assert t[0] == '\\' && t[1] == x && t[2..] == tail;
      } else {
        assert t[1..] == tail;
      }
    }
  }

  /** The template literal of the emitted module evaluates to the JSON of the transformed program. */
  lemma ModuleEmbedsJson(source: string)
    ensures var m := TranspileToJsModule(source);
      |ModulePrefix| + |ModuleSuffix| <= |m| &&
      Cook(m[|ModulePrefix|..|m| - |ModuleSuffix|]) == Some(ModuleJson(source))
  {
    var m := TranspileToJsModule(source);
    assert m[|ModulePrefix|..|m| - |ModuleSuffix|] == EscapeCorrected(ModuleJson(source));
    CookCorrected(ModuleJson(source));
  }

  /** As written, the module's template literal breaks on any program whose JSON holds `${`. */
  lemma ModuleAsWrittenBreaks(source: string)
    requires HasSubstitutionStart(ModuleJson(source))
    ensures var m := TranspileToJsModuleAsWritten(source);
      |ModulePrefix| + |ModuleSuffix| <= |m| &&
      Cook(m[|ModulePrefix|..|m| - |ModuleSuffix|]).None?
  {
    var m := TranspileToJsModuleAsWritten(source);
    assert m[|ModulePrefix|..|m| - |ModuleSuffix|] == EscapeAsWritten(ModuleJson(source));
    CookAsWritten(ModuleJson(source));
  }

  /** A `${` inside a text is still inside any text around it. */
  lemma SubstitutionStartInfix(a: string, x: string, b: string)
    requires HasSubstitutionStart(x)
    ensures HasSubstitutionStart(a + x + b)
  {
    var i :| 0 <= i < |x| - 1 && x[i] == '$' && x[i + 1] == '{';
    var s := a + x + b;
    assert s[|a| + i] == '$' && s[|a| + i + 1] == '{';
  }

  /** Escaping a text is escaping its first character and then the rest. */
  lemma EscapeCons(s: string)
    requires s != []
    ensures Escape(s) == EscapeChar(s[0]) + Escape(s[1..])
  {
  }

  /** A text that starts with `${` escapes to a text that starts with `${`. */
  lemma EscapeOfDollarBrace(s: string)
    requires |s| >= 2 && s[0] == '$' && s[1] == '{'
    ensures |Escape(s)| >= 2 && Escape(s)[0] == '$' && Escape(s)[1] == '{'
  {
    var t := s[2..];
    assert s == ['$', '{'] + t;
    EscapeTwo('$', '{', t);
    PlainCharEscape('$');
    PlainCharEscape('{');
    var e := ['$'] + (['{'] + Escape(t));
    assert e[0] == '$' && e[1] == '{';
  }

  lemma EscapeTwo(x: char, y: char, t: string)
    ensures Escape([x, y] + t) == EscapeChar(x) + (EscapeChar(y) + Escape(t))
  {
    var s := [x, y] + t;
    assert s[0] == x && s[1..] == [y] + t;
    assert ([y] + t)[0] == y && ([y] + t)[1..] == t;
    EscapeCons(s);
    EscapeCons([y] + t);
  }

  /** A printable character other than a quote or a backslash is written as itself. */
  lemma PlainCharEscape(c: char)
    requires c >= ' ' && c != '"' && c != '\\'
    ensures EscapeChar(c) == [c]
  {
  }

  /** JSON string escaping leaves `$` and `{` alone, so a `${` survives it. */
  lemma {:induction false} EscapeKeepsSubstitutionStart(s: string)
    requires HasSubstitutionStart(s)
    ensures HasSubstitutionStart(Escape(s))
    decreases |s|
  {
    SubstitutionStartCons(s);
    if s[0] == '$' && s[1] == '{' {
      EscapeOfDollarBrace(s);
    } else {
      EscapeKeepsSubstitutionStart(s[1..]);
      EscapeCons(s);
      SubstitutionStartInfix(EscapeChar(s[0]), Escape(s[1..]), []);
      assert Escape(s) == EscapeChar(s[0]) + Escape(s[1..]) + [];
    }
  }

  /** The one-line program whose only line is an indicator declaration. */
  lemma IndicatorOnlyProgram(source: string)
    requires '\n' !in source && StartsWith(Trim(source), "indicator")
    ensures TranspiledProgram(source) == Program([Trim(source)], [])
  {
    assert StarParser.Lines(source) == [source];
    assert StarParser.ParseLine(source) == StarParser.IndicatorLine(Trim(source));
    assert [source][..0] == [];
    assert StarParser.ParseLines([source])
      == StarParser.AddLine(StarParser.Assemble(StarParser.ParseLine, []), StarParser.ParseLine(source));
  }

  /** The JSON array `[t]` holds a `${` of `t`. */
  lemma StringArrayKeepsSubstitutionStart(t: string)
    requires HasSubstitutionStart(t)
    ensures HasSubstitutionStart(Stringify(JArr([JStr(t)])))
  {
    EscapeKeepsSubstitutionStart(t);
    SubstitutionStartInfix("\"", Escape(t), "\"");
    assert StringifyItems([JStr(t)]) == [Quote(t)];
    assert Stringify(JArr([JStr(t)])) == "[" + Quote(t) + "]";
    SubstitutionStartInfix("[", Quote(t), "]");
  }

  /** A defined field is written, in its place. */
  lemma FieldsCons(f: (string, Js), rest: seq<(string, Js)>)
    requires f.1 != JUndef
    ensures StringifyFields([f] + rest) == [StringifyField(f)] + StringifyFields(rest)
  {
    assert ([f] + rest)[0] == f && ([f] + rest)[1..] == rest;
  }

  /** An object of three defined fields is written as the three fields in order. */
  lemma ThreeFieldObject(a: (string, Js), b: (string, Js), c: (string, Js))
    requires a.1 != JUndef && b.1 != JUndef && c.1 != JUndef
    ensures Stringify(JObj([a, b, c])) ==
      "{" + StringifyField(a) + "," + StringifyField(b) + ("," + StringifyField(c) + "}")
  {
    var sa, sb, sc := StringifyField(a), StringifyField(b), StringifyField(c);
    ThreeFields(a, b, c);
    JoinThree(sa, sb, sc);
    ObjectText([a, b, c]);
    BracedThree(sa, sb, sc);
  }

  lemma BracedThree(x: string, y: string, z: string)
    ensures "{" + (x + "," + (y + "," + z)) + "}" == "{" + x + "," + y + ("," + z + "}")
  {
  }

  lemma ObjectText(fields: seq<(string, Js)>)
    ensures Stringify(JObj(fields)) == "{" + Join(StringifyFields(fields), ",") + "}"
  {
  }

  lemma ThreeFields(a: (string, Js), b: (string, Js), c: (string, Js))
    requires a.1 != JUndef && b.1 != JUndef && c.1 != JUndef
    ensures StringifyFields([a, b, c]) == [StringifyField(a), StringifyField(b), StringifyField(c)]
  {
    FieldsCons(c, []);
    FieldsCons(b, [c]);
    FieldsCons(a, [b, c]);
    assert [a] + ([b] + [c]) == [a, b, c];
  }

  lemma JoinThree(x: string, y: string, z: string)
    ensures Join([x, y, z], ",") == x + "," + (y + "," + z)
  {
    assert [x, y, z][1..] == [y, z] && [y, z][1..] == [z];
    assert Join([z], ",") == z;
    assert Join([y, z], ",") == y + "," + z;
  }

  /** The text of an object with three defined fields. */
  lemma ThreeFieldText(a: (string, Js), b: (string, Js), c: (string, Js))
    requires a.1 != JUndef && b.1 != JUndef && c.1 != JUndef
    ensures Stringify(JObj([a, b, c])) ==
      "{" + StringifyField(a) + "," + StringifyField(b) + ("," + StringifyField(c) + "}")
  {
    ThreeFieldObject(a, b, c);
    JoinThree(StringifyField(a), StringifyField(b), StringifyField(c));
  }

  /** The JSON of the program with the one indicator `t`: its three fields in order. */
  lemma IndicatorProgramJson(t: string)
    ensures Stringify(TransformedProgramJs(Program([t], []))) ==
      "{" + StringifyField(("version", JNull)) + ","
      + StringifyField(("indicators", JArr([JStr(t)])))
      + ("," + StringifyField(("assignments", JArr([]))) + "}")
  {
    IndicatorProgramJs(t);
    ThreeFieldText(("version", JNull), ("indicators", JArr([JStr(t)])), ("assignments", JArr([])));
  }

  lemma IndicatorProgramJs(t: string)
    ensures TransformedProgramJs(Program([t], [])) ==
      JObj([("version", JNull), ("indicators", JArr([JStr(t)])), ("assignments", JArr([]))])
  {
    assert StrsJs([t]) == [JStr(t)];
    assert AssignmentsJs([]) == [];
  }

  /** The JSON of the program with the one indicator `t` holds a `${` of `t`. */
  lemma IndicatorJsonKeepsSubstitutionStart(t: string)
    requires HasSubstitutionStart(t)
    ensures HasSubstitutionStart(Stringify(TransformedProgramJs(Program([t], []))))
  {
    IndicatorProgramJson(t);
    IndicatorsFieldKeepsSubstitutionStart(t);
    MiddleFieldKeepsSubstitutionStart(StringifyField(("version", JNull)),
      StringifyField(("indicators", JArr([JStr(t)]))), StringifyField(("assignments", JArr([]))));
  }

  lemma IndicatorsFieldKeepsSubstitutionStart(t: string)
    requires HasSubstitutionStart(t)
    ensures HasSubstitutionStart(StringifyField(("indicators", JArr([JStr(t)]))))
  {
    StringArrayKeepsSubstitutionStart(t);
    FieldKeepsSubstitutionStart("indicators", JArr([JStr(t)]));
  }

  lemma FieldKeepsSubstitutionStart(k: string, v: Js)
    requires HasSubstitutionStart(Stringify(v))
    ensures HasSubstitutionStart(StringifyField((k, v)))
  {
    assert StringifyField((k, v)) == Quote(k) + ":" + Stringify(v) + [];
    SubstitutionStartInfix(Quote(k) + ":", Stringify(v), []);
  }

  lemma MiddleFieldKeepsSubstitutionStart(f1: string, f2: string, f3: string)
    requires HasSubstitutionStart(f2)
    ensures HasSubstitutionStart("{" + f1 + "," + f2 + ("," + f3 + "}"))
  {
    SubstitutionStartInfix("{" + f1 + ",", f2, "," + f3 + "}");
  }

  /**
   * An indicator line whose text holds `${` (a title such as
   * `indicator("cost ${x}")`) is copied into the JSON the module embeds, so
   * the module as written cannot give that JSON back (star-parser/index.ts:72-75,
   * star-transpiler.ts:35-36).
   */
  lemma IndicatorDollarBraceBreaksModule(source: string)
    requires '\n' !in source && StartsWith(Trim(source), "indicator")
    requires HasSubstitutionStart(Trim(source))
    ensures HasSubstitutionStart(ModuleJson(source))
    ensures Cook(EscapeAsWritten(ModuleJson(source))).None?
  {
    IndicatorOnlyProgram(source);
    IndicatorJsonKeepsSubstitutionStart(Trim(source));
    CookAsWritten(ModuleJson(source));
  }

  /** The one-line program `indicator ${x}` breaks the module as written. */
  lemma DollarBraceIndicatorBreaksModule(source: string)
    requires source == "indicator ${x}"
    ensures HasSubstitutionStart(ModuleJson(source))
    ensures Cook(EscapeAsWritten(ModuleJson(source))).None?
  {
    DollarBraceIndicatorLine(source);
    IndicatorDollarBraceBreaksModule(source);
  }

  lemma DollarBraceIndicatorLine(source: string)
    requires source == "indicator ${x}"
    ensures '\n' !in source && StartsWith(Trim(source), "indicator") && HasSubstitutionStart(Trim(source))
  {
    assert source[0] == 'i' && source[|source| - 1] == '}';
    TrimOfTrimmed(source);
    assert source[10] == '$' && source[11] == '{';
    assert source[..9] == "indicator";
  }

  /** Splits a dotted name at its first dot. */
  lemma SplitDotted(head: string, rest: string)
    requires '.' !in head
    ensures Split(head + "." + rest, '.') == [head] + Split(rest, '.')
  {
    SplitAtFirst(head, rest, '.');
  }

  /** One segment of a path looked up in an object of variables. */
  lemma ResolveObjectStep(vars: map<string, Value>, k: string, rest: seq<string>)
    ensures ResolveFrom(VObj(vars), [k] + rest) == ResolveFrom(Lookup(vars, k), rest)
  {
    assert ([k] + rest)[1..] == rest;
  }

  /** `ta.*`, `request.*` and `input.*` callees are moved under `star.` (star-ast-transform.ts:52-56). */
  lemma NamespacedCalleeNormalized(head: string, rest: string)
    requires head == "ta" || head == "request" || head == "input"
    ensures NormalizeCallee(head + "." + rest) == "star." + head + "." + rest
  {
    var c := head + "." + rest;
    assert c[0] == head[0] && c[|head|] == '.';
    assert c != "" && c != "plot";
    if head == "input" {
      assert c[..5] == "input";
    } else if head == "ta" {
      assert c[..1] == "t" && c[1] == 'a';
      assert !StartsWith(c, "input");
      assert c[..3] == "ta.";
    } else {
      assert c[0] == 'r';
      assert !StartsWith(c, "input") && !StartsWith(c, "ta.");
      assert c[..8] == "request.";
    }
  }

  /** Each namespace under `star` holds what the top-level name holds. */
  lemma StarNamespaceField(vars: map<string, Value>, head: string)
    requires head in {"plot", "ta", "request", "input"}
    ensures Lookup(StarNamespace(vars).fields, head) == Lookup(vars, head)
  {
    if head == "plot" {
    } else if head == "ta" {
    } else if head == "request" {
    } else {
    }
  }

  /** Under `star`, each of the seven namespaces resolves as it does at the top level. */
  lemma StarPrefixResolves(vars: map<string, Value>, head: string, tail: seq<string>)
    requires "star" in vars && vars["star"] == StarNamespace(vars)
    requires head in {"plot", "ta", "request", "input"}
    ensures ResolveFrom(VObj(vars), ["star", head] + tail) == ResolveFrom(VObj(vars), [head] + tail)
  {
    var ns := StarNamespace(vars);
    assert ["star", head] + tail == ["star"] + ([head] + tail);
    ResolveObjectStep(vars, "star", [head] + tail);
    assert Lookup(vars, "star") == ns;
    ResolveObjectStep(ns.fields, head, tail);
    StarNamespaceField(vars, head);
    ResolveObjectStep(vars, head, tail);
  }

  /** The path `star.c` splits into `star` and the segments of `c`. */
  lemma StarPathSplit(c: string)
    ensures Split("star." + c, '.') == ["star"] + Split(c, '.')
  {
    assert "star." + c == "star" + "." + c;
    SplitDotted("star", c);
  }

  /** A path whose first segment is one of the namespaces resolves the same with `star.` in front. */
  lemma StarPathResolves(vars: map<string, Value>, c: string, head: string, tail: seq<string>)
    requires "star" in vars && vars["star"] == StarNamespace(vars)
    requires head in {"plot", "ta", "request", "input"} && Split(c, '.') == [head] + tail
    ensures ResolvePath(vars, "star." + c) == ResolvePath(vars, c)
  {
    StarPathSplit(c);
    assert ["star"] + ([head] + tail) == ["star", head] + tail;
    StarPrefixResolves(vars, head, tail);
  }

  /**
   * In the module's environment, a callee the rewrite moved under `star.`
   * resolves to what the original name resolves to, as long as `star` still
   * holds the namespaces (star-transpiler.ts:36, star-ast-transform.ts:52-56).
   */
  lemma NamespacedCalleeResolves(vars: map<string, Value>, head: string, rest: string)
    requires "star" in vars && vars["star"] == StarNamespace(vars)
    requires head == "ta" || head == "request" || head == "input"
    ensures ResolvePath(vars, NormalizeCallee(head + "." + rest)) == ResolvePath(vars, head + "." + rest)
  {
    var c := head + "." + rest;
    NamespacedCalleeNormalized(head, rest);
    assert "star." + head + "." + rest == "star." + c;
    SplitDotted(head, rest);
    StarPathResolves(vars, c, head, Split(rest, '.'));
  }

  /** `plot` becomes `star.plot`, which resolves to the same function. */
  lemma PlotCalleeResolves(vars: map<string, Value>)
    requires "star" in vars && vars["star"] == StarNamespace(vars)
    ensures ResolvePath(vars, NormalizeCallee("plot")) == ResolvePath(vars, "plot")
  {
    assert NormalizeCallee("plot") == "star." + "plot";
    assert Split("plot", '.') == ["plot"] + [];
    StarPathResolves(vars, "plot", "plot", []);
  }
}
