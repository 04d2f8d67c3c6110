/**
 * Properties of the parser-diff script: what the hand parser builds is
 * already canonical, a generated program carrying the same trees is
 * brought to exactly the hand parser's object, falsy items vanish, and
 * identical parser results never count as a difference.
 */
module ParserDiffProps {
  import opened Wrappers
  import opened StarAst
  import opened StarParser
  import opened StarParserProps
  import opened Js
  import opened StarJson
  import opened ParserDiff

  /** A rebuilt Call node with its callee normalises to itself when its arguments do. */
  lemma CallNormalized(c: Js, xs: seq<Js>)
    requires NormalizeArgs(xs) == Some(xs)
    ensures var n := JObj([("type", JStr("Call")), ("callee", c), ("args", JArr(xs))]);
      NormalizeExpr(n) == Some(n)
  {
    var fs := [("type", JStr("Call")), ("callee", c), ("args", JArr(xs))];
    GetFieldFirst(fs, "type", 0);
    GetFieldFirst(fs, "callee", 1);
    GetFieldFirst(fs, "args", 2);
  }

  lemma IndexNormalized(t: Js, i: Js)
    requires NormalizeExpr(t) == Some(t) && NormalizeExpr(i) == Some(i)
    ensures var n := JObj([("type", JStr("Index")), ("target", t), ("index", i)]);
      NormalizeExpr(n) == Some(n)
  {
    var fs := [("type", JStr("Index")), ("target", t), ("index", i)];
    GetFieldFirst(fs, "type", 0);
    GetFieldFirst(fs, "target", 1);
    GetFieldFirst(fs, "index", 2);
    assert !HasType(JObj(fs), "Call");
  }

  lemma ArrayNormalized(xs: seq<Js>)
    requires NormalizeList(xs) == Some(xs)
    ensures NormalizeExpr(Leaf("Array", "items", JArr(xs))) == Some(Leaf("Array", "items", JArr(xs)))
  {
    var n := Leaf("Array", "items", JArr(xs));
    assert !HasType(n, "Call") && !HasType(n, "Index") && HasType(n, "Array");
    assert ListOf(n, "items") == JArr(xs);
  }

  /** A leaf is rebuilt as itself. */
  lemma LeafNormalized(t: string, k: string, v: Js)
    requires ((t == "Number" || t == "String") && k == "value") || (t == "Identifier" && k == "name")
    ensures NormalizeExpr(Leaf(t, k, v)) == Some(Leaf(t, k, v))
  {
    var n := Leaf(t, k, v);
    assert !HasType(n, "Call") && !HasType(n, "Index") && !HasType(n, "Array");
  }

  lemma UnknownNormalized(raw: string)
    ensures NormalizeExpr(ExprJs(Unknown(raw))) == Some(ExprJs(Unknown(raw)))
  {
    var fs := [("type", JStr("Unknown")), ("raw", JStr(raw))];
    GetFieldFirst(fs, "type", 0);
    assert HasType(JObj(fs), "Unknown");
  }

  /**
   * A tree without operator nodes, which is every tree the hand parser
   * builds, is already in the canonical shape (generate-parser-diff.cjs:65-85).
   */
  lemma {:induction false} HandTreeNormalized(e: Expr)
    requires NoOperators(e)
    ensures NormalizeExpr(ExprJs(e)) == Some(ExprJs(e))
    decreases e, 1
  {
    match e
    case Number(d) => LeafNormalized("Number", "value", JNum(d));
    case String(t) => LeafNormalized("String", "value", JStr(t));
    case Identifier(n) => LeafNormalized("Identifier", "name", JStr(n));
    case Unknown(raw) => UnknownNormalized(raw);
    case Array(items) =>
      HandListNormalized(items);
      ArrayNormalized(ExprsJs(items));
    case Index(t, i) =>
      HandTreeNormalized(t);
      HandTreeNormalized(i);
      IndexNormalized(ExprJs(t), ExprJs(i));
    case Call(c, args) =>
      HandArgsNormalized(args);
      CallNormalized(JStr(c), ExprsJs(args));
  }

  lemma {:induction false} HandListNormalized(es: seq<Expr>)
    requires NoOperatorsList(es)
    ensures NormalizeList(ExprsJs(es)) == Some(ExprsJs(es))
    decreases es, 0
  {
    if es != [] {
      HandTreeNormalized(es[0]);
      HandListNormalized(es[1..]);
      var xs := ExprsJs(es);
      assert xs[1..] == ExprsJs(es[1..]);
      assert xs == [xs[0]] + xs[1..];
    }
  }

  /** Call arguments of a hand tree are node objects, never strings, so each is normalised like any node. */
  lemma {:induction false} HandArgsNormalized(es: seq<Expr>)
    requires NoOperatorsList(es)
    ensures NormalizeArgs(ExprsJs(es)) == Some(ExprsJs(es))
    decreases es, 0
  {
    if es != [] {
      HandTreeNormalized(es[0]);
      HandArgsNormalized(es[1..]);
      var xs := ExprsJs(es);
      assert xs[1..] == ExprsJs(es[1..]);
      assert xs == [xs[0]] + xs[1..];
    }
  }

  /** Every expression of the program is free of operator nodes. */
  predicate OperatorFree(p: Program)
  {
    forall i :: 0 <= i < |p.assignments| ==> NoOperators(p.assignments[i].expr)
  }

  /** `{id: a.id, expr: normalizeExpr(a.expr)}` rebuilds each hand entry as itself. */
  lemma {:induction false} HandEntriesNormalized(as_: seq<Assignment>)
    requires forall i :: 0 <= i < |as_| ==> NoOperators(as_[i].expr)
    ensures NormalizeHandEntries(AssignmentsJs(as_)) == Some(AssignmentsJs(as_))
  {
    if as_ != [] {
      var xs := AssignmentsJs(as_);
      var x := xs[0];
      assert x == AssignmentJs(as_[0]);
      assert xs[1..] == AssignmentsJs(as_[1..]);
      assert xs == [x] + xs[1..];
      HandEntryFields(as_[0]);
      HandTreeNormalized(as_[0].expr);
      HandEntriesNormalized(as_[1..]);
      HandEntriesCons(x, xs[1..]);
    }
  }

  /** A hand entry reads back its id and its expression. */
  lemma HandEntryFields(a: Assignment)
    ensures Get(AssignmentJs(a), "id") == JStr(a.id) && Get(AssignmentJs(a), "expr") == ExprJs(a.expr)
  {
    var fs := [("id", JStr(a.id)), ("expr", ExprJs(a.expr))];
    GetFieldFirst(fs, "id", 0);
    GetFieldFirst(fs, "expr", 1);
  }

  /** The loop over hand entries: the first entry, then the rest. */
  lemma HandEntriesCons(x: Js, rest: seq<Js>)
    requires !IsNullish(x)
    ensures NormalizeHandEntries([x] + rest) ==
      match (NormalizeExpr(Get(x, "expr")), NormalizeHandEntries(rest))
      case (Some(e), Some(xs)) => Some([JObj([("id", Get(x, "id")), ("expr", e)])] + xs)
      case _ => None
  {
    assert ([x] + rest)[0] == x && ([x] + rest)[1..] == rest;
  }

  /** The object the hand parser returns is left as it is by `normalizeAst` (generate-parser-diff.cjs:58-61). */
  lemma HandProgramNormalized(p: Program)
    requires OperatorFree(p)
    ensures NormalizeAst(HandProgramJs(p)) == Some(HandProgramJs(p))
  {
    var ast := HandProgramJs(p);
    GetFieldFirst(ast.fields, "indicators", 0);
    GetFieldFirst(ast.fields, "assignments", 1);
    assert forall j :: 0 <= j < |ast.fields| ==> ast.fields[j].0 != "type";
    assert !HasType(ast, "Program");
    HandEntriesNormalized(p.assignments);
  }

  /** For every source text, the hand parser's result passes normalisation unchanged. */
  lemma ParsedProgramNormalized(src: string)
    ensures NormalizeAst(HandProgramJs(ParseLines(Lines(src)))) == Some(HandProgramJs(ParseLines(Lines(src))))
  {
    var p := ParseLines(Lines(src));
    forall i | 0 <= i < |p.assignments|
      ensures NoOperators(p.assignments[i].expr)
    {
      ParsedAssignmentsShape(src, i);
    }
    HandProgramNormalized(p);
  }

  /** One entry as a generated parser writes it: an `Assignment` node with its id and expression. */
  function GeneratedItem(a: Assignment): Js
  {
    JObj([("type", JStr("Assignment")), ("id", JStr(a.id)), ("expr", ExprJs(a.expr))])
  }

  function GeneratedItems(as_: seq<Assignment>): (r: seq<Js>)
    ensures |r| == |as_| && forall i :: 0 <= i < |as_| ==> r[i] == GeneratedItem(as_[i])
  {
    seq(|as_|, i requires 0 <= i < |as_| => GeneratedItem(as_[i]))
  }

  /** A generated program: `{type: 'Program', indicators, assignments}`. */
  function GeneratedProgramJs(p: Program): Js
  {
    JObj([("type", JStr("Program")), ("indicators", JArr(StrsJs(p.indicators))), ("assignments", JArr(GeneratedItems(p.assignments)))])
  }

  lemma GeneratedItemNormalized(a: Assignment)
    requires NoOperators(a.expr)
    ensures NormalizeItem(GeneratedItem(a)) == Some(Some(AssignmentJs(a)))
  {
    var f0, f1, f2 := ("type", JStr("Assignment")), ("id", JStr(a.id)), ("expr", ExprJs(a.expr));
    GetField3(f0, f1, f2, "type");
    GetField3(f0, f1, f2, "id");
    GetField3(f0, f1, f2, "expr");
    HandTreeNormalized(a.expr);
  }

  /** One more pushed element extends the loop's result by that element. */
  lemma GatherSnoc<A, B>(xs: seq<A>, x: A, y: B, step: A -> Option<Option<B>>)
    requires Gather(xs, step).Some? && step(x) == Some(Some(y))
    ensures Gather(xs + [x], step) == Some(Gather(xs, step).value + [y])
  {
    assert (xs + [x])[..|xs|] == xs;
  }

  lemma AssignmentsJsSnoc(as_: seq<Assignment>, a: Assignment)
    ensures AssignmentsJs(as_ + [a]) == AssignmentsJs(as_) + [AssignmentJs(a)]
  {
  }

  lemma GeneratedItemsSnoc(as_: seq<Assignment>, a: Assignment)
    ensures GeneratedItems(as_ + [a]) == GeneratedItems(as_) + [GeneratedItem(a)]
  {
  }

  lemma {:induction false} GeneratedItemsNormalized(as_: seq<Assignment>)
    requires forall i :: 0 <= i < |as_| ==> NoOperators(as_[i].expr)
    ensures Gather(GeneratedItems(as_), NormalizeItem) == Some(AssignmentsJs(as_))
  {
    if as_ != [] {
      var n := |as_| - 1;
      var front := as_[..n];
      assert as_ == front + [as_[n]];
      GeneratedItemsNormalized(front);
      GeneratedItemNormalized(as_[n]);
      GeneratedItemsSnoc(front, as_[n]);
      AssignmentsJsSnoc(front, as_[n]);
      GatherSnoc(GeneratedItems(front), GeneratedItem(as_[n]), AssignmentJs(as_[n]), NormalizeItem);
    }
  }

  /**
   * A generated parser that builds the hand parser's trees inside
   * `Program`/`Assignment` nodes is normalised to exactly the hand parser's
   * object, so the two serialise identically (generate-parser-diff.cjs:42-56).
   */
  lemma GeneratedProgramMatchesHand(p: Program)
    requires OperatorFree(p)
    ensures NormalizeAst(GeneratedProgramJs(p)) == Some(HandProgramJs(p))
  {
    var f0, f1, f2 := ("type", JStr("Program")), ("indicators", JArr(StrsJs(p.indicators))), ("assignments", JArr(GeneratedItems(p.assignments)));
    var ast := JObj([f0, f1, f2]);
    assert ast == GeneratedProgramJs(p);
    GetField3(f0, f1, f2, "type");
    GetField3(f0, f1, f2, "indicators");
    GetField3(f0, f1, f2, "assignments");
    GeneratedItemsNormalized(p.assignments);
    NormalizeProgramNode(ast);
  }

  /** A `Program` node with a list of assignments is normalised item by item. */
  lemma NormalizeProgramNode(ast: Js)
    requires Truthy(ast) && HasType(ast, "Program") && IsArrayField(ast, "assignments")
    ensures NormalizeAst(ast) ==
      match NormalizeItems(Get(ast, "assignments").items)
      case Some(xs) => Some(JObj([("indicators", Or(Get(ast, "indicators"), JArr([]))), ("assignments", JArr(xs))]))
      case None => None
  {
  }

  /** A push loop over two pieces gives the concatenation of the two loops' results. */
  lemma {:induction false} GatherAppend<A, B>(xs: seq<A>, ys: seq<A>, step: A -> Option<Option<B>>)
    requires Gather(xs, step).Some? && Gather(ys, step).Some?
    ensures Gather(xs + ys, step) == Some(Gather(xs, step).value + Gather(ys, step).value)
    decreases |ys|
  {
    if ys == [] {
      assert xs + ys == xs;
      assert Gather(xs, step).value + [] == Gather(xs, step).value;
    } else {
      var n := |ys| - 1;
      var zs := xs + ys;
      assert zs[..|zs| - 1] == xs + ys[..n];
      assert zs[|zs| - 1] == ys[n];
      var last := step(ys[n]);
      GatherAppend(xs, ys[..n], step);
      var tail := if last.value.Some? then [last.value.value] else [];
      assert Gather(xs, step).value + Gather(ys[..n], step).value + tail
          == Gather(xs, step).value + (Gather(ys[..n], step).value + tail);
    }
  }

  /** A falsy item, wherever it sits, contributes nothing (generate-parser-diff.cjs:45). */
  lemma FalsyItemSkipped(xs: seq<Js>, f: Js, ys: seq<Js>)
    requires !Truthy(f) && NormalizeItems(xs).Some? && NormalizeItems(ys).Some?
    ensures NormalizeItems(xs + [f] + ys) == NormalizeItems(xs + ys)
  {
    assert Gather([f], NormalizeItem) == Some([]) by {
      assert [f][..0] == [];
    }
    GatherAppend(xs, [f], NormalizeItem);
    assert Gather(xs + [f], NormalizeItem) == Gather(xs, NormalizeItem);
    GatherAppend(xs + [f], ys, NormalizeItem);
    GatherAppend(xs, ys, NormalizeItem);
  }

  /** The object that normalising a truthy tree gives is truthy and carries no `error`. */
  lemma NormalizedProgramClean(ast: Js)
    requires Truthy(ast) && !Truthy(Get(ast, "error")) && NormalizeAst(ast).Some?
    ensures Truthy(NormalizeAst(ast).value) && !Truthy(Get(NormalizeAst(ast).value, "error"))
  {
    var r := NormalizeAst(ast).value;
    if r != ast {
      assert r.fields[0].0 == "indicators" && r.fields[1].0 == "assignments" && |r.fields| == 2;
      assert forall j :: 0 <= j < |r.fields| ==> r.fields[j].0 != "error";
    }
  }

  /**
   * When both parsers give the same tree for a fixture, its entry is never
   * counted as a difference (generate-parser-diff.cjs:94-96, 107-118).
   */
  lemma SameTreeNoDiff(fx: Fixture, hand: string -> ParseOutcome, gen: string -> ParseOutcome)
    requires hand(fx.src) == gen(fx.src) && hand(fx.src).Parsed?
    requires Truthy(hand(fx.src).ast) && !Truthy(Get(hand(fx.src).ast, "error"))
    requires DiffOf(fx, hand, gen).Some?
    ensures !Differs(DiffOf(fx, hand, gen).value)
  {
    NormalizedProgramClean(hand(fx.src).ast);
  }

  /** A parser that is not installed makes every fixture differ (generate-parser-diff.cjs:89, 108). */
  lemma MissingParserDiffers(fx: Fixture, hand: string -> ParseOutcome, gen: string -> ParseOutcome)
    requires hand(fx.src).Missing? && DiffOf(fx, hand, gen).Some?
    ensures Differs(DiffOf(fx, hand, gen).value)
    ensures DiffOf(fx, hand, gen).value.hand == JNull
  {
  }

  /** An exception with a message makes its fixture differ (generate-parser-diff.cjs:91-92, 109). */
  lemma ThrowingParserDiffers(fx: Fixture, hand: string -> ParseOutcome, gen: string -> ParseOutcome)
    requires hand(fx.src).Threw? && hand(fx.src).message != "" && DiffOf(fx, hand, gen).Some?
    ensures Differs(DiffOf(fx, hand, gen).value)
    ensures DiffOf(fx, hand, gen).value.hand == JObj([("error", JStr(hand(fx.src).message))])
  {
    var fs := [("error", JStr(hand(fx.src).message))];
    GetFieldFirst(fs, "error", 0);
  }

  /**
   * Without a hand parser every fixture differs, so the script fails exactly
   * when there is at least one fixture: always for the built-in sample, and
   * never for a fixtures directory holding no source file.
   */
  lemma NoHandParserFails(dir: Option<seq<Fixture>>, hand: string -> ParseOutcome, gen: string -> ParseOutcome)
    requires forall s :: hand(s) == Missing
    requires DiffsOf(Fixtures(dir), hand, gen).Some?
    ensures (exists i :: 0 <= i < |Fixtures(dir)| && Differs(DiffsOf(Fixtures(dir), hand, gen).value[i]))
            <==> Fixtures(dir) != []
    ensures dir.None? ==> Fixtures(dir) != []
  {
    var fxs := Fixtures(dir);
    if fxs != [] {
      MissingParserDiffers(fxs[0], hand, gen);
    }
  }
}
