/**
 * The parser-diff script (generate-parser-diff.cjs): both parsers' trees are
 * brought to one canonical shape, written as JSON and compared fixture by
 * fixture; the script fails with status 2 when any fixture differs. The
 * parsers themselves are parameters: what each gives for a source text.
 * `None` stands for a `TypeError` that escapes the script (`.map` on a
 * truthy non-array, a property read of `null`).
 */
module ParserDiff {
  import opened Wrappers
  import opened Strings
  import opened Js

  /** `normalizeExpr` (generate-parser-diff.cjs:65-85). */
  function NormalizeExpr(e: Js): (r: Option<Js>)
    ensures !Truthy(e) ==> r == Some(e)
    ensures r.Some? && e.JArr? ==> r.value.JArr? && |r.value.items| == |e.items|
    ensures r.Some? && e.JStr? && e.s != "" ==> r.value == Leaf("Identifier", "name", e)
    decreases JsSize(e), 2
  {
    if !Truthy(e) then Some(e)
    else if e.JArr? then
      match NormalizeList(e.items)
      case Some(xs) => Some(JArr(xs))
      case None => None
    else if e.JStr? then Some(Leaf("Identifier", "name", e))
    else if HasType(e, "Call") then
      var args := ListOf(e, "args");
      if !args.JArr? then None
      else
        match NormalizeArgs(args.items)
        case Some(xs) => Some(JObj([("type", JStr("Call")), ("callee", Get(e, "callee")), ("args", JArr(xs))]))
        case None => None
    else if HasType(e, "Index") then
      match (NormalizeExpr(Get(e, "target")), NormalizeExpr(Get(e, "index")))
      case (Some(t), Some(i)) => Some(JObj([("type", JStr("Index")), ("target", t), ("index", i)]))
      case _ => None
    else if HasType(e, "Array") then
      var items := ListOf(e, "items");
      if !items.JArr? then None
      else
        match NormalizeList(items.items)
        case Some(xs) => Some(Leaf("Array", "items", JArr(xs)))
        case None => None
    else if HasType(e, "Identifier") then Some(Leaf("Identifier", "name", Get(e, "name")))
    else if HasType(e, "Number") then Some(Leaf("Number", "value", Get(e, "value")))
    else if HasType(e, "String") then Some(Leaf("String", "value", Get(e, "value")))
    else if HasType(e, "Unary") then
      var x := Or(Get(e, "expr"), Get(e, "argument"));
      match NormalizeExpr(x)
      case Some(n) => Some(JObj([("type", JStr("Unary")), ("op", Or(Get(e, "op"), Get(e, "operator"))), ("expr", n)]))
      case None => None
    else if HasType(e, "Binary") then
      match (NormalizeExpr(Get(e, "left")), NormalizeExpr(Get(e, "right")))
      case (Some(l), Some(r)) =>
        Some(JObj([("type", JStr("Binary")), ("op", Or(Get(e, "op"), Get(e, "operator"))), ("left", l), ("right", r)]))
      case _ => None
    else Some(e)
  }

  /** `items.map(normalizeExpr)` */
  function NormalizeList(items: seq<Js>): (r: Option<seq<Js>>)
    ensures r.Some? ==> |r.value| == |items|
    decreases JsItemsSize(items), 3
  {
    if items == [] then Some([])
    else
      match (NormalizeExpr(items[0]), NormalizeList(items[1..]))
      case (Some(x), Some(xs)) => Some([x] + xs)
      case _ => None
  }

  /** One call argument: a string becomes an Identifier node, anything else is normalised. */
  function NormalizeArg(a: Js): (r: Option<Js>)
    ensures a.JStr? ==> r == Some(Leaf("Identifier", "name", a))
    decreases JsSize(a), 3
  {
    if a.JStr? then Some(Leaf("Identifier", "name", a)) else NormalizeExpr(a)
  }

  function NormalizeArgs(items: seq<Js>): (r: Option<seq<Js>>)
    ensures r.Some? ==> |r.value| == |items|
    decreases JsItemsSize(items), 4
  {
    if items == [] then Some([])
    else
      match (NormalizeArg(items[0]), NormalizeArgs(items[1..]))
      case (Some(x), Some(xs)) => Some([x] + xs)
      case _ => None
  }

  /**
   * What one item of a generated program contributes (generate-parser-diff.cjs:44-54):
   * nothing for a falsy item, `{id, expr}` for an Assignment, an `_call`
   * entry for a Call, and the item itself otherwise.
   */
  function NormalizeItem(item: Js): (r: Option<Option<Js>>)
    ensures !Truthy(item) ==> r == Some(None)
    ensures Truthy(item) && !HasType(item, "Assignment") && !HasType(item, "Call") ==> r == Some(Some(item))
  {
    if !Truthy(item) then Some(None)
    else if HasType(item, "Assignment") then
      match NormalizeExpr(Get(item, "expr"))
      case Some(x) => Some(Some(JObj([("id", Get(item, "id")), ("expr", x)])))
      case None => None
    else if HasType(item, "Call") then
      match NormalizeExpr(item)
      case Some(x) => Some(Some(JObj([("id", JStr("_call")), ("expr", x)])))
      case None => None
    else Some(Some(item))
  }

  /** The list after one more item: unchanged for a skipped item, extended for a pushed one, failed once anything throws. */
  function Push<T>(acc: Option<seq<T>>, step: Option<Option<T>>): (r: Option<seq<T>>)
    ensures r.Some? <==> acc.Some? && step.Some?
    ensures r.Some? ==> r.value == acc.value + (if step.value.Some? then [step.value.value] else [])
  {
    match (acc, step)
    case (Some(xs), Some(None)) => Some(xs)
    case (Some(xs), Some(Some(x))) => Some(xs + [x])
    case _ => None
  }

  /** A push loop over `xs`: each element is skipped, pushed, or throws and ends the loop. */
  function Gather<A, B>(xs: seq<A>, step: A -> Option<Option<B>>): (r: Option<seq<B>>)
    ensures r.Some? <==> forall i :: 0 <= i < |xs| ==> step(xs[i]).Some?
    ensures r.Some? ==> |r.value| <= |xs|
  {
    if xs == [] then Some([])
    else Push(Gather(xs[..|xs| - 1], step), step(xs[|xs| - 1]))
  }

  /** The entries the loop of `normalizeAst` has pushed after the given items. */
  function NormalizeItems(items: seq<Js>): (r: Option<seq<Js>>)
    ensures r.Some? <==> forall i :: 0 <= i < |items| ==> NormalizeItem(items[i]).Some?
    ensures r.Some? ==> |r.value| <= |items|
  {
    Gather(items, NormalizeItem)
  }

  /** The loop of `normalizeAst` (generate-parser-diff.cjs:43-55): skip, convert or keep each item, in order. */
  method NormalizeGenerated(items: seq<Js>) returns (r: Option<seq<Js>>)
    ensures r == NormalizeItems(items)
  {
    var out: seq<Js> := [];
    var i := 0;
    while i < |items|
      invariant 0 <= i <= |items|
      invariant NormalizeItems(items[..i]) == Some(out)
    {
      assert items[..i + 1][..i] == items[..i];
      var step := NormalizeItem(items[i]);
      if step.None? {
        return None;
      }
      if step.value.Some? {
        out := out + [step.value.value];
      }
      i := i + 1;
    }
    assert items[..|items|] == items;
    r := Some(out);
  }

  /** `{id: a.id, expr: normalizeExpr(a.expr)}` for each entry of a hand-shaped tree; null entries throw. */
  function NormalizeHandEntries(items: seq<Js>): (r: Option<seq<Js>>)
    ensures r.Some? ==> |r.value| == |items|
  {
    if items == [] then Some([])
    else if IsNullish(items[0]) then None
    else
      match (NormalizeExpr(Get(items[0], "expr")), NormalizeHandEntries(items[1..]))
      case (Some(x), Some(xs)) => Some([JObj([("id", Get(items[0], "id")), ("expr", x)])] + xs)
      case _ => None
  }

  /** `normalizeAst` (generate-parser-diff.cjs:38-63). */
  function NormalizeAst(ast: Js): (r: Option<Js>)
    ensures !Truthy(ast) || !IsArrayField(ast, "assignments") ==> r == Some(ast)
  {
    if !Truthy(ast) then Some(ast)
    else if HasType(ast, "Program") && IsArrayField(ast, "assignments") then
      match NormalizeItems(Get(ast, "assignments").items)
      case Some(xs) => Some(JObj([("indicators", Or(Get(ast, "indicators"), JArr([]))), ("assignments", JArr(xs))]))
      case None => None
    else if IsArrayField(ast, "assignments") then
      match NormalizeHandEntries(Get(ast, "assignments").items)
      case Some(xs) => Some(JObj([("indicators", Or(Get(ast, "indicators"), JArr([]))), ("assignments", JArr(xs))]))
      case None => None
    else Some(ast)
  }

  /** What a parser gives for one fixture: its tree, an exception's text, or nothing when it is not installed. */
  datatype ParseOutcome = Parsed(ast: Js) | Threw(message: string) | Missing

  /** `handAst` / `genAst` after the `try` (generate-parser-diff.cjs:89-92): an exception is kept as `{error}`. */
  function Captured(o: ParseOutcome): Js
  {
    match o
    case Parsed(a) => a
    case Threw(m) => JObj([("error", JStr(m))])
    case Missing => JNull
  }

  /** `x && !x.error ? normalizeAst(x) : x` */
  function Normalized(x: Js): (r: Option<Js>)
    ensures !Truthy(x) || Truthy(Get(x, "error")) ==> r == Some(x)
  {
    if Truthy(x) && !Truthy(Get(x, "error")) then NormalizeAst(x) else Some(x)
  }

  datatype Fixture = Fixture(name: string, src: string)

  /** The fixture used when there is no fixtures directory (generate-parser-diff.cjs:33-36). */
  const Sample := Fixture("sample1", "a = 1\nplot(a)\n")

  /** The files of the fixtures directory ending in `.pine` or `.txt`, in listing order, or the sample without a directory. */
  function Fixtures(dir: Option<seq<Fixture>>): (r: seq<Fixture>)
    ensures dir.None? ==> r == [Sample]
    ensures dir.Some? ==> r == SourceFiles(dir.value)
  {
    match dir
    case None => [Sample]
    case Some(files) => SourceFiles(files)
  }

  predicate IsSourceName(name: string)
  {
    EndsWith(name, ".pine") || EndsWith(name, ".txt")
  }

  /** `readdirSync(...).filter(f => f.endsWith('.pine') || f.endsWith('.txt'))`, keeping the listing order. */
  function SourceFiles(files: seq<Fixture>): (r: seq<Fixture>)
    ensures forall f :: f in r <==> f in files && IsSourceName(f.name)
    ensures |r| <= |files|
  {
    if files == [] then []
    else if IsSourceName(files[0].name) then [files[0]] + SourceFiles(files[1..])
    else SourceFiles(files[1..])
  }

  datatype Diff = Diff(name: string, hand: Js, gen: Js)

  /** The entry of one fixture, or `None` when normalising throws. */
  function DiffOf(fx: Fixture, hand: string -> ParseOutcome, gen: string -> ParseOutcome): (r: Option<Diff>)
    ensures r.Some? <==> Normalized(Captured(hand(fx.src))).Some? && Normalized(Captured(gen(fx.src))).Some?
    ensures r.Some? ==> r.value.name == fx.name
    ensures r.Some? && hand(fx.src).Missing? ==> r.value.hand == JNull
    ensures r.Some? && gen(fx.src).Missing? ==> r.value.gen == JNull
  {
    match (Normalized(Captured(hand(fx.src))), Normalized(Captured(gen(fx.src))))
    case (Some(h), Some(g)) => Some(Diff(fx.name, h, g))
    case _ => None
  }

  /** `xs.map(f)` where `f` may throw: fails when any element fails, otherwise one result per element. */
  function MapAll<A, B>(xs: seq<A>, f: A -> Option<B>): (r: Option<seq<B>>)
    ensures r.Some? <==> forall i :: 0 <= i < |xs| ==> f(xs[i]).Some?
    ensures r.Some? ==> |r.value| == |xs| && forall i :: 0 <= i < |xs| ==> f(xs[i]) == Some(r.value[i])
  {
    if xs == [] then Some([])
    else
      var front := MapAll(xs[..|xs| - 1], f);
      var last := f(xs[|xs| - 1]);
      if front.Some? && last.Some? then Some(front.value + [last.value]) else None
  }

  /** The `diffs` list: one entry per fixture, in fixture order. */
  function DiffsOf(fxs: seq<Fixture>, hand: string -> ParseOutcome, gen: string -> ParseOutcome): (r: Option<seq<Diff>>)
    ensures r.Some? <==> forall i :: 0 <= i < |fxs| ==> DiffOf(fxs[i], hand, gen).Some?
    ensures r.Some? ==> |r.value| == |fxs| && forall i :: 0 <= i < |fxs| ==> DiffOf(fxs[i], hand, gen) == Some(r.value[i])
  {
    MapAll(fxs, fx => DiffOf(fx, hand, gen))
  }

  /** The fixture loop (generate-parser-diff.cjs:87-97). */
  method CollectDiffs(fxs: seq<Fixture>, hand: string -> ParseOutcome, gen: string -> ParseOutcome)
    returns (r: Option<seq<Diff>>)
    ensures r == DiffsOf(fxs, hand, gen)
  {
    var diffs: seq<Diff> := [];
    var i := 0;
    while i < |fxs|
      invariant 0 <= i <= |fxs|
      invariant |diffs| == i && forall j :: 0 <= j < i ==> DiffOf(fxs[j], hand, gen) == Some(diffs[j])
    {
      var d := DiffOf(fxs[i], hand, gen);
      if d.None? {
        return None;
      }
      diffs := diffs + [d.value];
      i := i + 1;
    }
    r := Some(diffs);
    assert DiffsOf(fxs, hand, gen).Some?;
    assert DiffsOf(fxs, hand, gen).value == diffs;
  }

  /** The test of one entry (generate-parser-diff.cjs:108-118): a missing tree, an error, or different JSON. */
  predicate Differs(d: Diff)
    ensures d.hand == JNull || d.gen == JNull ==> Differs(d)
    ensures Truthy(d.hand) && !Truthy(Get(d.hand, "error")) && d.gen == d.hand ==> !Differs(d)
  {
    !Truthy(d.hand) || !Truthy(d.gen) || Truthy(Get(d.hand, "error")) || Truthy(Get(d.gen, "error"))
    || Stringify(d.hand) != Stringify(d.gen)
  }

  /** The `anyDiff` loop, which stops at the first differing entry (generate-parser-diff.cjs:106-119). */
  method AnyDiff(diffs: seq<Diff>) returns (any: bool)
    ensures any <==> exists i :: 0 <= i < |diffs| && Differs(diffs[i])
  {
    any := false;
    var i := 0;
    while i < |diffs|
      invariant 0 <= i <= |diffs|
      invariant forall j :: 0 <= j < i ==> !Differs(diffs[j])
    {
      var d := diffs[i];
      if Differs(d) {
        any := true;
        return;
      }
      i := i + 1;
    }
  }

  /** The exit status (generate-parser-diff.cjs:121-127). */
  function ExitCode(any: bool): (code: int)
    ensures code == 0 || code == 2
    ensures code == 0 <==> !any
  {
    if any then 2 else 0
  }

  /** The whole script: `None` when it dies of an exception, otherwise its exit status. */
  method Run(dir: Option<seq<Fixture>>, hand: string -> ParseOutcome, gen: string -> ParseOutcome)
    returns (status: Option<int>)
    ensures status.Some? <==> DiffsOf(Fixtures(dir), hand, gen).Some?
    ensures status.Some? ==>
      (status.value == 2 <==> exists i :: 0 <= i < |Fixtures(dir)| && Differs(DiffsOf(Fixtures(dir), hand, gen).value[i]))
    ensures status.Some? ==> status.value == 0 || status.value == 2
  {
    var fxs := Fixtures(dir);
    var diffs := CollectDiffs(fxs, hand, gen);
    if diffs.None? {
      return None;
    }
    var any := AnyDiff(diffs.value);
    status := Some(ExitCode(any));
  }
}
