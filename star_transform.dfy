/**
 * The callee-normalising transformer (src/lib/star-ast-transform.ts): a
 * structural copy of the tree that rewrites call names into the `star.*`
 * namespace.
 */
module StarTransform {
  import opened Wrappers
  import opened Strings
  import opened StarAst

  /** Bare technical-analysis names that are moved under `star.ta.` */
  const TaBuiltins: set<string> := {"sma", "ema", "rsi", "wma", "ma", "stdev", "sum", "avg", "max", "min"}

  /**
   * `normalizeCallee`: the first matching rule wins. Every name it rewrites
   * lands in `star.`, and a name already in `star.` is kept.
   */
  function NormalizeCallee(c: string): (r: string)
    ensures r == c || StartsWith(r, "star.")
    ensures StartsWith(c, "star.") ==> r == c
  {
    if c == "" then c
    else if c == "plot" then "star.plot"
    else if c == "input" || StartsWith(c, "input") then
      assert c[..5][0] == c[0] == 'i';
      "star." + c
    else if StartsWith(c, "ta.") then
      assert c[..3][1] == c[1] == 'a';
      "star." + c
    else if StartsWith(c, "request.") then
      assert c[..8][0] == c[0] == 'r';
      "star." + c
    else if StartsWith(c, "star.") then c
    else if c in TaBuiltins then "star.ta." + c
    else c
  }

  /**
   * `transformExpression`: a copy in which every node keeps its kind, call
   * names are normalised, binary nodes keep `operator` only, and every other
   * node (unary ones included) is shared unchanged.
   */
  function Transform(e: Expr): (r: Expr)
    ensures e.Call? <==> r.Call?
    ensures e.Call? ==> r.callee == NormalizeCallee(e.callee) && |r.args| == |e.args|
    ensures e.Array? <==> r.Array?
    ensures e.Array? ==> |r.items| == |e.items|
    ensures e.Index? <==> r.Index?
    ensures e.Binary? <==> r.Binary?
    ensures e.Binary? ==> r.op.None? && r.operator == e.operator
    ensures !e.Call? && !e.Array? && !e.Index? && !e.Binary? ==> r == e
    decreases e, 1
  {
    match e
    case Call(c, args) => Call(NormalizeCallee(c), TransformList(args))
    case Array(items) => Array(TransformList(items))
    case Index(t, i) => Index(Transform(t), Transform(i))
    case Binary(_, operator, l, r) => Binary(None, operator, Transform(l), Transform(r))
    case _ => e
  }

  function TransformList(es: seq<Expr>): (r: seq<Expr>)
    ensures |r| == |es|
    decreases es, 0
  {
    if es == [] then [] else [Transform(es[0])] + TransformList(es[1..])
  }

  /** `transformProgram`: the same indicators and the same assignments, in order, with transformed expressions. */
  function TransformProgram(p: Program): (r: Program)
    ensures r.indicators == p.indicators
    ensures |r.assignments| == |p.assignments|
    ensures forall i :: 0 <= i < |p.assignments| ==> r.assignments[i].id == p.assignments[i].id
  {
    Program(p.indicators, seq(|p.assignments|, i requires 0 <= i < |p.assignments| =>
      Assignment(p.assignments[i].id, Transform(p.assignments[i].expr))))
  }
}
