/** Properties of the callee normaliser and the tree copy (src/lib/star-ast-transform.ts). */
module StarTransformProps {
  import opened Wrappers
  import opened Strings
  import opened StarAst
  import opened StarTransform

  /** Normalising twice is normalising once. */
  lemma NormalizeCalleeIdempotent(c: string)
    ensures NormalizeCallee(NormalizeCallee(c)) == NormalizeCallee(c)
  {
  }

  /**
   * A name without a dot that is neither `plot` nor an `input…` name moves
   * under `star.ta.` when it is one of the technical-analysis built-ins and
   * is kept otherwise, as the transformer's tests expect for `sma`.
   */
  lemma BareNames(c: string)
    requires c != "" && '.' !in c && c != "plot" && !StartsWith(c, "input")
    ensures NormalizeCallee(c) == if c in TaBuiltins then "star.ta." + c else c
  {
    assert !StartsWith(c, "ta.") by {
      if |c| >= 3 { assert c[2] != '.'; }
    }
    assert !StartsWith(c, "request.") by {
      if |c| >= 8 { assert c[7] != '.'; }
    }
    assert !StartsWith(c, "star.") by {
      if |c| >= 5 { assert c[4] != '.'; }
    }
  }

  /** Every `request.` name gains the `star.` prefix. */
  lemma RequestNames(c: string)
    requires StartsWith(c, "request.")
    ensures NormalizeCallee(c) == "star." + c
  {
    assert c[..8][0] == c[0] == 'r';
    assert !StartsWith(c, "input") by {
      assert c[..5][0] == 'r';
    }
    assert !StartsWith(c, "ta.") by {
      assert c[..3][0] == 'r';
    }
  }

  /** `plot` and `input` map to `star.plot` and `star.input`. */
  lemma NormalizePlotAndInput()
    ensures NormalizeCallee("plot") == "star.plot"
    ensures NormalizeCallee("input") == "star.input"
  {
  }

  /** Every call in the tree has a name the normaliser leaves alone. */
  predicate CalleesNormalized(e: Expr)
    decreases e, 1
  {
    match e
    case Call(c, args) => NormalizeCallee(c) == c && CalleesNormalizedList(args)
    case Array(items) => CalleesNormalizedList(items)
    case Index(t, i) => CalleesNormalized(t) && CalleesNormalized(i)
    case Binary(_, _, l, r) => CalleesNormalized(l) && CalleesNormalized(r)
    case Unary(_, _, x) => CalleesNormalized(x)
    case _ => true
  }

  predicate CalleesNormalizedList(es: seq<Expr>)
    decreases es, 0
  {
    forall i :: 0 <= i < |es| ==> CalleesNormalized(es[i])
  }

  /** Nothing outside calls, arrays, indexes and binary nodes is rewritten. */
  predicate OnlyRewritable(e: Expr)
    decreases e, 1
  {
    match e
    case Call(_, args) => OnlyRewritableList(args)
    case Array(items) => OnlyRewritableList(items)
    case Index(t, i) => OnlyRewritable(t) && OnlyRewritable(i)
    case Binary(_, _, l, r) => OnlyRewritable(l) && OnlyRewritable(r)
    case Unary(_, _, _) => false
    case _ => true
  }

  predicate OnlyRewritableList(es: seq<Expr>)
    decreases es, 0
  {
    forall i :: 0 <= i < |es| ==> OnlyRewritable(es[i])
  }

  lemma {:induction false} TransformListAt(es: seq<Expr>, i: nat)
    requires i < |es|
    ensures TransformList(es)[i] == Transform(es[i])
  {
    if i > 0 {
      TransformListAt(es[1..], i - 1);
    }
  }

  /**
   * After the transform every call name is normalised, as long as the tree
   * has no `Unary` node (those are copied unchanged, calls inside included).
   */
  lemma {:induction false} TransformNormalizesCallees(e: Expr)
    requires OnlyRewritable(e)
    ensures CalleesNormalized(Transform(e))
    decreases e, 1
  {
    match e
    case Call(c, args) =>
      TransformListNormalizesCallees(args);
    case Array(items) =>
      TransformListNormalizesCallees(items);
    case Index(t, i) =>
      TransformNormalizesCallees(t);
      TransformNormalizesCallees(i);
    case Binary(_, _, l, r) =>
      TransformNormalizesCallees(l);
      TransformNormalizesCallees(r);
    case _ =>
  }

  lemma {:induction false} TransformListNormalizesCallees(es: seq<Expr>)
    requires OnlyRewritableList(es)
    ensures CalleesNormalizedList(TransformList(es))
    decreases es, 0
  {
    forall i | 0 <= i < |es|
      ensures CalleesNormalized(TransformList(es)[i])
    {
      TransformListAt(es, i);
      TransformNormalizesCallees(es[i]);
    }
  }

  /** Transforming an already transformed tree changes nothing. */
  lemma {:induction false} TransformIdempotent(e: Expr)
    ensures Transform(Transform(e)) == Transform(e)
    decreases e, 1
  {
    match e
    case Call(c, args) =>
      TransformListIdempotent(args);
    case Array(items) =>
      TransformListIdempotent(items);
    case Index(t, i) =>
      TransformIdempotent(t);
      TransformIdempotent(i);
    case Binary(_, _, l, r) =>
      TransformIdempotent(l);
      TransformIdempotent(r);
    case _ =>
  }

  lemma {:induction false} TransformListIdempotent(es: seq<Expr>)
    ensures TransformList(TransformList(es)) == TransformList(es)
    decreases es, 0
  {
    if es != [] {
      TransformIdempotent(es[0]);
      TransformListIdempotent(es[1..]);
      var t := TransformList(es);
      assert t[0] == Transform(es[0]) && t[1..] == TransformList(es[1..]);
    }
  }

  /** The copy has exactly as many nodes as the original, so the evaluator's work on it is the same. */
  lemma {:induction false} TransformPreservesSize(e: Expr)
    ensures Size(Transform(e)) == Size(e)
    decreases e, 1
  {
    match e
    case Call(c, args) =>
      TransformListPreservesSize(args);
    case Array(items) =>
      TransformListPreservesSize(items);
    case Index(t, i) =>
      TransformPreservesSize(t);
      TransformPreservesSize(i);
    case Binary(_, _, l, r) =>
      TransformPreservesSize(l);
      TransformPreservesSize(r);
    case _ =>
  }

  lemma {:induction false} TransformListPreservesSize(es: seq<Expr>)
    ensures SizeList(TransformList(es)) == SizeList(es)
    decreases es, 0
  {
    if es != [] {
      TransformPreservesSize(es[0]);
      TransformListPreservesSize(es[1..]);
      var t := TransformList(es);
      assert t[0] == Transform(es[0]) && t[1..] == TransformList(es[1..]);
    }
  }

  /** A binary node comes out with `operator` only: an `op` field of the input is not carried over. */
  lemma BinaryLosesOp(op: Option<string>, operator: Option<string>, l: Expr, r: Expr)
    ensures Transform(Binary(op, operator, l, r)).op == None
    ensures Transform(Binary(op, operator, l, r)).operator == operator
  {
  }
}
