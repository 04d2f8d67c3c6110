/**
 * Properties of the adapter of gen-adapter.ts: hand-parser trees and
 * programs pass through it unchanged, leaves lose every property but their
 * canonical one, and adapting an adapted tree changes nothing as long as no
 * fallback chain of the input ends in a falsy value other than undefined.
 * Without that condition a second pass differs: a Binary node whose `name`
 * is `null` gets `op: null` the first time and `op: undefined` the second.
 */
module GenAdapterProps {
  import opened Wrappers
  import opened StarAst
  import opened Js
  import opened StarJson
  import opened GenAdapter

  /** A field a second pass reads back unchanged through `x || undefined`. */
  predicate Loose(v: Js)
  {
    Truthy(v) || v == JUndef
  }

  /** An operand whose adaptation is truthy or undefined: neither `null` nor `false`. */
  predicate Operand(v: Js)
  {
    v != JNull && v != JBool(false)
  }

  /**
   * Every fallback chain the adapter reads in `e` (`op || operator || name`,
   * `callee || name`, `expr || argument`, `target || base || object`) ends
   * in a truthy value or in undefined.
   */
  predicate Settled(e: Js)
    decreases JsSize(e), 2
  {
    match KindOf(e)
    case Wrapper =>
      (match FirstNode(e.items)
       case Some(i) =>
         ItemBelow(e.items, i);
         Settled(e.items[i])
       case None => true)
    case BinaryNode => Loose(OpOf(e)) && Settled(Get(e, "left")) && Settled(Get(e, "right"))
    case UnaryNode => Loose(OpOf(e)) && Operand(OperandOf(e)) && Settled(OperandOf(e))
    case CallNode =>
      var args := ListOf(e, "args");
      Loose(CalleeOf(e)) && (args.JArr? ==> SettledList(args.items))
    case ArrayNode =>
      var items := ListOf(e, "items");
      items.JArr? ==> SettledList(items.items)
    case IndexNode => Operand(TargetOf(e)) && Settled(TargetOf(e)) && Settled(Get(e, "index"))
    case _ => true
  }

  predicate SettledList(items: seq<Js>)
    decreases JsItemsSize(items), 3
  {
    items == [] || (Settled(items[0]) && SettledList(items[1..]))
  }

  /** The adaptation of an operand that is neither `null` nor `false` is truthy or undefined. */
  lemma AdaptedOperandIsLoose(v: Js)
    requires Operand(v) && AdaptExpr(v).Some?
    ensures Loose(AdaptExpr(v).value)
  {
    var r := AdaptExpr(v).value;
    if r != JUndef && !r.JObj? {
      assert r == v && (v.JBool? || v.JArr?);
    }
  }

  /** `x || undefined` is `x` for a truthy or undefined `x`. */
  lemma OrUndefined(x: Js)
    requires Loose(x)
    ensures Or(x, JUndef) == x
  {
  }

  /** A rebuilt Binary node reads back its own fields. */
  lemma BinaryFields(op: Js, l: Js, r: Js)
    ensures var n := JObj([("type", JStr("Binary")), ("op", op), ("left", l), ("right", r)]);
      HasType(n, "Binary") && OpOf(n) == Or(Or(op, JUndef), JUndef)
      && Get(n, "left") == l && Get(n, "right") == r
  {
    var a, b, c, d := ("type", JStr("Binary")), ("op", op), ("left", l), ("right", r);
    GetField4(a, b, c, d, "type");
    GetField4(a, b, c, d, "op");
    GetField4(a, b, c, d, "operator");
    GetField4(a, b, c, d, "name");
    GetField4(a, b, c, d, "left");
    GetField4(a, b, c, d, "right");
  }

  /** A rebuilt Unary node reads back its own fields. */
  lemma UnaryFields(op: Js, x: Js)
    ensures var n := JObj([("type", JStr("Unary")), ("op", op), ("expr", x)]);
      HasType(n, "Unary") && OpOf(n) == Or(Or(op, JUndef), JUndef) && OperandOf(n) == Or(x, JUndef)
  {
    var a, b, c := ("type", JStr("Unary")), ("op", op), ("expr", x);
    GetField3(a, b, c, "type");
    GetField3(a, b, c, "op");
    GetField3(a, b, c, "operator");
    GetField3(a, b, c, "name");
    GetField3(a, b, c, "expr");
    GetField3(a, b, c, "argument");
  }

  /** A rebuilt Call node reads back its own fields. */
  lemma CallFields(c: Js, xs: seq<Js>)
    ensures var n := JObj([("type", JStr("Call")), ("callee", c), ("args", JArr(xs))]);
      HasType(n, "Call") && CalleeOf(n) == Or(c, JUndef) && ListOf(n, "args") == JArr(xs)
  {
    var f0, f1, f2 := ("type", JStr("Call")), ("callee", c), ("args", JArr(xs));
    GetField3(f0, f1, f2, "type");
    GetField3(f0, f1, f2, "callee");
    GetField3(f0, f1, f2, "name");
    GetField3(f0, f1, f2, "args");
  }

  /** A rebuilt Index node reads back its own fields. */
  lemma IndexFields(t: Js, i: Js)
    ensures var n := JObj([("type", JStr("Index")), ("target", t), ("index", i)]);
      HasType(n, "Index") && TargetOf(n) == Or(Or(t, JUndef), JUndef) && Get(n, "index") == i
  {
    var a, b, c := ("type", JStr("Index")), ("target", t), ("index", i);
    GetField3(a, b, c, "type");
    GetField3(a, b, c, "target");
    GetField3(a, b, c, "base");
    GetField3(a, b, c, "object");
    GetField3(a, b, c, "index");
  }

  /** A leaf is rebuilt as itself. */
  lemma LeafTwice(t: string, k: string, v: Js)
    requires ((t == "Number" || t == "String") && k == "value") || (t == "Identifier" && k == "name")
    ensures AdaptExpr(Leaf(t, k, v)) == Some(Leaf(t, k, v))
  {
    var n := Leaf(t, k, v);
    TypedKind(n, t);
    assert Get(n, k) == v;
  }

  /** An object is adapted by the branch its `type` names. */
  lemma TypedKind(e: Js, t: string)
    requires e.JObj? && Get(e, "type") == JStr(t)
    ensures t == "Number" ==> KindOf(e) == NumberNode
    ensures t == "String" ==> KindOf(e) == StringNode
    ensures t == "Identifier" ==> KindOf(e) == IdentifierNode
    ensures t == "Binary" ==> KindOf(e) == BinaryNode
    ensures t == "Unary" ==> KindOf(e) == UnaryNode
    ensures t == "Call" ==> KindOf(e) == CallNode
    ensures t == "Array" ==> KindOf(e) == ArrayNode
    ensures t == "Index" ==> KindOf(e) == IndexNode
    ensures t == "Unknown" ==> KindOf(e) == OtherNode
  {
  }

  /** A node typed `Binary` is adapted by its Binary branch. */
  lemma AdaptBinaryNode(e: Js)
    requires KindOf(e) == BinaryNode
    ensures AdaptExpr(e) ==
      match (AdaptExpr(Get(e, "left")), AdaptExpr(Get(e, "right")))
      case (Some(l), Some(r)) => Some(JObj([("type", JStr("Binary")), ("op", OpOf(e)), ("left", l), ("right", r)]))
      case _ => None
  {
  }

  /** A node typed `Unary` is adapted by its Unary branch. */
  lemma AdaptUnaryNode(e: Js)
    requires KindOf(e) == UnaryNode
    ensures AdaptExpr(e) ==
      match AdaptExpr(OperandOf(e))
      case Some(x) => Some(JObj([("type", JStr("Unary")), ("op", OpOf(e)), ("expr", x)]))
      case None => None
  {
  }

  /** A node typed `Call` whose arguments are a list is adapted by its Call branch. */
  lemma AdaptCallNode(e: Js)
    requires KindOf(e) == CallNode && ListOf(e, "args").JArr?
    ensures AdaptExpr(e) ==
      match AdaptList(ListOf(e, "args").items)
      case Some(xs) => Some(JObj([("type", JStr("Call")), ("callee", CalleeOf(e)), ("args", JArr(xs))]))
      case None => None
  {
  }

  /** A node typed `Index` is adapted by its Index branch. */
  lemma AdaptIndexNode(e: Js)
    requires KindOf(e) == IndexNode
    ensures AdaptExpr(e) ==
      match (AdaptExpr(TargetOf(e)), AdaptExpr(Get(e, "index")))
      case (Some(t), Some(i)) => Some(JObj([("type", JStr("Index")), ("target", t), ("index", i)]))
      case _ => None
  {
  }

  /** A node typed `Array` whose items are a list is adapted by its Array branch. */
  lemma AdaptArrayNode(e: Js)
    requires KindOf(e) == ArrayNode && ListOf(e, "items").JArr?
    ensures AdaptExpr(e) ==
      match AdaptList(ListOf(e, "items").items)
      case Some(xs) => Some(Leaf("Array", "items", JArr(xs)))
      case None => None
  {
  }

  lemma BinaryTwice(op: Js, l: Js, r: Js)
    requires Loose(op) && AdaptExpr(l) == Some(l) && AdaptExpr(r) == Some(r)
    ensures var n := JObj([("type", JStr("Binary")), ("op", op), ("left", l), ("right", r)]);
      AdaptExpr(n) == Some(n)
  {
    var n := JObj([("type", JStr("Binary")), ("op", op), ("left", l), ("right", r)]);
    BinaryFields(op, l, r);
    OrUndefined(op);
    TypedKind(n, "Binary");
    AdaptBinaryNode(n);
  }

  lemma UnaryTwice(op: Js, x: Js)
    requires Loose(op) && Loose(x) && AdaptExpr(x) == Some(x)
    ensures var n := JObj([("type", JStr("Unary")), ("op", op), ("expr", x)]);
      AdaptExpr(n) == Some(n)
  {
    var n := JObj([("type", JStr("Unary")), ("op", op), ("expr", x)]);
    UnaryFields(op, x);
    OrUndefined(op);
    OrUndefined(x);
    TypedKind(n, "Unary");
    AdaptUnaryNode(n);
  }

  lemma CallTwice(c: Js, xs: seq<Js>)
    requires Loose(c) && AdaptList(xs) == Some(xs)
    ensures var n := JObj([("type", JStr("Call")), ("callee", c), ("args", JArr(xs))]);
      AdaptExpr(n) == Some(n)
  {
    var n := JObj([("type", JStr("Call")), ("callee", c), ("args", JArr(xs))]);
    CallFields(c, xs);
    OrUndefined(c);
    TypedKind(n, "Call");
    AdaptCallNode(n);
  }

  lemma ArrayTwice(xs: seq<Js>)
    requires AdaptList(xs) == Some(xs)
    ensures AdaptExpr(Leaf("Array", "items", JArr(xs))) == Some(Leaf("Array", "items", JArr(xs)))
  {
    var n := Leaf("Array", "items", JArr(xs));
    TypedKind(n, "Array");
    assert ListOf(n, "items") == JArr(xs);
    AdaptArrayNode(n);
  }

  lemma IndexTwice(t: Js, i: Js)
    requires Loose(t) && AdaptExpr(t) == Some(t) && AdaptExpr(i) == Some(i)
    ensures var n := JObj([("type", JStr("Index")), ("target", t), ("index", i)]);
      AdaptExpr(n) == Some(n)
  {
    var n := JObj([("type", JStr("Index")), ("target", t), ("index", i)]);
    IndexFields(t, i);
    OrUndefined(t);
    TypedKind(n, "Index");
    AdaptIndexNode(n);
  }

  /**
   * Adapting an adapted tree gives the same tree (gen-adapter.ts:30-39),
   * for inputs whose fallback chains end in a truthy value or undefined.
   */
  lemma {:induction false} AdaptIdempotent(e: Js)
    requires Settled(e) && AdaptExpr(e).Some?
    ensures AdaptExpr(AdaptExpr(e).value) == AdaptExpr(e)
    decreases JsSize(e), 2
  {
    match KindOf(e)
    case Nullish =>
    case Wrapper =>
      match FirstNode(e.items) {
        case Some(i) =>
          ItemBelow(e.items, i);
          AdaptIdempotent(e.items[i]);
        case None =>
          if StringParts(e.items) != "" {
            LeafTwice("Identifier", "name", JStr(StringParts(e.items)));
          }
      }
    case RawNumber => LeafTwice("Number", "value", e);
    case NumberNode => LeafTwice("Number", "value", Get(e, "value"));
    case StringNode => LeafTwice("String", "value", Get(e, "value"));
    case RawString => LeafTwice("Identifier", "name", e);
    case IdentifierNode => LeafTwice("Identifier", "name", Get(e, "name"));
    case BinaryNode => BinaryIdempotent(e);
    case UnaryNode => UnaryIdempotent(e);
    case CallNode => CallIdempotent(e);
    case ArrayNode => ArrayIdempotent(e);
    case IndexNode => IndexIdempotent(e);
    case OtherNode =>
  }

  lemma {:induction false} BinaryIdempotent(e: Js)
    requires KindOf(e) == BinaryNode && Settled(e) && AdaptExpr(e).Some?
    ensures AdaptExpr(AdaptExpr(e).value) == AdaptExpr(e)
    decreases JsSize(e), 1
  {
    AdaptBinaryNode(e);
    AdaptIdempotent(Get(e, "left"));
    AdaptIdempotent(Get(e, "right"));
    BinaryTwice(OpOf(e), AdaptExpr(Get(e, "left")).value, AdaptExpr(Get(e, "right")).value);
  }

  lemma {:induction false} UnaryIdempotent(e: Js)
    requires KindOf(e) == UnaryNode && Settled(e) && AdaptExpr(e).Some?
    ensures AdaptExpr(AdaptExpr(e).value) == AdaptExpr(e)
    decreases JsSize(e), 1
  {
    AdaptUnaryNode(e);
    AdaptIdempotent(OperandOf(e));
    AdaptedOperandIsLoose(OperandOf(e));
    UnaryTwice(OpOf(e), AdaptExpr(OperandOf(e)).value);
  }

  lemma {:induction false} CallIdempotent(e: Js)
    requires KindOf(e) == CallNode && Settled(e) && AdaptExpr(e).Some?
    ensures AdaptExpr(AdaptExpr(e).value) == AdaptExpr(e)
    decreases JsSize(e), 1
  {
    var args := ListOf(e, "args");
    AdaptCallNode(e);
    AdaptListIdempotent(args.items);
    CallTwice(CalleeOf(e), AdaptList(args.items).value);
  }

  lemma {:induction false} ArrayIdempotent(e: Js)
    requires KindOf(e) == ArrayNode && Settled(e) && AdaptExpr(e).Some?
    ensures AdaptExpr(AdaptExpr(e).value) == AdaptExpr(e)
    decreases JsSize(e), 1
  {
    var items := ListOf(e, "items");
    AdaptArrayNode(e);
    AdaptListIdempotent(items.items);
    ArrayTwice(AdaptList(items.items).value);
  }

  lemma {:induction false} IndexIdempotent(e: Js)
    requires KindOf(e) == IndexNode && Settled(e) && AdaptExpr(e).Some?
    ensures AdaptExpr(AdaptExpr(e).value) == AdaptExpr(e)
    decreases JsSize(e), 1
  {
    AdaptIndexNode(e);
    AdaptIdempotent(TargetOf(e));
    AdaptIdempotent(Get(e, "index"));
    AdaptedOperandIsLoose(TargetOf(e));
    IndexTwice(AdaptExpr(TargetOf(e)).value, AdaptExpr(Get(e, "index")).value);
  }

  lemma {:induction false} AdaptListIdempotent(items: seq<Js>)
    requires SettledList(items) && AdaptList(items).Some?
    ensures AdaptList(AdaptList(items).value) == AdaptList(items)
    decreases JsItemsSize(items), 3
  {
    if items != [] {
      AdaptIdempotent(items[0]);
      AdaptListIdempotent(items[1..]);
      var xs := AdaptList(items).value;
      assert xs[1..] == AdaptList(items[1..]).value;
      assert xs == [xs[0]] + xs[1..];
    }
  }

  /** The first pass over a Binary node whose only fallback is `name: null`. */
  lemma NullNameFirstPass(e: Js)
    requires e == JObj([("type", JStr("Binary")), ("name", JNull)])
    ensures AdaptExpr(e) == Some(JObj([("type", JStr("Binary")), ("op", JNull), ("left", JUndef), ("right", JUndef)]))
  {
    var fs := [("type", JStr("Binary")), ("name", JNull)];
    GetFieldFirst(fs, "type", 0);
    GetFieldFirst(fs, "name", 1);
    assert forall j :: 0 <= j < |fs| ==> fs[j].0 != "op" && fs[j].0 != "operator" && fs[j].0 != "left" && fs[j].0 != "right";
    assert OpOf(e) == JNull;
    assert Get(e, "left") == JUndef && Get(e, "right") == JUndef;
    TypedKind(e, "Binary");
    AdaptBinaryNode(e);
  }

  /** The second pass reads `op: null || undefined || undefined`, which is undefined. */
  lemma NullOpSecondPass(n: Js)
    requires n == JObj([("type", JStr("Binary")), ("op", JNull), ("left", JUndef), ("right", JUndef)])
    ensures AdaptExpr(n) == Some(JObj([("type", JStr("Binary")), ("op", JUndef), ("left", JUndef), ("right", JUndef)]))
  {
    BinaryFields(JNull, JUndef, JUndef);
    assert OpOf(n) == JUndef;
    TypedKind(n, "Binary");
    AdaptBinaryNode(n);
  }

  /** Without the condition the second pass differs: `name: null` becomes `op: null`, then `op: undefined`. */
  lemma NullNameBreaksIdempotence(e: Js)
    requires e == JObj([("type", JStr("Binary")), ("name", JNull)])
    ensures AdaptExpr(e).Some? && AdaptExpr(AdaptExpr(e).value) != AdaptExpr(e)
  {
    NullNameFirstPass(e);
    var n := AdaptExpr(e).value;
    NullOpSecondPass(n);
    var n2 := AdaptExpr(n).value;
    assert n2.fields[1] != n.fields[1];
  }

  /** Every call in the tree has a non-empty callee, and there is no Binary or Unary node, as in every tree the hand parser builds. */
  predicate HandShaped(e: Expr)
    decreases e, 1
  {
    match e
    case Array(items) => HandShapedList(items)
    case Index(t, i) => HandShaped(t) && HandShaped(i)
    case Call(c, args) => c != "" && HandShapedList(args)
    case Binary(_, _, _, _) => false
    case Unary(_, _, _) => false
    case _ => true
  }

  predicate HandShapedList(es: seq<Expr>)
    decreases es, 0
  {
    forall i :: 0 <= i < |es| ==> HandShaped(es[i])
  }

  /** An `Unknown` node is no kind the adapter knows and is returned as it is. */
  lemma UnknownUnchanged(raw: string)
    ensures AdaptExpr(ExprJs(Unknown(raw))) == Some(ExprJs(Unknown(raw)))
  {
    var fs := [("type", JStr("Unknown")), ("raw", JStr(raw))];
    var e := JObj(fs);
    assert ExprJs(Unknown(raw)) == e;
    GetFieldFirst(fs, "type", 0);
    TypedKind(e, "Unknown");
    AdaptOtherNode(e);
  }

  /** A value of no kind the adapter knows is returned as it is. */
  lemma AdaptOtherNode(e: Js)
    requires KindOf(e) == OtherNode
    ensures AdaptExpr(e) == Some(e)
  {
  }

  /**
   * A tree the hand parser builds passes through the adapter unchanged, so
   * adapting both sides of a comparison cannot create a difference
   * (gen-adapter.ts:1-3, 29-39).
   */
  lemma {:induction false} HandTreeIsFixedPoint(e: Expr)
    requires HandShaped(e)
    ensures AdaptExpr(ExprJs(e)) == Some(ExprJs(e))
    decreases e, 1
  {
    match e
    case Number(d) => LeafTwice("Number", "value", JNum(d));
    case String(t) => LeafTwice("String", "value", JStr(t));
    case Identifier(n) => LeafTwice("Identifier", "name", JStr(n));
    case Unknown(raw) => UnknownUnchanged(raw);
    case Array(items) =>
      HandListIsFixedPoint(items);
      ArrayTwice(ExprsJs(items));
    case Index(t, i) =>
      HandTreeIsFixedPoint(t);
      HandTreeIsFixedPoint(i);
      IndexTwice(ExprJs(t), ExprJs(i));
    case Call(c, args) =>
      HandListIsFixedPoint(args);
      CallTwice(JStr(c), ExprsJs(args));
  }

  lemma {:induction false} HandListIsFixedPoint(es: seq<Expr>)
    requires HandShapedList(es)
    ensures AdaptList(ExprsJs(es)) == Some(ExprsJs(es))
    decreases es, 0
  {
    if es != [] {
      HandTreeIsFixedPoint(es[0]);
      HandListIsFixedPoint(es[1..]);
      var xs := ExprsJs(es);
      assert xs[1..] == ExprsJs(es[1..]);
      assert xs == [xs[0]] + xs[1..];
    }
  }

  /** The hand parser's `{indicators, assignments}` has no `type` and is returned unchanged (gen-adapter.ts:7, 14). */
  lemma HandProgramUnchanged(p: Program)
    ensures AdaptProgram(HandProgramJs(p)) == Some(HandProgramJs(p))
  {
    var ast := HandProgramJs(p);
    assert forall j :: 0 <= j < |ast.fields| ==> ast.fields[j].0 != "type";
    assert !HasType(ast, "Program");
  }

  /** A leaf keeps only its type and its canonical property: a location or any other key is dropped (gen-adapter.ts:30-33). */
  lemma IdentifierDropsExtraKeys(n: Js, extra: seq<(string, Js)>)
    ensures AdaptExpr(JObj([("type", JStr("Identifier")), ("name", n)] + extra)) == Some(Leaf("Identifier", "name", n))
  {
    var fs := [("type", JStr("Identifier")), ("name", n)] + extra;
    GetFieldFirst(fs, "type", 0);
    GetFieldFirst(fs, "name", 1);
    TypedKind(JObj(fs), "Identifier");
  }

  /** A wrapper array is replaced by the adaptation of its first node-like element (gen-adapter.ts:20-24). */
  lemma WrapperUnwrapsFirstNode(items: seq<Js>, i: nat)
    requires i < |items| && IsNodeLike(items[i])
    requires forall j :: 0 <= j < i ==> !IsNodeLike(items[j])
    ensures AdaptExpr(JArr(items)) == AdaptExpr(items[i])
  {
    var f := FirstNode(items);
    assert f.Some?;
    assert f.value == i;
  }

  /** Without node-like elements, the string elements of a wrapper array are joined into one Identifier (gen-adapter.ts:25-27). */
  lemma WrapperJoinsStrings(a: string, b: string)
    requires a + b != ""
    ensures AdaptExpr(JArr([JStr(a), JNull, JStr(b)])) == Some(Leaf("Identifier", "name", JStr(a + b)))
  {
    var items := [JStr(a), JNull, JStr(b)];
    assert FirstNode(items).None? by {
      assert forall j :: 0 <= j < |items| ==> !items[j].JObj?;
    }
    assert items[1..][1..] == [JStr(b)] && [JStr(b)][1..] == [];
    assert StringParts([JStr(b)]) == b;
    assert StringParts(items[1..]) == b;
    assert StringParts(items) == a + b;
  }

  /**
   * A generated assignment without `id` takes its id from `name`, and its
   * expression from `value` when `expr` is missing (gen-adapter.ts:9-10).
   */
  lemma AssignmentFallbacks(n: string, v: Js)
    requires n != "" && AdaptExpr(v).Some?
    ensures AdaptAssignment(JObj([("type", JStr("Assignment")), ("name", JStr(n)), ("value", v)]))
      == Some(JObj([("id", JStr(n)), ("expr", AdaptExpr(v).value)]))
  {
    var f0, f1, f2 := ("type", JStr("Assignment")), ("name", JStr(n)), ("value", v);
    GetField3(f0, f1, f2, "id");
    GetField3(f0, f1, f2, "name");
    GetField3(f0, f1, f2, "expr");
    GetField3(f0, f1, f2, "value");
    var a := JObj([f0, f1, f2]);
    assert Or(Get(a, "id"), Get(a, "name")) == JStr(n);
    assert Or(Get(a, "expr"), Get(a, "value")) == v;
  }
}
