/**
 * The adapter of gen-adapter.ts: it rewrites the tree a generated parser
 * builds into the shape the hand parser builds, so the two can be compared.
 * It keeps the first usable element of a wrapper array, turns raw numbers and
 * strings into leaves, takes each node field from the first truthy of its
 * alternative names, and rebuilds every node with its canonical fields only.
 * `None` stands for the `TypeError` that `.map` throws on a truthy
 * non-array and that reading a property of `null` throws.
 */
module GenAdapter {
  import opened Wrappers
  import opened Js

  /** `el && typeof el === 'object' && (el.type || el.callee || el.name)` */
  predicate IsNodeLike(el: Js)
  {
    el.JObj? && (Truthy(Get(el, "type")) || Truthy(Get(el, "callee")) || Truthy(Get(el, "name")))
  }

  /** The first-match search over a wrapper array (gen-adapter.ts:22-24), from index `i` on. */
  function FirstNodeFrom(items: seq<Js>, i: nat): (r: Option<nat>)
    requires i <= |items|
    ensures r.Some? ==> i <= r.value < |items| && IsNodeLike(items[r.value])
                        && forall j :: i <= j < r.value ==> !IsNodeLike(items[j])
    ensures r.None? ==> forall j :: i <= j < |items| ==> !IsNodeLike(items[j])
    decreases |items| - i
  {
    if i == |items| then None
    else if IsNodeLike(items[i]) then Some(i)
    else FirstNodeFrom(items, i + 1)
  }

  function FirstNode(items: seq<Js>): (r: Option<nat>)
    ensures r.Some? ==> r.value < |items| && IsNodeLike(items[r.value])
                        && forall j :: 0 <= j < r.value ==> !IsNodeLike(items[j])
    ensures r.None? ==> forall j :: 0 <= j < |items| ==> !IsNodeLike(items[j])
  {
    FirstNodeFrom(items, 0)
  }

  /** `e.filter(x => typeof x === 'string').join('')` */
  function StringParts(items: seq<Js>): (r: string)
    ensures (forall j :: 0 <= j < |items| ==> !items[j].JStr? || items[j].s == "") ==> r == ""
  {
    if items == [] then ""
    else (if items[0].JStr? then items[0].s else "") + StringParts(items[1..])
  }

  /** `e.op || e.operator || e.name` */
  function OpOf(e: Js): Js
  {
    Or(Or(Get(e, "op"), Get(e, "operator")), Get(e, "name"))
  }

  /** `e.expr || e.argument` */
  function OperandOf(e: Js): (r: Js)
    ensures e.JObj? ==> JsSize(r) < JsSize(e)
  {
    Or(Get(e, "expr"), Get(e, "argument"))
  }

  /** `e.callee || e.name` */
  function CalleeOf(e: Js): Js
  {
    Or(Get(e, "callee"), Get(e, "name"))
  }

  /** `e.target || e.base || e.object` */
  function TargetOf(e: Js): (r: Js)
    ensures e.JObj? ==> JsSize(r) < JsSize(e)
  {
    Or(Or(Get(e, "target"), Get(e, "base")), Get(e, "object"))
  }

  /** The branch of `adaptExpr` a value takes, tested in the order of the source. */
  datatype NodeKind =
    | Nullish | Wrapper | RawNumber | NumberNode | StringNode | RawString | IdentifierNode
    | BinaryNode | UnaryNode | CallNode | ArrayNode | IndexNode | OtherNode

  function KindOf(e: Js): (k: NodeKind)
    ensures k == Nullish <==> IsNullish(e)
    ensures k == Wrapper ==> e.JArr?
    ensures k == RawNumber ==> e.JNum?
    ensures k in {BinaryNode, UnaryNode, CallNode, ArrayNode, IndexNode} ==> e.JObj?
  {
    if IsNullish(e) then Nullish
    else if e.JArr? then Wrapper
    else if e.JNum? then RawNumber
    else if HasType(e, "Number") then NumberNode
    else if HasType(e, "String") then StringNode
    else if e.JStr? then RawString
    else if HasType(e, "Identifier") then IdentifierNode
    else if HasType(e, "Binary") then BinaryNode
    else if HasType(e, "Unary") then UnaryNode
    else if HasType(e, "Call") then CallNode
    else if HasType(e, "Array") then ArrayNode
    else if HasType(e, "Index") then IndexNode
    else OtherNode
  }

  /**
   * `adaptExpr` (gen-adapter.ts:17-40). The result is a rebuilt node
   * object, or the input itself: a non-object input other than a number or
   * a string is never turned into a node.
   */
  function AdaptExpr(e: Js): (r: Option<Js>)
    ensures r.Some? ==> r.value.JObj? || (r.value == e && !e.JNum? && !e.JStr?)
    ensures IsNullish(e) ==> r == Some(e)
    decreases JsSize(e), 2
  {
    match KindOf(e)
    case Nullish => Some(e)
    case Wrapper =>
      (match FirstNode(e.items)
       case Some(i) =>
         ItemBelow(e.items, i);
         AdaptExpr(e.items[i])
       case None =>
         var parts := StringParts(e.items);
         if parts != "" then Some(Leaf("Identifier", "name", JStr(parts))) else Some(e))
    case RawNumber => Some(Leaf("Number", "value", e))
    case NumberNode => Some(Leaf("Number", "value", Get(e, "value")))
    case StringNode => Some(Leaf("String", "value", Get(e, "value")))
    case RawString => Some(Leaf("Identifier", "name", e))
    case IdentifierNode => Some(Leaf("Identifier", "name", Get(e, "name")))
    case BinaryNode =>
      (match (AdaptExpr(Get(e, "left")), AdaptExpr(Get(e, "right")))
       case (Some(l), Some(r)) => Some(JObj([("type", JStr("Binary")), ("op", OpOf(e)), ("left", l), ("right", r)]))
       case _ => None)
    case UnaryNode =>
      (match AdaptExpr(OperandOf(e))
       case Some(x) => Some(JObj([("type", JStr("Unary")), ("op", OpOf(e)), ("expr", x)]))
       case None => None)
    case CallNode =>
      var args := ListOf(e, "args");
      if !args.JArr? then None
      else
        (match AdaptList(args.items)
         case Some(xs) => Some(JObj([("type", JStr("Call")), ("callee", CalleeOf(e)), ("args", JArr(xs))]))
         case None => None)
    case ArrayNode =>
      var items := ListOf(e, "items");
      if !items.JArr? then None
      else
        (match AdaptList(items.items)
         case Some(xs) => Some(Leaf("Array", "items", JArr(xs)))
         case None => None)
    case IndexNode =>
      (match (AdaptExpr(TargetOf(e)), AdaptExpr(Get(e, "index")))
       case (Some(t), Some(i)) => Some(JObj([("type", JStr("Index")), ("target", t), ("index", i)]))
       case _ => None)
    case OtherNode => Some(e)
  }

  /** `items.map(adaptExpr)`: fails when any element fails. */
  function AdaptList(items: seq<Js>): (r: Option<seq<Js>>)
    ensures r.Some? ==> |r.value| == |items|
    decreases JsItemsSize(items), 3
  {
    if items == [] then Some([])
    else
      match (AdaptExpr(items[0]), AdaptList(items[1..]))
      case (Some(x), Some(xs)) => Some([x] + xs)
      case _ => None
  }

  /** One item of `ast.assignments.map(...)` (gen-adapter.ts:8-11); reading `a.id` of null or undefined throws. */
  function AdaptAssignment(a: Js): (r: Option<Js>)
    ensures r.None? <==> IsNullish(a) || AdaptExpr(Or(Get(a, "expr"), Get(a, "value"))).None?
    ensures r.Some? ==> r.value == JObj([("id", Or(Get(a, "id"), Get(a, "name"))),
                                         ("expr", AdaptExpr(Or(Get(a, "expr"), Get(a, "value"))).value)])
  {
    if IsNullish(a) then None
    else
      match AdaptExpr(Or(Get(a, "expr"), Get(a, "value")))
      case Some(x) => Some(JObj([("id", Or(Get(a, "id"), Get(a, "name"))), ("expr", x)]))
      case None => None
  }

  function AdaptAssignments(items: seq<Js>): (r: Option<seq<Js>>)
    ensures r.Some? <==> forall i :: 0 <= i < |items| ==> AdaptAssignment(items[i]).Some?
    ensures r.Some? ==> |r.value| == |items|
                        && forall i :: 0 <= i < |items| ==> AdaptAssignment(items[i]) == Some(r.value[i])
  {
    if items == [] then Some([])
    else
      match (AdaptAssignment(items[0]), AdaptAssignments(items[1..]))
      case (Some(x), Some(xs)) => Some([x] + xs)
      case (None, _) => None
      case (_, None) => None
  }

  /** `type: 'Program'` with an array of assignments: the only input the adapter converts. */
  predicate IsGeneratedProgram(ast: Js)
  {
    HasType(ast, "Program") && IsArrayField(ast, "assignments")
  }

  /**
   * `adaptGeneratedProgram` (gen-adapter.ts:5-15): a generated program
   * becomes `{indicators, assignments}` with one adapted entry per input
   * entry, in order; every other input is returned as it is.
   */
  function AdaptProgram(ast: Js): (r: Option<Js>)
    ensures !IsGeneratedProgram(ast) ==> r == Some(ast)
    ensures IsGeneratedProgram(ast) ==>
      var items := Get(ast, "assignments").items;
      (r.Some? <==> forall i :: 0 <= i < |items| ==> AdaptAssignment(items[i]).Some?) &&
      (r.Some? ==> exists xs ::
         (|xs| == |items|
          && (forall i :: 0 <= i < |items| ==> AdaptAssignment(items[i]) == Some(xs[i]))
          && r.value == JObj([("indicators", Or(Get(ast, "indicators"), JArr([]))), ("assignments", JArr(xs))])))
  {
    if !Truthy(ast) then Some(ast)
    else if IsGeneratedProgram(ast) then
      match AdaptAssignments(Get(ast, "assignments").items)
      case Some(xs) => Some(JObj([("indicators", Or(Get(ast, "indicators"), JArr([]))), ("assignments", JArr(xs))]))
      case None => None
    else Some(ast)
  }
}
