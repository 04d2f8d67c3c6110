/**
 * The syntax tree as the JavaScript objects the parser, the transformer and
 * the canonicalisers build, with the property order those objects are
 * written in. `JSON.stringify` of these objects is what the transpiler
 * embeds and what the parser-diff script compares.
 */
module StarJson {
  import opened Wrappers
  import opened StarAst
  import opened Js

  function OptStr(o: Option<string>): (r: Js)
    ensures o.None? <==> r == JUndef
  {
    match o
    case None => JUndef
    case Some(s) => JStr(s)
  }

  /** The node object of one tree node, `type` first. */
  function ExprJs(e: Expr): (r: Js)
    ensures r.JObj? && |r.fields| >= 2 && r.fields[0].0 == "type"
    decreases e, 1
  {
    match e
    case Number(d) => JObj([("type", JStr("Number")), ("value", JNum(d))])
    case String(t) => JObj([("type", JStr("String")), ("value", JStr(t))])
    case Identifier(n) => JObj([("type", JStr("Identifier")), ("name", JStr(n))])
    case Array(items) => JObj([("type", JStr("Array")), ("items", JArr(ExprsJs(items)))])
    case Index(t, i) => JObj([("type", JStr("Index")), ("target", ExprJs(t)), ("index", ExprJs(i))])
    case Call(c, args) => JObj([("type", JStr("Call")), ("callee", JStr(c)), ("args", JArr(ExprsJs(args)))])
    case Binary(op, operator, l, r) =>
      JObj([("type", JStr("Binary")), ("op", OptStr(op)), ("operator", OptStr(operator)), ("left", ExprJs(l)), ("right", ExprJs(r))])
    case Unary(op, operator, x) =>
      JObj([("type", JStr("Unary")), ("op", OptStr(op)), ("operator", OptStr(operator)), ("expr", ExprJs(x))])
    case Unknown(raw) => JObj([("type", JStr("Unknown")), ("raw", JStr(raw))])
  }

  function ExprsJs(es: seq<Expr>): (r: seq<Js>)
    ensures |r| == |es|
    ensures forall i :: 0 <= i < |es| ==> r[i] == ExprJs(es[i])
    decreases es, 0
  {
    if es == [] then [] else [ExprJs(es[0])] + ExprsJs(es[1..])
  }

  function StrsJs(ss: seq<string>): (r: seq<Js>)
    ensures |r| == |ss| && forall i :: 0 <= i < |ss| ==> r[i] == JStr(ss[i])
  {
    seq(|ss|, i requires 0 <= i < |ss| => JStr(ss[i]))
  }

  /** `{id, expr}` */
  function AssignmentJs(a: Assignment): Js
  {
    JObj([("id", JStr(a.id)), ("expr", ExprJs(a.expr))])
  }

  function AssignmentsJs(as_: seq<Assignment>): (r: seq<Js>)
    ensures |r| == |as_| && forall i :: 0 <= i < |as_| ==> r[i] == AssignmentJs(as_[i])
  {
    seq(|as_|, i requires 0 <= i < |as_| => AssignmentJs(as_[i]))
  }

  /** The object `parse` returns: `{indicators, assignments}`. */
  function HandProgramJs(p: Program): Js
  {
    JObj([("indicators", JArr(StrsJs(p.indicators))), ("assignments", JArr(AssignmentsJs(p.assignments)))])
  }

  /** The object `transformProgram` returns for a parsed program: `{version: null, indicators, assignments}`. */
  function TransformedProgramJs(p: Program): Js
  {
    JObj([("version", JNull), ("indicators", JArr(StrsJs(p.indicators))), ("assignments", JArr(AssignmentsJs(p.assignments)))])
  }
}
