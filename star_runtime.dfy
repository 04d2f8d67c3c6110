/**
 * The tree-walking evaluator of src/lib/star-runtime/index.ts: `resolvePath`
 * and `evaluate`. Evaluation threads the environment, because every call of
 * `evaluate` writes the operation counter `_opCount` into it and host
 * functions record plots, inputs and strategy calls.
 */
module StarRuntime {
  import opened Wrappers
  import opened Strings
  import opened StarAst
  import opened StarValues
  import opened StarBuiltins

  /** Walks `parts` from `cur`, stopping with undefined at a null or undefined intermediate value. */
  function ResolveFrom(cur: Value, parts: seq<string>): (r: Value)
    ensures parts == [] ==> r == cur
    decreases |parts|
  {
    if parts == [] then cur
    else if IsNullish(cur) then VUndef
    else ResolveFrom(Prop(cur, parts[0]), parts[1..])
  }

  /** `resolvePath(env, path)` (index.ts:8-16): the dotted path from the environment object; a name without a dot is a plain lookup. */
  function ResolvePath(vars: map<string, Value>, path: string): (r: Value)
    ensures '.' !in path ==> r == Lookup(vars, path)
  {
    ResolveFrom(VObj(vars), Split(path, '.'))
  }

  /** The loop of `resolvePath`: a cursor moved one segment at a time, with an early exit. */
  method ResolvePathLoop(vars: map<string, Value>, path: string) returns (r: Value)
    ensures r == ResolvePath(vars, path)
  {
    var parts := Split(path, '.');
    var cur := VObj(vars);
    var i := 0;
    while i < |parts|
      invariant 0 <= i <= |parts|
      invariant ResolveFrom(cur, parts[i..]) == ResolvePath(vars, path)
    {
      if IsNullish(cur) {
        return VUndef;
      }
      assert parts[i..][1..] == parts[i + 1..];
      cur := Prop(cur, parts[i]);
      i := i + 1;
    }
    r := cur;
  }

  const DefaultOpLimit: real := 1000000.0

  /**
   * `env._opCount || 0` read as the number `+= 1` adds to: a falsy counter
   * starts from 0, a number counts on and a boolean counts as 0 or 1. A
   * truthy text, list or object counter, which `+=` would concatenate, also
   * starts from 0 here.
   */
  function OpCount(vars: map<string, Value>): (c: real)
    ensures "_opCount" !in vars ==> c == 0.0
    ensures "_opCount" in vars && !Truthy(vars["_opCount"]) ==> c == 0.0
    ensures "_opCount" in vars && vars["_opCount"].VNum? ==> c == vars["_opCount"].n
    ensures "_opCount" in vars && vars["_opCount"] == VBool(true) ==> c == 1.0
  {
    if "_opCount" in vars && AddsAsNumber(vars["_opCount"]) && ToNumber(vars["_opCount"]).Some?
    then ToNumber(vars["_opCount"]).value
    else 0.0
  }

  /** `env._opLimit || 1000000`: the limit the error message names. */
  function LimitValue(vars: map<string, Value>): (v: Value)
    ensures Truthy(v)
    ensures "_opLimit" !in vars ==> v == VNum(DefaultOpLimit)
    ensures "_opLimit" in vars && Truthy(vars["_opLimit"]) ==> v == vars["_opLimit"]
  {
    if "_opLimit" in vars && Truthy(vars["_opLimit"]) then vars["_opLimit"] else VNum(DefaultOpLimit)
  }

  /**
   * The number `env._opCount > opLimit` compares the counter with: the
   * limit under `Number(...)`, or `None` when that is NaN, for which the
   * comparison is false and the guard never fires.
   */
  function OpLimit(vars: map<string, Value>): (l: Option<real>)
    ensures "_opLimit" !in vars ==> l == Some(DefaultOpLimit)
    ensures "_opLimit" in vars && !Truthy(vars["_opLimit"]) ==> l == Some(DefaultOpLimit)
    ensures "_opLimit" in vars && vars["_opLimit"].VNum? && vars["_opLimit"].n != 0.0 ==> l == Some(vars["_opLimit"].n)
    ensures "_opLimit" in vars && vars["_opLimit"] == VBool(true) ==> l == Some(1.0)
    ensures "_opLimit" in vars && vars["_opLimit"].VStr? && vars["_opLimit"].s != "" ==> l == NumberOfString(vars["_opLimit"].s)
  {
    ToNumber(LimitValue(vars))
  }

  /** `count > opLimit` (index.ts:23): false whenever the limit reads as NaN. */
  predicate Exceeds(count: real, vars: map<string, Value>)
  {
    OpLimit(vars).Some? && count > OpLimit(vars).value
  }

  /** `env._opCount += 1` */
  function Tick(env: Env): (r: Env)
    ensures OpCount(r.vars) == OpCount(env.vars) + 1.0
    ensures OpLimit(r.vars) == OpLimit(env.vars) && LimitValue(r.vars) == LimitValue(env.vars)
  {
    env.(vars := env.vars["_opCount" := VNum(OpCount(env.vars) + 1.0)])
  }

  datatype RuntimeError =
    | OperationLimit(limit: Value)
    | UnsupportedBinary(op: Option<string>)
    | UnsupportedUnary(op: Option<string>)
    | UnsupportedNode(kind: string)

  /** What one `evaluate` call returns or throws, and the environment after it. */
  datatype Outcome = Outcome(result: Result<Value, RuntimeError>, env: Env)

  datatype Outcomes = Outcomes(result: Result<seq<Value>, RuntimeError>, env: Env)

  /** Operands `+` adds as numbers: those whose primitive value is not text. */
  predicate AddsAsNumber(v: Value)
  {
    v.VUndef? || v.VNull? || v.VBool? || v.VNum? || v.VNaN?
  }

  /**
   * `l + r`: two texts concatenate; operands whose primitive is not text
   * add as numbers; every other mix produces text (or an infinity) that
   * this model does not follow.
   */
  function Add(l: Value, r: Value): (v: Value)
    ensures l.VStr? && r.VStr? ==> v == VStr(l.s + r.s)
    ensures AddsAsNumber(l) && AddsAsNumber(r) ==> (v == VNaN <==> ToNumber(l).None? || ToNumber(r).None?)
  {
    if l.VStr? && r.VStr? then VStr(l.s + r.s)
    else if AddsAsNumber(l) && AddsAsNumber(r) then
      match (ToNumber(l), ToNumber(r))
      case (Some(x), Some(y)) => VNum(x + y)
      case _ => VNaN
    else VOpaque
  }

  /** `x ** k` for a whole exponent. */
  function Power(x: real, k: nat): (r: real)
    ensures x != 0.0 ==> r != 0.0
    ensures k == 0 ==> r == 1.0
  {
    if k == 0 then 1.0 else x * Power(x, k - 1)
  }

  /**
   * `Math.pow(x, y)` for finite `x` and `y` other than a zero exponent:
   * whole exponents are exact (a negative one divides), a negative base
   * with a fractional exponent is NaN, and the other fractional powers are
   * not followed, except those of 0 and 1.
   */
  function Pow(x: real, y: real): (v: Value)
    ensures IsInteger(y) && y >= 0.0 ==> v == VNum(Power(x, y.Floor))
    ensures v == VNaN <==> !IsInteger(y) && x < 0.0
  {
    if IsInteger(y) then
      if y >= 0.0 then VNum(Power(x, y.Floor))
      else if x != 0.0 then VNum(1.0 / Power(x, -y.Floor))
      else VOpaque
    else if x < 0.0 then VNaN
    else if x == 0.0 then (if y > 0.0 then VNum(0.0) else VOpaque)
    else if x == 1.0 then VNum(1.0)
    else VOpaque
  }

  /** `-`, `*`, `/` and `^` on two finite numbers; `x / 0` is infinite unless `x` is 0, when it is NaN. */
  function NumericOp(op: string, x: real, y: real): (v: Value)
    ensures v == VNaN <==> (op == "/" && y == 0.0 && x == 0.0) || (op != "-" && op != "*" && op != "/" && !IsInteger(y) && x < 0.0)
  {
    if op == "-" then VNum(x - y)
    else if op == "*" then VNum(x * y)
    else if op == "/" then (if y != 0.0 then VNum(x / y) else if x == 0.0 then VNaN else VOpaque)
    else Pow(x, y)
  }

  /**
   * The operators of a Binary node (index.ts:43-47). `-`, `*`, `/` and `^`
   * convert both operands with `Number(v)` first; NaN in an operand makes
   * the result NaN, except that `Math.pow(x, 0)` is 1 whatever `x` is.
   */
  function Arith(op: string, l: Value, r: Value): (v: Value)
    ensures op == "^" && ToNumber(r) == Some(0.0) ==> v == VNum(1.0)
    ensures op == "+" && l.VStr? && r.VStr? ==> v == VStr(l.s + r.s)
    ensures (op == "-" || op == "*" || op == "/" || op == "^") && !(op == "^" && ToNumber(r) == Some(0.0))
            && !Untracked(l) && !Untracked(r)
            ==> (v == VNaN <==> ToNumber(l).None? || ToNumber(r).None? || (op == "/" && ToNumber(l) == Some(0.0) && ToNumber(r) == Some(0.0))
                                || (op == "^" && ToNumber(l).Some? && ToNumber(l).value < 0.0 && ToNumber(r).Some? && !IsInteger(ToNumber(r).value)))
  {
    if op == "+" then Add(l, r)
    else if op == "^" && ToNumber(r) == Some(0.0) then VNum(1.0)
    else if Untracked(l) || Untracked(r) then VOpaque
    else match (ToNumber(l), ToNumber(r))
      case (Some(x), Some(y)) => NumericOp(op, x, y)
      case _ => VNaN
  }

  predicate IsBinaryOp(op: Option<string>)
  {
    op == Some("+") || op == Some("-") || op == Some("*") || op == Some("/") || op == Some("^")
  }

  /** The switch on `node.op` of a Binary node (index.ts:42-49). */
  function BinaryOp(op: Option<string>, l: Value, r: Value): (res: Result<Value, RuntimeError>)
    ensures res.Ok? <==> IsBinaryOp(op)
  {
    if IsBinaryOp(op) then Ok(Arith(op.value, l, r)) else Err(UnsupportedBinary(op))
  }

  /** The switch on `node.op` of a Unary node (index.ts:53-57). */
  function UnaryOp(op: Option<string>, v: Value): (res: Result<Value, RuntimeError>)
    ensures res.Ok? <==> op == Some("+") || op == Some("-")
  {
    if op == Some("+") || op == Some("-") then
      if Untracked(v) then Ok(VOpaque)
      else match ToNumber(v)
      case Some(x) => Ok(VNum(if op == Some("+") then x else -x))
      case None => Ok(VNaN)
    else Err(UnsupportedUnary(op))
  }

  /** The text `String(i)` of a non-negative integer `i` names element `i` of an array. */
  lemma NatIndexKey(v: Value)
    ensures v.VNum? && IsInteger(v.n) && v.n >= 0.0 ==>
      IsIndexKey(IntToString(v.n.Floor)) && DigitsValue(IntToString(v.n.Floor)) == v.n.Floor
  {
    if v.VNum? && IsInteger(v.n) && v.n >= 0.0 {
      NatToStringLeads(v.n.Floor);
      DigitsValueOfNatToString(v.n.Floor);
    }
  }

  /**
   * `target?.[idx]` (index.ts:72): undefined on null or undefined, the field
   * an object has under the key, and the element an array has at an
   * integer position within it.
   */
  function IndexValue(target: Value, idx: Value): (r: Value)
    ensures IsNullish(target) ==> r == VUndef
    ensures target.VObj? && idx.VStr? ==> r == Lookup(target.fields, idx.s)
    ensures target.VList? && idx.VNum? && IsInteger(idx.n) && 0.0 <= idx.n < |target.items| as real && idx.n < 1e21
            ==> r == target.items[idx.n.Floor]
  {
    NatIndexKey(idx);
    if IsNullish(target) then VUndef
    else match KeyOf(idx)
      case Some(k) => Prop(target, k)
      case None => VOpaque
  }

  /** `{ callee, args }`, what a call of something that is not a function evaluates to. */
  function Placeholder(callee: string, args: seq<Value>): Value
  {
    VObj(map["callee" := VStr(callee), "args" := VList(args)])
  }

  /**
   * `evaluate(node, env)` (index.ts:18-77). The visit is counted and the
   * limit checked before the node is looked at; evaluation only appends to
   * the plot records; an `Unknown` node always throws.
   */
  function Eval(e: Expr, env: Env): (o: Outcome)
    ensures env.plots <= o.env.plots
    ensures Exceeds(OpCount(Tick(env).vars), env.vars) ==> o == Outcome(Err(OperationLimit(LimitValue(env.vars))), Tick(env))
    ensures e.Unknown? ==> o.result.Err?
    decreases e, 1
  {
    var env1 := Tick(env);
    if Exceeds(OpCount(env1.vars), env.vars) then Outcome(Err(OperationLimit(LimitValue(env.vars))), env1)
    else match e
      case Number(d) => Outcome(Ok(VNum(DecimalValue(d))), env1)
      case String(t) => Outcome(Ok(VStr(t)), env1)
      case Identifier(n) =>
        if n == "true" then Outcome(Ok(VBool(true)), env1)
        else if n == "false" then Outcome(Ok(VBool(false)), env1)
        else
          var v := ResolvePath(env1.vars, n);
          Outcome(Ok(if v != VUndef then v else VStr(n)), env1)
      case Binary(op, _, left, right) =>
        var ol := Eval(left, env1);
        if ol.result.Err? then ol
        else
          var or := Eval(right, ol.env);
          if or.result.Err? then or
          else Outcome(BinaryOp(op, ol.result.value, or.result.value), or.env)
      case Unary(op, _, operand) =>
        var ov := Eval(operand, env1);
        if ov.result.Err? then ov
        else Outcome(UnaryOp(op, ov.result.value), ov.env)
      case Call(callee, args) =>
        var fn := ResolvePath(env1.vars, callee);
        var oa := EvalList(args, env1);
        if oa.result.Err? then Outcome(Err(oa.result.error), oa.env)
        else if fn.VFun? then
          var applied := Apply(fn.f, oa.result.value, oa.env);
          Outcome(Ok(applied.0), applied.1)
        else Outcome(Ok(Placeholder(callee, oa.result.value)), oa.env)
      case Array(items) =>
        var oi := EvalList(items, env1);
        if oi.result.Err? then Outcome(Err(oi.result.error), oi.env)
        else Outcome(Ok(VList(oi.result.value)), oi.env)
      case Index(target, index) =>
        var ot := Eval(target, env1);
        if ot.result.Err? then ot
        else
          var oi := Eval(index, ot.env);
          if oi.result.Err? then oi
          else Outcome(Ok(IndexValue(ot.result.value, oi.result.value)), oi.env)
      case Unknown(_) => Outcome(Err(UnsupportedNode("Unknown")), env1)
  }

  /** `nodes.map(n => evaluate(n, env))`: left to right, stopping at the first throw. */
  function EvalList(es: seq<Expr>, env: Env): (o: Outcomes)
    ensures o.result.Ok? ==> |o.result.value| == |es|
    ensures env.plots <= o.env.plots
    decreases es, 0
  {
    if es == [] then Outcomes(Ok([]), env)
    else
      var first := Eval(es[0], env);
      if first.result.Err? then Outcomes(Err(first.result.error), first.env)
      else
        var rest := EvalList(es[1..], first.env);
        if rest.result.Err? then rest
        else Outcomes(Ok([first.result.value] + rest.result.value), rest.env)
  }
}
