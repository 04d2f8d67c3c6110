/**
 * Properties of the evaluator: the operation budget counts exactly the nodes
 * visited, evaluation touches no binding but the counter, dotted lookup
 * stops at null, and which errors a parsed tree can raise.
 */
module StarRuntimeProps {
  import opened Wrappers
  import opened Strings
  import opened StarAst
  import opened StarValues
  import opened StarBuiltins
  import opened StarRuntime
  import StarTransform
  import StarValuesProps

  /** Resolving a path in two halves is resolving it in one go. */
  lemma {:induction false} ResolveFromAppend(cur: Value, a: seq<string>, b: seq<string>)
    ensures ResolveFrom(cur, a + b) == ResolveFrom(ResolveFrom(cur, a), b)
    decreases |a|
  {
    if a == [] {
      assert a + b == b;
    } else if IsNullish(cur) {
      if b != [] {
        assert ResolveFrom(VUndef, b) == VUndef;
      }
    } else {
      assert (a + b)[1..] == a[1..] + b;
      ResolveFromAppend(Prop(cur, a[0]), a[1..], b);
    }
  }

  /** Once a prefix of the path resolves to null or undefined, the whole path is undefined (index.ts:12). */
  lemma ResolveStopsAtNullish(cur: Value, parts: seq<string>, k: nat)
    requires k < |parts| && IsNullish(ResolveFrom(cur, parts[..k]))
    ensures ResolveFrom(cur, parts) == VUndef
  {
    assert parts == parts[..k] + parts[k..];
    ResolveFromAppend(cur, parts[..k], parts[k..]);
  }

  /** A dotted name `a.b` reads field `b` of the object bound to `a`. */
  lemma DottedNameReadsField(vars: map<string, Value>, a: string, b: string, fields: map<string, Value>)
    requires '.' !in a && '.' !in b
    requires a in vars && vars[a] == VObj(fields)
    ensures ResolvePath(vars, a + "." + b) == Lookup(fields, b)
  {
    var s := a + "." + b;
    assert s[|a|] == '.';
    assert '.' !in s[..|a|] by { assert s[..|a|] == a; }
    assert IndexOf(s, '.') == |a|;
    assert s[..|a|] == a;
    assert s[|a| + 1..] == b;
    assert Split(s, '.') == [a] + Split(b, '.');
    assert Split(b, '.') == [b];
    assert [a] + [b] == [a, b];
    assert [a, b][1..] == [b];
    assert [b][1..] == [];
    assert ResolveFrom(VObj(vars), [a, b]) == ResolveFrom(VObj(fields), [b]);
    assert ResolveFrom(VObj(fields), [b]) == ResolveFrom(Prop(VObj(fields), b), []);
  }

  /** `after` is `before` with only `_opCount` rebound, to a number. */
  predicate CountsOnly(before: map<string, Value>, after: map<string, Value>)
  {
    after == before["_opCount" := VNum(OpCount(after))]
  }

  lemma CountsOnlyTrans(a: map<string, Value>, b: map<string, Value>, c: map<string, Value>)
    requires CountsOnly(a, b) && CountsOnly(b, c)
    ensures CountsOnly(a, c)
  {
  }

  lemma TickCountsOnly(env: Env)
    ensures CountsOnly(env.vars, Tick(env).vars)
  {
  }

  /** The environment after a node that stops at the budget or evaluates no child. */
  lemma EvalEnvLeaf(e: Expr, env: Env)
    requires Exceeds(OpCount(Tick(env).vars), env.vars) || e.Number? || e.String? || e.Identifier? || e.Unknown?
    ensures Eval(e, env).env == Tick(env)
    ensures Exceeds(OpCount(Tick(env).vars), env.vars) ==> Eval(e, env).result.Err?
  {
  }

  /** The environment after a Binary node: that of its left operand, then of its right one. */
  lemma EvalEnvBinary(e: Expr, env: Env)
    requires e.Binary? && !Exceeds(OpCount(Tick(env).vars), env.vars)
    ensures var ol := Eval(e.left, Tick(env));
      Eval(e, env).env == if ol.result.Err? then ol.env else Eval(e.right, ol.env).env
    ensures var ol := Eval(e.left, Tick(env));
      Eval(e, env).result.Ok? ==> ol.result.Ok? && Eval(e.right, ol.env).result.Ok?
  {
    var ol := Eval(e.left, Tick(env));
    if ol.result.Ok? {
      var or := Eval(e.right, ol.env);
      assert Eval(e, env) == if or.result.Err? then or else Outcome(BinaryOp(e.op, ol.result.value, or.result.value), or.env);
    } else {
      assert Eval(e, env) == ol;
    }
  }

  /** The environment after an Index node: that of its target, then of its index. */
  lemma EvalEnvIndex(e: Expr, env: Env)
    requires e.Index? && !Exceeds(OpCount(Tick(env).vars), env.vars)
    ensures var ot := Eval(e.target, Tick(env));
      Eval(e, env).env == if ot.result.Err? then ot.env else Eval(e.index, ot.env).env
    ensures var ot := Eval(e.target, Tick(env));
      Eval(e, env).result.Ok? ==> ot.result.Ok? && Eval(e.index, ot.env).result.Ok?
  {
    var ot := Eval(e.target, Tick(env));
    if ot.result.Ok? {
      var oi := Eval(e.index, ot.env);
      assert Eval(e, env) == if oi.result.Err? then oi else Outcome(Ok(IndexValue(ot.result.value, oi.result.value)), oi.env);
    } else {
      assert Eval(e, env) == ot;
    }
  }

  lemma EvalEnvUnary(e: Expr, env: Env)
    requires e.Unary? && !Exceeds(OpCount(Tick(env).vars), env.vars)
    ensures Eval(e, env).env == Eval(e.operand, Tick(env)).env
    ensures Eval(e, env).result.Ok? ==> Eval(e.operand, Tick(env)).result.Ok?
  {
    var ov := Eval(e.operand, Tick(env));
    assert Eval(e, env) == if ov.result.Err? then ov else Outcome(UnaryOp(e.op, ov.result.value), ov.env);
  }

  lemma EvalEnvArray(e: Expr, env: Env)
    requires e.Array? && !Exceeds(OpCount(Tick(env).vars), env.vars)
    ensures Eval(e, env).env == EvalList(e.items, Tick(env)).env
    ensures Eval(e, env).result.Ok? ==> EvalList(e.items, Tick(env)).result.Ok?
  {
  }

  /** A call keeps the bindings of its arguments' evaluation; a builtin may only add plots or inputs. */
  lemma EvalEnvCall(e: Expr, env: Env)
    requires e.Call? && !Exceeds(OpCount(Tick(env).vars), env.vars)
    ensures Eval(e, env).env.vars == EvalList(e.args, Tick(env)).env.vars
    ensures EvalList(e.args, Tick(env)).env.plots <= Eval(e, env).env.plots
    ensures Eval(e, env).result.Ok? ==> EvalList(e.args, Tick(env)).result.Ok?
  {
  }

  /** Evaluation changes no binding except `_opCount`, which ends up a number (index.ts:20-22). */
  lemma {:induction false} EvalOnlyCounts(e: Expr, env: Env)
    ensures Eval(e, env).env.vars == env.vars["_opCount" := VNum(OpCount(Eval(e, env).env.vars))]
    decreases e, 1
  {
    var env1 := Tick(env);
    TickCountsOnly(env);
    if Exceeds(OpCount(env1.vars), env.vars) {
      EvalEnvLeaf(e, env);
    } else {
      match e
      case Binary(_, _, l, r) =>
        EvalEnvBinary(e, env);
        EvalOnlyCounts(l, env1);
        CountsOnlyTrans(env.vars, env1.vars, Eval(l, env1).env.vars);
        if Eval(l, env1).result.Ok? {
          EvalOnlyCounts(r, Eval(l, env1).env);
          CountsOnlyTrans(env.vars, Eval(l, env1).env.vars, Eval(r, Eval(l, env1).env).env.vars);
        }
      case Unary(_, _, x) =>
        EvalEnvUnary(e, env);
        EvalOnlyCounts(x, env1);
        CountsOnlyTrans(env.vars, env1.vars, Eval(x, env1).env.vars);
      case Call(_, args) =>
        EvalEnvCall(e, env);
        EvalListOnlyCounts(args, env1);
        CountsOnlyTrans(env.vars, env1.vars, EvalList(args, env1).env.vars);
      case Array(items) =>
        EvalEnvArray(e, env);
        EvalListOnlyCounts(items, env1);
        CountsOnlyTrans(env.vars, env1.vars, EvalList(items, env1).env.vars);
      case Index(t, i) =>
        EvalEnvIndex(e, env);
        EvalOnlyCounts(t, env1);
        CountsOnlyTrans(env.vars, env1.vars, Eval(t, env1).env.vars);
        if Eval(t, env1).result.Ok? {
          EvalOnlyCounts(i, Eval(t, env1).env);
          CountsOnlyTrans(env.vars, Eval(t, env1).env.vars, Eval(i, Eval(t, env1).env).env.vars);
        }
      case _ =>
        EvalEnvLeaf(e, env);
    }
  }

  lemma {:induction false} EvalListOnlyCounts(es: seq<Expr>, env: Env)
    requires "_opCount" in env.vars && env.vars["_opCount"].VNum?
    ensures EvalList(es, env).env.vars == env.vars["_opCount" := VNum(OpCount(EvalList(es, env).env.vars))]
    decreases es, 0
  {
    if es != [] {
      EvalOnlyCounts(es[0], env);
      var first := Eval(es[0], env);
      if first.result.Ok? {
        EvalListOnlyCounts(es[1..], first.env);
      }
    }
  }

  /** Rebinding only the counter keeps the limit. */
  lemma CountsOnlyKeepsLimit(a: map<string, Value>, b: map<string, Value>)
    requires CountsOnly(a, b)
    ensures OpLimit(b) == OpLimit(a)
  {
  }

  /**
   * A successful evaluation adds exactly one operation per node of the tree
   * to the counter, and the counter stays within the limit (index.ts:20-23).
   */
  lemma {:induction false} EvalCountsNodes(e: Expr, env: Env)
    ensures Eval(e, env).result.Ok? ==> OpCount(Eval(e, env).env.vars) == OpCount(env.vars) + Size(e) as real
    ensures Eval(e, env).result.Ok? ==> !Exceeds(OpCount(Eval(e, env).env.vars), env.vars)
    decreases e, 1
  {
    var env1 := Tick(env);
    if Exceeds(OpCount(env1.vars), env.vars) {
      EvalEnvLeaf(e, env);
    } else {
      TickCountsOnly(env);
      CountsOnlyKeepsLimit(env.vars, env1.vars);
      match e
      case Binary(_, _, _, _) => EvalCountsNodesBinary(e, env);
      case Unary(_, _, x) =>
        EvalEnvUnary(e, env);
        EvalCountsNodes(x, env1);
      case Call(_, args) =>
        EvalEnvCall(e, env);
        EvalListCountsNodes(args, env1);
      case Array(items) =>
        EvalEnvArray(e, env);
        EvalListCountsNodes(items, env1);
      case Index(_, _) => EvalCountsNodesIndex(e, env);
      case _ =>
        EvalEnvLeaf(e, env);
    }
  }

  lemma {:induction false} EvalCountsNodesBinary(e: Expr, env: Env)
    requires e.Binary? && !Exceeds(OpCount(Tick(env).vars), env.vars)
    ensures Eval(e, env).result.Ok? ==> OpCount(Eval(e, env).env.vars) == OpCount(env.vars) + Size(e) as real
    ensures Eval(e, env).result.Ok? ==> !Exceeds(OpCount(Eval(e, env).env.vars), env.vars)
    decreases e, 0
  {
    var env1 := Tick(env);
    TickCountsOnly(env);
    CountsOnlyKeepsLimit(env.vars, env1.vars);
    EvalEnvBinary(e, env);
    var ol := Eval(e.left, env1);
    if ol.result.Ok? {
      EvalCountsNodes(e.left, env1);
      EvalOnlyCounts(e.left, env1);
      CountsOnlyKeepsLimit(env1.vars, ol.env.vars);
      EvalCountsNodes(e.right, ol.env);
    }
  }

  lemma {:induction false} EvalCountsNodesIndex(e: Expr, env: Env)
    requires e.Index? && !Exceeds(OpCount(Tick(env).vars), env.vars)
    ensures Eval(e, env).result.Ok? ==> OpCount(Eval(e, env).env.vars) == OpCount(env.vars) + Size(e) as real
    ensures Eval(e, env).result.Ok? ==> !Exceeds(OpCount(Eval(e, env).env.vars), env.vars)
    decreases e, 0
  {
    var env1 := Tick(env);
    TickCountsOnly(env);
    CountsOnlyKeepsLimit(env.vars, env1.vars);
    EvalEnvIndex(e, env);
    var ot := Eval(e.target, env1);
    if ot.result.Ok? {
      EvalCountsNodes(e.target, env1);
      EvalOnlyCounts(e.target, env1);
      CountsOnlyKeepsLimit(env1.vars, ot.env.vars);
      EvalCountsNodes(e.index, ot.env);
    }
  }

  lemma {:induction false} EvalListCountsNodes(es: seq<Expr>, env: Env)
    ensures EvalList(es, env).result.Ok? ==> OpCount(EvalList(es, env).env.vars) == OpCount(env.vars) + SizeList(es) as real
    ensures EvalList(es, env).result.Ok? ==> !Exceeds(OpCount(EvalList(es, env).env.vars), env.vars) || es == []
    decreases es, 0
  {
    if es != [] {
      EvalCountsNodes(es[0], env);
      var first := Eval(es[0], env);
      if first.result.Ok? {
        EvalOnlyCounts(es[0], env);
        EvalListCountsNodes(es[1..], first.env);
      }
    }
  }

  /** A tree with more nodes than the remaining budget always throws (index.ts:23). */
  lemma OversizedTreeThrows(e: Expr, env: Env)
    requires OpLimit(env.vars).Some? && OpCount(env.vars) + Size(e) as real > OpLimit(env.vars).value
    ensures Eval(e, env).result.Err?
  {
    EvalCountsNodes(e, env);
  }

  /**
   * A limit bound as the text of a number, such as `_opLimit = "5"`, is
   * compared as that number: a tree larger than the remaining budget throws.
   */
  lemma TextLimitStopsLargeTrees(e: Expr, env: Env, n: nat)
    requires "_opLimit" in env.vars && env.vars["_opLimit"] == VStr(NatToString(n))
    requires OpCount(env.vars) + Size(e) as real > n as real
    ensures Eval(e, env).result.Err?
  {
    StarValuesProps.NumberOfNatText(n);
    assert OpLimit(env.vars) == Some(n as real);
    OversizedTreeThrows(e, env);
  }

  /**
   * A limit that reads as NaN, such as the text of an unbound name, makes
   * `count > opLimit` false at every visit: the budget never throws.
   */
  lemma {:induction false} UnreadableLimitNeverThrows(e: Expr, env: Env)
    requires OpLimit(env.vars).None?
    ensures Eval(e, env).result.Err? ==> !Eval(e, env).result.error.OperationLimit?
    decreases e, 1
  {
    var env1 := Tick(env);
    TickCountsOnly(env);
    CountsOnlyKeepsLimit(env.vars, env1.vars);
    match e
    case Binary(_, _, l, r) =>
      EvalEnvBinary(e, env);
      UnreadableLimitNeverThrowsPair(e, l, r, env1);
    case Unary(_, _, x) =>
      UnreadableLimitNeverThrows(x, env1);
    case Call(_, args) =>
      UnreadableLimitNeverThrowsList(args, env1);
    case Array(items) =>
      UnreadableLimitNeverThrowsList(items, env1);
    case Index(t, i) =>
      EvalEnvIndex(e, env);
      UnreadableLimitNeverThrowsPair(e, t, i, env1);
    case _ =>
  }

  /** Two operands evaluated in turn, as Binary and Index nodes do, raise no budget error either. */
  lemma {:induction false} UnreadableLimitNeverThrowsPair(e: Expr, a: Expr, b: Expr, env: Env)
    requires (e.Binary? && a == e.left && b == e.right) || (e.Index? && a == e.target && b == e.index)
    requires OpLimit(env.vars).None?
    ensures Eval(a, env).result.Err? ==> !Eval(a, env).result.error.OperationLimit?
    ensures Eval(a, env).result.Ok? && Eval(b, Eval(a, env).env).result.Err? ==>
      !Eval(b, Eval(a, env).env).result.error.OperationLimit?
    decreases e, 0
  {
    UnreadableLimitNeverThrows(a, env);
    var oa := Eval(a, env);
    if oa.result.Ok? {
      EvalOnlyCounts(a, env);
      CountsOnlyKeepsLimit(env.vars, oa.env.vars);
      UnreadableLimitNeverThrows(b, oa.env);
    }
  }

  lemma {:induction false} UnreadableLimitNeverThrowsList(es: seq<Expr>, env: Env)
    requires OpLimit(env.vars).None?
    ensures EvalList(es, env).result.Err? ==> !EvalList(es, env).result.error.OperationLimit?
    decreases es, 0
  {
    if es != [] {
      UnreadableLimitNeverThrows(es[0], env);
      var first := Eval(es[0], env);
      if first.result.Ok? {
        EvalOnlyCounts(es[0], env);
        CountsOnlyKeepsLimit(env.vars, first.env.vars);
        UnreadableLimitNeverThrowsList(es[1..], first.env);
      }
    }
  }

  /** From a fresh counter, the default budget admits any tree of at most a million nodes that raises nothing else. */
  lemma FreshCounterAdmitsSmallTrees(e: Expr, env: Env)
    requires "_opCount" !in env.vars && "_opLimit" !in env.vars
    requires Eval(e, env).result.Ok?
    ensures Size(e) <= 1000000
  {
    EvalCountsNodes(e, env);
  }

  /**
   * A name that is not `true`/`false` and does not resolve evaluates to its
   * own text instead of throwing (index.ts:31-38).
   */
  lemma UnresolvedNameIsItsText(name: string, env: Env)
    requires name != "true" && name != "false"
    requires '.' !in name && name !in env.vars && name != "_opCount"
    requires !Exceeds(OpCount(env.vars) + 1.0, env.vars)
    ensures Eval(Identifier(name), env).result == Ok(VStr(name))
  {
  }

  /** The two errors a tree from the hand parser can raise: the budget and an `Unknown` node. */
  predicate ParserReachableError(err: RuntimeError)
  {
    err.OperationLimit? || err.UnsupportedNode?
  }

  /** A tree without Binary or Unary nodes never raises an operator error. */
  lemma {:induction false} OperatorFreeErrors(e: Expr, env: Env)
    requires NoOperators(e)
    ensures Eval(e, env).result.Err? ==> ParserReachableError(Eval(e, env).result.error)
    decreases e, 1
  {
    var env1 := Tick(env);
    if !Exceeds(OpCount(env1.vars), env.vars) {
      match e
      case Call(_, args) =>
        OperatorFreeListErrors(args, env1);
      case Array(items) =>
        OperatorFreeListErrors(items, env1);
      case Index(t, i) =>
        OperatorFreeErrors(t, env1);
        OperatorFreeErrors(i, Eval(t, env1).env);
      case _ =>
    }
  }

  lemma {:induction false} OperatorFreeListErrors(es: seq<Expr>, env: Env)
    requires NoOperatorsList(es)
    ensures EvalList(es, env).result.Err? ==> ParserReachableError(EvalList(es, env).result.error)
    decreases es, 0
  {
    if es != [] {
      OperatorFreeErrors(es[0], env);
      var first := Eval(es[0], env);
      if first.result.Ok? {
        assert NoOperatorsList(es[1..]) by {
          forall i | 0 <= i < |es| - 1 ensures NoOperators(es[1..][i]) {
            assert es[1..][i] == es[i + 1];
          }
        }
        OperatorFreeListErrors(es[1..], first.env);
      }
    }
  }

  /**
   * A `plot(...)` call whose arguments record nothing themselves adds exactly
   * one `{callee: 'plot', args}` record and evaluates to null (runner.ts:36).
   */
  lemma PlotCallAddsOneRecord(args: seq<Expr>, env: Env)
    requires "plot" in env.vars && env.vars["plot"] == VFun(Plot)
    requires Eval(Call("plot", args), env).result.Ok?
    requires EvalList(args, Tick(env)).env.plots == env.plots
    ensures Eval(Call("plot", args), env).result == Ok(VNull)
    ensures Eval(Call("plot", args), env).env.plots == env.plots + [PlotRecord(EvalList(args, Tick(env)).result.value)]
  {
    var env1 := Tick(env);
    assert "plot" != "_opCount" by {
      assert "plot"[0] != "_opCount"[0];
    }
    assert ResolvePath(env1.vars, "plot") == VFun(Plot) by {
      assert '.' !in "plot";
      assert env1.vars["plot"] == VFun(Plot);
    }
    var oa := EvalList(args, env1);
    assert !Exceeds(OpCount(env1.vars), env.vars);
    EvalEnvCall(Call("plot", args), env);
    EvalCallApplies(Call("plot", args), env);
  }

  /** A call whose callee names a builtin applies it to the evaluated arguments (index.ts:59-66). */
  lemma EvalCallApplies(e: Expr, env: Env)
    requires e.Call? && !Exceeds(OpCount(Tick(env).vars), env.vars)
    requires ResolvePath(Tick(env).vars, e.callee).VFun? && EvalList(e.args, Tick(env)).result.Ok?
    ensures var oa := EvalList(e.args, Tick(env));
      var applied := Apply(ResolvePath(Tick(env).vars, e.callee).f, oa.result.value, oa.env);
      Eval(e, env) == Outcome(Ok(applied.0), applied.1)
  {
  }

  /**
   * The transformer rebuilds Binary nodes with `operator` only, while the
   * evaluator switches on `op`: a transformed Binary node never evaluates.
   */
  lemma TransformedBinaryThrows(op: Option<string>, operator: Option<string>, l: Expr, r: Expr, env: Env)
    ensures Eval(StarTransform.Transform(Binary(op, operator, l, r)), env).result.Err?
  {
    var t := Binary(None, operator, StarTransform.Transform(l), StarTransform.Transform(r));
    assert StarTransform.Transform(Binary(op, operator, l, r)) == t;
    BinaryWithoutOpThrows(t, env);
  }

  /** A Binary node without `op` throws, at the latest once both operands are evaluated (index.ts:49). */
  lemma BinaryWithoutOpThrows(e: Expr, env: Env)
    requires e.Binary? && e.op.None?
    ensures Eval(e, env).result.Err?
  {
    assert !IsBinaryOp(e.op);
    if !Exceeds(OpCount(Tick(env).vars), env.vars) {
      var ol := Eval(e.left, Tick(env));
      if ol.result.Ok? {
        var or := Eval(e.right, ol.env);
        if or.result.Ok? {
          assert BinaryOp(e.op, ol.result.value, or.result.value).Err?;
        }
      }
    }
  }

  /** An `Unknown` node (a call with trailing text) always throws (index.ts:74-75). */
  lemma UnknownThrows(raw: string, env: Env)
    ensures Eval(Unknown(raw), env).result.Err?
  {
  }

  /**
   * `-`, `*`, `/` and `^` see only the numbers their operands convert to: a
   * numeral text, a boolean, null or a one-element list acts as its number.
   */
  lemma ArithConvertsOperands(op: string, l: Value, r: Value)
    requires op == "-" || op == "*" || op == "/" || op == "^"
    requires !Untracked(l) && !Untracked(r) && ToNumber(l).Some? && ToNumber(r).Some?
    ensures Arith(op, l, r) == Arith(op, VNum(ToNumber(l).value), VNum(ToNumber(r).value))
  {
  }

  /** `*` commutes on every pair of values, whatever they convert to. */
  lemma ProductCommutes(l: Value, r: Value)
    ensures Arith("*", l, r) == Arith("*", r, l)
  {
    if Untracked(l) || Untracked(r) {
      ProductUntracked("*", l, r);
      ProductUntracked("*", r, l);
    } else if ToNumber(l).Some? && ToNumber(r).Some? {
      var x, y := ToNumber(l).value, ToNumber(r).value;
      ProductOfNumbers("*", l, r);
      ProductOfNumbers("*", r, l);
      assert x * y == y * x;
    } else {
      ProductWithNaN("*", l, r);
      ProductWithNaN("*", r, l);
    }
  }

  lemma ProductUntracked(op: string, l: Value, r: Value)
    requires op == "*" && (Untracked(l) || Untracked(r))
    ensures Arith(op, l, r) == VOpaque
  {
    assert op != "+" && op != "^" by {
      assert op[0] == '*';
    }
  }

  lemma ProductOfNumbers(op: string, l: Value, r: Value)
    requires op == "*" && !Untracked(l) && !Untracked(r) && ToNumber(l).Some? && ToNumber(r).Some?
    ensures Arith(op, l, r) == VNum(ToNumber(l).value * ToNumber(r).value)
  {
    assert op != "+" && op != "^" by {
      assert op[0] == '*';
    }
    var x, y := ToNumber(l).value, ToNumber(r).value;
    assert Arith(op, l, r) == NumericOp(op, x, y);
  }

  lemma ProductWithNaN(op: string, l: Value, r: Value)
    requires op == "*" && !Untracked(l) && !Untracked(r) && (ToNumber(l).None? || ToNumber(r).None?)
    ensures Arith(op, l, r) == VNaN
  {
    assert op != "+" && op != "^" by {
      assert op[0] == '*';
    }
  }

  /** `+` commutes on operands it adds as numbers (a text operand concatenates, in order). */
  lemma SumCommutes(l: Value, r: Value)
    requires AddsAsNumber(l) && AddsAsNumber(r)
    ensures Arith("+", l, r) == Arith("+", r, l)
  {
  }

  /** A whole negative exponent divides: `x ** -k` is the inverse of `x ** k`. */
  lemma NegativeExponentInverts(x: real, k: nat)
    requires x != 0.0 && k >= 1
    ensures Arith("^", VNum(x), VNum(k as real)).VNum?
    ensures Arith("^", VNum(x), VNum(-(k as real))).VNum?
    ensures Arith("^", VNum(x), VNum(k as real)).n * Arith("^", VNum(x), VNum(-(k as real))).n == 1.0
  {
    assert (-(k as real)).Floor == -(k as int);
    assert (k as real).Floor == k;
  }
}
