/**
 * The transpiler of src/lib/star-transpiler.ts: `renderExpr`, which prints a
 * transformed tree back as Star source, `transpilePineToStar`, which prints
 * a whole program one line per assignment, and `transpileToJsModule`, which
 * embeds the transformed tree as JSON inside a JavaScript template literal
 * and replays it against the default environment.
 */
module StarTranspiler {
  import opened Wrappers
  import opened Strings
  import opened StarAst
  import opened Js
  import opened StarJson
  import opened StarTransform
  import opened StarValues
  import opened StarRuntime
  import opened StarRunner
  import StarParser

  /** Call arguments split into the positional ones and the `name value` pairs. */
  datatype Grouped = Grouped(positional: seq<Expr>, named: seq<(string, Expr)>)

  /** `args[i]` is an Identifier and a non-Identifier argument follows it. */
  predicate IsPair(args: seq<Expr>, i: nat)
  {
    i + 1 < |args| && args[i].Identifier? && !args[i + 1].Identifier?
  }

  predicate DistinctKeys(named: seq<(string, Expr)>)
  {
    forall i, j :: 0 <= i < j < |named| ==> named[i].0 != named[j].0
  }

  /** Everything grouped so far was taken from `args`, and every named value is a non-Identifier. */
  predicate FromArgs(g: Grouped, args: seq<Expr>)
  {
    (forall j :: 0 <= j < |g.positional| ==> g.positional[j] in args) &&
    (forall j :: 0 <= j < |g.named| ==> g.named[j].1 in args && !g.named[j].1.Identifier?)
  }

  /**
   * `obj[k] = v` on an object whose own keys keep insertion order: an
   * existing key keeps its place and takes the new value, a new key goes last.
   * JavaScript lists integer-like keys (`"7"`) before all others; the line
   * parser never names an identifier argument with digits alone (those
   * become numbers), so on parsed programs insertion order is the order
   * `Object.entries` gives.
   */
  function Assign(named: seq<(string, Expr)>, k: string, v: Expr): (r: seq<(string, Expr)>)
    requires DistinctKeys(named)
    ensures DistinctKeys(r)
    ensures (exists j :: 0 <= j < |named| && named[j].0 == k) ==>
      |r| == |named| && forall j :: 0 <= j < |named| ==> r[j] == if named[j].0 == k then (k, v) else named[j]
    ensures (forall j :: 0 <= j < |named| ==> named[j].0 != k) ==> r == named + [(k, v)]
    ensures forall j :: 0 <= j < |r| ==> r[j] in named || r[j] == (k, v)
  {
    if named == [] then [(k, v)]
    else if named[0].0 == k then [(k, v)] + named[1..]
    else
      var rest := Assign(named[1..], k, v);
      assert named == [named[0]] + named[1..];
      AssignConsKeys(named[0], named[1..], rest, k, v);
      AssignConsShape(named[0], named[1..], rest, k, v);
      [named[0]] + rest
  }

  /** Putting back a first pair with another key in front of an Assign on the rest keeps its shape. */
  lemma AssignConsShape(x: (string, Expr), tail: seq<(string, Expr)>, rest: seq<(string, Expr)>, k: string, v: Expr)
    requires x.0 != k
    requires (exists j :: 0 <= j < |tail| && tail[j].0 == k) ==>
      |rest| == |tail| && forall j :: 0 <= j < |tail| ==> rest[j] == if tail[j].0 == k then (k, v) else tail[j]
    requires (forall j :: 0 <= j < |tail| ==> tail[j].0 != k) ==> rest == tail + [(k, v)]
    ensures (exists j :: 0 <= j < |[x] + tail| && ([x] + tail)[j].0 == k) ==>
      |[x] + rest| == |[x] + tail| &&
      forall j :: 0 <= j < |[x] + tail| ==> ([x] + rest)[j] == if ([x] + tail)[j].0 == k then (k, v) else ([x] + tail)[j]
    ensures (forall j :: 0 <= j < |[x] + tail| ==> ([x] + tail)[j].0 != k) ==> [x] + rest == [x] + tail + [(k, v)]
  {
    if exists j :: 0 <= j < |[x] + tail| && ([x] + tail)[j].0 == k {
      var j :| 0 <= j < |[x] + tail| && ([x] + tail)[j].0 == k;
      assert j >= 1 && tail[j - 1].0 == k;
    } else {
      forall j | 0 <= j < |tail| ensures tail[j].0 != k {
        assert ([x] + tail)[j + 1] == tail[j];
      }
    }
  }

  /** Putting back the first pair in front of an Assign on the rest keeps the keys distinct. */
  lemma AssignConsKeys(x: (string, Expr), tail: seq<(string, Expr)>, rest: seq<(string, Expr)>, k: string, v: Expr)
    requires DistinctKeys([x] + tail) && x.0 != k && DistinctKeys(rest)
    requires forall j :: 0 <= j < |rest| ==> rest[j] in tail || rest[j] == (k, v)
    ensures DistinctKeys([x] + rest)
    ensures forall j :: 0 <= j < |[x] + rest| ==> ([x] + rest)[j] in [x] + tail || ([x] + rest)[j] == (k, v)
  {
    forall j | 0 <= j < |rest|
      ensures rest[j].0 != x.0
    {
      if rest[j] in tail {
        var m :| 0 <= m < |tail| && tail[m] == rest[j];
        assert ([x] + tail)[0] == x && ([x] + tail)[m + 1] == rest[j];
      }
    }
  }

  const ProtoKey := "__proto__"

  /**
   * `named[k] = v` on the plain object of renderExpr: assigning `__proto__`
   * an object replaces the prototype and adds no own key.
   */
  function Put(named: seq<(string, Expr)>, k: string, v: Expr): (r: seq<(string, Expr)>)
    requires DistinctKeys(named)
    ensures DistinctKeys(r)
    ensures k == ProtoKey ==> r == named
    ensures forall j :: 0 <= j < |r| ==> r[j] in named || r[j] == (k, v)
  {
    if k == ProtoKey then named else Assign(named, k, v)
  }

  /** The loop of renderExpr (star-transpiler.ts:46-56) from index `i` on. */
  function GroupFrom(args: seq<Expr>, i: nat, acc: Grouped): (g: Grouped)
    requires i <= |args| && DistinctKeys(acc.named) && FromArgs(acc, args)
    ensures DistinctKeys(g.named) && FromArgs(g, args)
    decreases |args| - i
  {
    if i == |args| then acc
    else if IsPair(args, i) then
      GroupFrom(args, i + 2, acc.(named := Put(acc.named, args[i].name, args[i + 1])))
    else
      GroupFrom(args, i + 1, acc.(positional := acc.positional + [args[i]]))
  }

  /** How renderExpr sorts the arguments of a call. */
  function GroupArgs(args: seq<Expr>): (g: Grouped)
    ensures DistinctKeys(g.named) && FromArgs(g, args)
  {
    GroupFrom(args, 0, Grouped([], []))
  }

  /**
   * The argument loop as written: a manual index that skips the value of a
   * pair, filling `posArgs` and `named`.
   */
  method GroupCallArgs(args: seq<Expr>) returns (positional: seq<Expr>, named: seq<(string, Expr)>)
    ensures Grouped(positional, named) == GroupArgs(args)
  {
    positional := [];
    named := [];
    var i := 0;
    while i < |args|
      invariant i <= |args| && DistinctKeys(named) && FromArgs(Grouped(positional, named), args)
      invariant GroupFrom(args, i, Grouped(positional, named)) == GroupArgs(args)
      decreases |args| - i
    {
      var a := args[i];
      if i + 1 < |args| && a.Identifier? && !args[i + 1].Identifier? {
        named := Put(named, a.name, args[i + 1]);
        i := i + 2;
      } else {
        positional := positional + [a];
        i := i + 1;
      }
    }
  }

  /** An optional operator string used as a JavaScript value: present and non-empty. */
  predicate OpTruthy(o: Option<string>)
  {
    o.Some? && o.value != ""
  }

  /** `${e.op || e.operator || '-'}` */
  function UnaryOpText(op: Option<string>, operator: Option<string>): (r: string)
    ensures r != ""
  {
    if OpTruthy(op) then op.value else if OpTruthy(operator) then operator.value else "-"
  }

  /** `${e.operator || e.op || e.operator}`: a missing operator prints as `undefined`. */
  function BinaryOpText(op: Option<string>, operator: Option<string>): string
  {
    if OpTruthy(operator) then operator.value
    else if OpTruthy(op) then op.value
    else if operator.Some? then operator.value
    else "undefined"
  }

  /**
   * `renderExpr` (star-transpiler.ts:39-72): a call prints as its callee
   * and a parenthesised argument list, an array in brackets, an index with
   * the target first and the index in brackets, an identifier as its name.
   */
  function Render(e: Expr): (r: string)
    ensures e.Call? ==> StartsWith(r, e.callee + "(") && EndsWith(r, ")")
    ensures e.Array? ==> StartsWith(r, "[") && EndsWith(r, "]")
    ensures e.Index? ==> StartsWith(r, Render(e.target) + "[") && EndsWith(r, "]")
    ensures e.Identifier? ==> r == e.name
    decreases e, 1
  {
    match e
    case Call(callee, args) =>
      var g := GroupArgs(args);
      var parts := seq(|g.positional|, i requires 0 <= i < |g.positional| => Render(g.positional[i]));
      var pairs := seq(|g.named|, i requires 0 <= i < |g.named| => g.named[i].0 + ": " + Render(g.named[i].1));
      var all := if pairs == [] then parts else parts + ["{ " + Join(pairs, ", ") + " }"];
      callee + "(" + Join(all, ", ") + ")"
    case Identifier(n) => n
    case Number(d) => NumberText(d)
    case String(t) => Quote(t)
    case Array(items) => "[" + Join(RenderList(items), ", ") + "]"
    case Index(t, i) => Render(t) + "[" + Render(i) + "]"
    case Unary(op, operator, x) => UnaryOpText(op, operator) + Render(x)
    case Binary(op, operator, l, r) => Render(l) + " " + BinaryOpText(op, operator) + " " + Render(r)
    case Unknown(_) => Stringify(ExprJs(e))
  }

  function RenderList(es: seq<Expr>): (r: seq<string>)
    ensures |r| == |es|
    ensures forall i :: 0 <= i < |es| ==> r[i] == Render(es[i])
    decreases es, 0
  {
    if es == [] then [] else [Render(es[0])] + RenderList(es[1..])
  }

  /**
   * A `_call` line: the arguments rendered one by one, without pair
   * grouping. An entry whose expression is not a call has neither callee nor
   * arguments and prints as `undefined()`.
   */
  function CallLine(e: Expr): string
  {
    if e.Call? then e.callee + "(" + Join(RenderList(e.args), ", ") + ")" else "undefined()"
  }

  /**
   * One line of `transpilePineToStar` (star-transpiler.ts:17-22): `id = expr`
   * for a binding, the bare call for a `_call` entry.
   */
  function StarLine(a: Assignment): (r: string)
    ensures a.id != CallId ==> StartsWith(r, a.id + " = ") && r[|a.id| + 3..] == Render(a.expr)
    ensures a.id == CallId && a.expr.Call? ==> StartsWith(r, a.expr.callee + "(") && EndsWith(r, ")")
  {
    if a.id == CallId then CallLine(a.expr) else a.id + " = " + Render(a.expr)
  }

  /** The lines `transpilePineToStar` pushes, one per assignment, in order. */
  function StarLines(p: Program): (r: seq<string>)
    ensures |r| == |p.assignments|
    ensures forall i :: 0 <= i < |r| ==> r[i] == StarLine(p.assignments[i])
  {
    seq(|p.assignments|, i requires 0 <= i < |p.assignments| => StarLine(p.assignments[i]))
  }

  /** The program `transpilePineToStar` prints: the parsed source after the callee rewrite. */
  function TranspiledProgram(source: string): Program
  {
    TransformProgram(StarParser.ParseLines(StarParser.Lines(source)))
  }

  /** The loop of `transpilePineToStar` (star-transpiler.ts:14-23): one line per assignment, in order. */
  method PrintLines(t: Program) returns (lines: seq<string>)
    ensures lines == StarLines(t)
  {
    lines := [];
    for i := 0 to |t.assignments|
      invariant |lines| == i
      invariant forall j :: 0 <= j < i ==> lines[j] == StarLine(t.assignments[j])
    {
      lines := lines + [StarLine(t.assignments[i])];
    }
  }

  /** `transpilePineToStar(source)` (star-transpiler.ts:8-25). */
  method TranspilePineToStar(source: string) returns (out: string)
    ensures out == Join(StarLines(TranspiledProgram(source)), "\n")
  {
    var ast := StarParser.Parse(source);
    var t := TransformProgram(ast);
    var lines := PrintLines(t);
    out := Join(lines, "\n");
  }

  /** The JSON text of the transformed program that the module embeds. */
  function ModuleJson(source: string): string
  {
    Stringify(TransformedProgramJs(TranspiledProgram(source)))
  }

  /** `.replace(/\\/g, '\\\\').replace(/`/g, '\\`')`: backslashes doubled, then backticks escaped. */
  function EscapeAsWritten(s: string): string
  {
    ReplaceAll(ReplaceAll(s, "\\", "\\\\"), "`", "\\`")
  }

  /** The escaping the embedding needs: as written, plus every `$` escaped so that no `${` starts a substitution. */
  function EscapeCorrected(s: string): string
  {
    ReplaceAll(EscapeAsWritten(s), "$", "\\$")
  }

  /**
   * The string value of a template literal whose body is `t`, for the
   * escapes the embedding writes. `None` when the body ends the template
   * early (a bare backtick), starts a substitution (`${`), or holds an
   * escape the embedding never writes.
   */
  function Cook(t: string): (r: Option<string>)
    decreases |t|
  {
    if t == [] then Some([])
    else if t[0] == '\\' then
      if |t| >= 2 && (t[1] == '\\' || t[1] == '`' || t[1] == '$') then Prepend(t[1], Cook(t[2..])) else None
    else if t[0] == '`' then None
    else if t[0] == '$' && |t| >= 2 && t[1] == '{' then None
    else Prepend(t[0], Cook(t[1..]))
  }

  const ModulePrefix := "(function(runtime){\n  const prog = JSON.parse(`"
  const ModuleSuffix := "`);\n  const env = runtime.makeDefaultEnv();\n  env.star = { plot: env.plot, ta: env.ta, request: env.request, input: env.input, math: env.math, color: env.color, strategy: env.strategy };\n  for (const a of prog.assignments || []) {\n    if (a.id === '_call') { runtime.evaluate(a.expr, env); continue; }\n    env[a.id] = runtime.evaluate(a.expr, env);\n  }\n  return { env, plots: env.plots || [] };\n})"

  /** `transpileToJsModule(source)` as written (star-transpiler.ts:30-37). */
  function TranspileToJsModuleAsWritten(source: string): string
  {
    ModulePrefix + EscapeAsWritten(ModuleJson(source)) + ModuleSuffix
  }

  /** `transpileToJsModule(source)` with the corrected escaping. */
  function TranspileToJsModule(source: string): string
  {
    ModulePrefix + EscapeCorrected(ModuleJson(source)) + ModuleSuffix
  }

  /** `env.star`: the seven namespaces of the environment under one object. */
  function StarNamespace(vars: map<string, Value>): Value
  {
    VObj(map[
      "plot" := Lookup(vars, "plot"),
      "ta" := Lookup(vars, "ta"),
      "request" := Lookup(vars, "request"),
      "input" := Lookup(vars, "input"),
      "math" := Lookup(vars, "math"),
      "color" := Lookup(vars, "color"),
      "strategy" := Lookup(vars, "strategy")])
  }

  /** Binding `star` changes none of the seven namespaces `star` is made of. */
  lemma StarNamespaceIgnoresStar(vars: map<string, Value>, v: Value)
    ensures StarNamespace(vars["star" := v]) == StarNamespace(vars)
  {
    var w := vars["star" := v];
    assert Lookup(w, "plot") == Lookup(vars, "plot") && Lookup(w, "ta") == Lookup(vars, "ta");
    assert Lookup(w, "request") == Lookup(vars, "request") && Lookup(w, "input") == Lookup(vars, "input");
    assert Lookup(w, "math") == Lookup(vars, "math") && Lookup(w, "color") == Lookup(vars, "color");
    assert Lookup(w, "strategy") == Lookup(vars, "strategy");
  }

  /** The environment the module replays in: the default one plus `star`. */
  function ModuleEnv(): (env: Env)
    ensures "star" in env.vars && env.vars["star"] == StarNamespace(env.vars)
    ensures forall k :: k in MakeDefaultEnv().vars ==> k in env.vars && env.vars[k] == MakeDefaultEnv().vars[k]
  {
    DefaultVarsBindings();
    WithStar(MakeDefaultEnv())
  }

  /** `{ ...env, star }`: an environment without `star` extended by the namespace object. */
  function WithStar(d: Env): (env: Env)
    requires "star" !in d.vars
    ensures "star" in env.vars && env.vars["star"] == StarNamespace(env.vars)
    ensures forall k :: k in d.vars ==> k in env.vars && env.vars[k] == d.vars[k]
  {
    StarNamespaceIgnoresStar(d.vars, StarNamespace(d.vars));
    d.(vars := d.vars["star" := StarNamespace(d.vars)])
  }

  /** `{ env, plots }` */
  datatype ModuleResult = ModuleResult(env: Env, plots: seq<Value>)

  /**
   * What the emitted module returns: the transformed assignments replayed in
   * order, `_call` results dropped and the others bound, as `runScript` does.
   */
  function RunModule(source: string): (r: Result<ModuleResult, RuntimeError>)
    ensures r.Ok? <==> RunAll(TranspiledProgram(source).assignments, ModuleEnv()).Ok?
    ensures r.Ok? ==> r.value.plots == r.value.env.plots
  {
    match RunAll(TranspiledProgram(source).assignments, ModuleEnv())
    case Err(e) => Err(e)
    case Ok(env) => Ok(ModuleResult(env, env.plots))
  }
}
