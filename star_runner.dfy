/**
 * `makeDefaultEnv` and `runScript` (src/lib/star-runtime/runner.ts): the
 * default environment with its synthetic price series and helper
 * namespaces, and the loop that evaluates a parsed script assignment by
 * assignment into that one environment.
 */
module StarRunner {
  import opened Wrappers
  import opened StarAst
  import opened StarValues
  import opened StarBuiltins
  import opened StarRuntime
  import StarParser

  const SeriesLength: nat := 200

  /** The synthetic close series: `100 + i * 0.5` for `i < 200` (runner.ts:13-14). */
  function CloseSeries(): (s: seq<Value>)
    ensures |s| == SeriesLength
    ensures forall i :: 0 <= i < |s| ==> s[i] == VNum(100.0 + i as real / 2.0)
  {
    seq(SeriesLength, i => VNum(100.0 + i as real / 2.0))
  }

  /** `series.map(v => v + d)` on a numeric series. */
  function Shift(s: seq<Value>, d: real): (r: seq<Value>)
    requires AllNumbers(s)
    ensures |r| == |s| && forall i :: 0 <= i < |s| ==> r[i] == VNum(s[i].n + d)
  {
    seq(|s|, i requires 0 <= i < |s| => VNum(s[i].n + d))
  }

  /** The variables `makeDefaultEnv` defines (runner.ts:18-96). */
  function DefaultVars(): map<string, Value>
  {
    var close := CloseSeries();
    map[
      "math" := VObj(map["avg" := VFun(MathAvg)]),
      "color" := VObj(map["rgb" := VFun(ColorRgb)]),
      "input" := VObj(map["int" := VFun(InputInt)]),
      "plot" := VFun(Plot),
      "close" := VList(close),
      "high" := VList(Shift(close, 1.0)),
      "low" := VList(Shift(close, -1.0)),
      "request" := VObj(map["security" := VFun(RequestSecurity)]),
      "ta" := VObj(map["sma" := VFun(TaSma), "rsi" := VFun(TaRsi), "highest" := VFun(TaHighest), "lowest" := VFun(TaLowest)]),
      "strategy" := VObj(map[
        "commission" := VObj(map["percent" := VStr("strategy.commission.percent")]),
        "entry" := VFun(StrategyEntry),
        "exit" := VFun(StrategyExit)])
    ]
  }

  /** The bindings of the default variables the evaluator and the run rely on. */
  lemma DefaultVarsBindings()
    ensures "close" in DefaultVars() && DefaultVars()["close"] == VList(CloseSeries())
    ensures "high" in DefaultVars() && DefaultVars()["high"] == VList(Shift(CloseSeries(), 1.0))
    ensures "low" in DefaultVars() && DefaultVars()["low"] == VList(Shift(CloseSeries(), -1.0))
    ensures "plot" in DefaultVars() && DefaultVars()["plot"] == VFun(Plot)
    ensures "_opCount" !in DefaultVars() && "_opLimit" !in DefaultVars() && "star" !in DefaultVars()
  {
  }

  /** A fresh default environment: nothing recorded yet and no operation counted. */
  function MakeDefaultEnv(): (env: Env)
    ensures "close" in env.vars && "high" in env.vars && "low" in env.vars
    ensures env.vars["close"] == VList(CloseSeries())
    ensures env.vars["high"].VList? && env.vars["low"].VList?
    ensures |env.vars["high"].items| == |env.vars["low"].items| == SeriesLength
    ensures forall i :: 0 <= i < SeriesLength ==>
      env.vars["high"].items[i] == VNum(100.0 + i as real / 2.0 + 1.0) &&
      env.vars["low"].items[i] == VNum(100.0 + i as real / 2.0 - 1.0)
    ensures "_opCount" !in env.vars && "_opLimit" !in env.vars
    ensures "plot" in env.vars && env.vars["plot"] == VFun(Plot)
    ensures env.plots == [] && env.inputs == map[] && env.entries == [] && env.exits == []
  {
    DefaultVarsBindings();
    Env(DefaultVars(), [], map[], [], [])
  }

  /**
   * One iteration of the loop of `runScript` (runner.ts:105-111): evaluate,
   * then discard a `_call` result or bind the value under the id.
   */
  function Step(a: Assignment, env: Env): (r: Result<Env, RuntimeError>)
    ensures r.Ok? <==> Eval(a.expr, env).result.Ok?
    ensures r.Err? ==> r.error == Eval(a.expr, env).result.error
    ensures r.Ok? ==> env.plots <= r.value.plots
    ensures r.Ok? && a.id != CallId ==> a.id in r.value.vars && r.value.vars[a.id] == Eval(a.expr, env).result.value
  {
    var o := Eval(a.expr, env);
    if o.result.Err? then Err(o.result.error)
    else if a.id == CallId then Ok(o.env)
    else Ok(o.env.(vars := o.env.vars[a.id := o.result.value]))
  }

  /**
   * The assignments run in program order; the first throw ends the run.
   * Plots recorded by earlier assignments survive the rest of the run
   * (runner.ts:36, 113).
   */
  function RunAll(assignments: seq<Assignment>, env: Env): (r: Result<Env, RuntimeError>)
    ensures r.Ok? ==> env.plots <= r.value.plots
    ensures assignments != [] && r.Ok? ==> RunAll(assignments[..|assignments| - 1], env).Ok?
    decreases |assignments|
  {
    if assignments == [] then Ok(env)
    else match RunAll(assignments[..|assignments| - 1], env)
      case Err(e) => Err(e)
      case Ok(env1) => Step(assignments[|assignments| - 1], env1)
  }

  /** `{ env, plots, indicators }` */
  datatype RunResult = RunResult(env: Env, plots: seq<Value>, indicators: seq<string>)

  /** What `runScript` returns for a parsed program, or the error it throws. */
  function RunProgram(p: Program): (r: Result<RunResult, RuntimeError>)
    ensures r.Ok? ==> r.value.indicators == p.indicators && r.value.plots == r.value.env.plots
    ensures r.Ok? <==> RunAll(p.assignments, MakeDefaultEnv()).Ok?
  {
    match RunAll(p.assignments, MakeDefaultEnv())
    case Err(e) => Err(e)
    case Ok(env) => Ok(RunResult(env, env.plots, p.indicators))
  }

  /** Once a prefix of the program throws, the whole run throws that error. */
  lemma {:induction false} RunAllErrSticky(assignments: seq<Assignment>, env: Env, i: nat)
    requires i <= |assignments| && RunAll(assignments[..i], env).Err?
    ensures RunAll(assignments, env) == RunAll(assignments[..i], env)
    decreases |assignments| - i
  {
    if i < |assignments| {
      var next := assignments[..i + 1];
      assert next[..|next| - 1] == assignments[..i];
      RunAllAfterErr(next, env);
      RunAllErrSticky(assignments, env, i + 1);
    } else {
      assert assignments[..i] == assignments;
    }
  }

  /** An assignment after a throw runs nothing. */
  lemma RunAllAfterErr(assignments: seq<Assignment>, env: Env)
    requires assignments != [] && RunAll(assignments[..|assignments| - 1], env).Err?
    ensures RunAll(assignments, env) == RunAll(assignments[..|assignments| - 1], env)
  {
  }

  lemma RunAllLast(assignments: seq<Assignment>, env: Env)
    requires assignments != [] && RunAll(assignments[..|assignments| - 1], env).Ok?
    ensures RunAll(assignments, env) == Step(assignments[|assignments| - 1], RunAll(assignments[..|assignments| - 1], env).value)
  {
  }

  /** Running one more assignment of the program is one more Step. */
  lemma RunAllPrefixStep(assignments: seq<Assignment>, env: Env, i: nat)
    requires i < |assignments| && RunAll(assignments[..i], env).Ok?
    ensures RunAll(assignments[..i + 1], env) == Step(assignments[i], RunAll(assignments[..i], env).value)
  {
    assert assignments[..i + 1][..i] == assignments[..i];
  }

  /** `runScript(source)` (runner.ts:100-114): parse, then evaluate every assignment in order in one fresh environment. */
  method RunScript(source: string) returns (r: Result<RunResult, RuntimeError>)
    ensures r == RunProgram(StarParser.ParseLines(StarParser.Lines(source)))
  {
    var prog := StarParser.Parse(source);
    var env := MakeDefaultEnv();
    var i := 0;
    while i < |prog.assignments|
      invariant 0 <= i <= |prog.assignments|
      invariant RunAll(prog.assignments[..i], MakeDefaultEnv()) == Ok(env)
    {
      var a := prog.assignments[i];
      RunAllPrefixStep(prog.assignments, MakeDefaultEnv(), i);
      var o := Eval(a.expr, env);
      if o.result.Err? {
        RunAllErrSticky(prog.assignments, MakeDefaultEnv(), i + 1);
        return Err(o.result.error);
      }
      env := o.env;
      if a.id != CallId {
        env := env.(vars := env.vars[a.id := o.result.value]);
      }
      i := i + 1;
    }
    assert prog.assignments[..i] == prog.assignments;
    r := Ok(RunResult(env, env.plots, prog.indicators));
  }
}
