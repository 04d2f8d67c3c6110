/**
 * Properties of `runScript`: what one assignment does to the environment,
 * that the last binding of a name wins (built-ins included), and that plots
 * recorded by earlier assignments are kept.
 */
module StarRunnerProps {
  import opened Wrappers
  import opened StarAst
  import opened StarValues
  import opened StarRuntime
  import opened StarRunner
  import StarRuntimeProps

  /**
   * A `_call` line is evaluated for its effects and its value is dropped;
   * any other line binds its value under its id. Nothing else is rebound
   * (runner.ts:106-111).
   */
  lemma StepBindings(a: Assignment, env: Env)
    requires Step(a, env).Ok?
    ensures Eval(a.expr, env).result.Ok?
    ensures var after := Step(a, env).value.vars;
      var counted := env.vars["_opCount" := VNum(OpCount(Eval(a.expr, env).env.vars))];
      after == if a.id == CallId then counted else counted[a.id := Eval(a.expr, env).result.value]
  {
    StarRuntimeProps.EvalOnlyCounts(a.expr, env);
  }

  /**
   * After a successful run, a name bound at step `j` and never rebound later
   * holds the value computed at step `j`; in particular a script can
   * overwrite a built-in such as `close` (runner.ts:111).
   */
  lemma {:induction false} LastBindingWins(assignments: seq<Assignment>, env: Env, j: nat)
    requires j < |assignments| && RunAll(assignments, env).Ok?
    requires assignments[j].id != CallId && assignments[j].id != "_opCount"
    requires forall k :: j < k < |assignments| ==> assignments[k].id != assignments[j].id
    ensures RunAll(assignments[..j], env).Ok?
    ensures Eval(assignments[j].expr, RunAll(assignments[..j], env).value).result.Ok?
    ensures var id := assignments[j].id;
      id in RunAll(assignments, env).value.vars &&
      RunAll(assignments, env).value.vars[id] == Eval(assignments[j].expr, RunAll(assignments[..j], env).value).result.value
    decreases |assignments|
  {
    var n := |assignments|;
    var init := assignments[..n - 1];
    var before := RunAll(init, env).value;
    RunAllLast(assignments, env);
    if j == n - 1 {
      assert init == assignments[..j];
    } else {
      assert init[..j] == assignments[..j];
      assert init[j] == assignments[j];
      LastBindingWins(init, env, j);
      StepKeepsOtherBinding(assignments[n - 1], before, assignments[j].id);
    }
  }

  /** A step leaves every other name than its own and the counter as it was. */
  lemma StepKeepsOtherBinding(a: Assignment, env: Env, id: string)
    requires Step(a, env).Ok? && id != a.id && id != "_opCount" && id in env.vars
    ensures id in Step(a, env).value.vars && Step(a, env).value.vars[id] == env.vars[id]
  {
    StepBindings(a, env);
  }

}
