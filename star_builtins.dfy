/**
 * The host functions `makeDefaultEnv` installs (src/lib/star-runtime/runner.ts:18-96):
 * `math.avg`, `color.rgb`, `input.int`, `plot`, `request.security`,
 * `ta.sma`, `ta.rsi`, `ta.highest`, `ta.lowest`, `strategy.entry` and
 * `strategy.exit`, each as a function of its arguments and the environment.
 */
module StarBuiltins {
  import opened Wrappers
  import opened Strings
  import opened StarValues

  /** `s.slice(-n)` for `n >= 1`: the last `n` elements, or all of them when there are fewer. */
  function Last<T>(s: seq<T>, n: nat): (r: seq<T>)
    ensures |r| == if n < |s| then n else |s|
    ensures r == s[|s| - |r|..]
  {
    if n < |s| then s[|s| - n..] else s
  }

  /** `s.slice(start)`: a negative start counts from the end and is clamped to the front. */
  function SliceFrom<T>(s: seq<T>, start: int): (r: seq<T>)
    ensures start < 0 ==> r == s[|s| - (if -start < |s| then -start else |s|)..]
    ensures start >= 0 ==> r == s[(if start < |s| then start else |s|)..]
    ensures r == s[|s| - |r|..]
  {
    if start < 0 then (if -start < |s| then s[|s| + start..] else s)
    else if start < |s| then s[start..] else []
  }

  /** `ToIntegerOrInfinity` on a finite number: truncation toward zero. */
  function Trunc(x: real): (r: int)
    ensures x >= 0.0 ==> r as real <= x < r as real + 1.0
    ensures x < 0.0 ==> r as real - 1.0 < x <= r as real
  {
    if x >= 0.0 then x.Floor else -((-x).Floor)
  }

  /** Whether some value of `vs` reads as an infinity or is opaque (see `Untracked`). */
  predicate SomeUntracked(vs: seq<Value>)
  {
    exists i :: 0 <= i < |vs| && Untracked(vs[i])
  }

  /** `Number(v) || 0` for a value that is not `Untracked` (`Sma` sets those apart first). */
  function NumOrZero(v: Value): real
  {
    match ToNumber(v)
    case Some(x) => x
    case None => 0.0
  }

  /** `vs.reduce((s, v) => s + (Number(v) || 0), 0)` */
  function SumNumOrZero(vs: seq<Value>): real
  {
    if vs == [] then 0.0 else SumNumOrZero(vs[..|vs| - 1]) + NumOrZero(vs[|vs| - 1])
  }

  /**
   * `Math.max(1, Math.floor(len) || 1)`: NaN and 0 fall back to 1. An
   * `Untracked` length also lands on 1 here; `Sma` does not use this then.
   */
  function SmaLength(len: Value): (n: nat)
    ensures n >= 1
    ensures len.VNum? && len.n >= 1.0 ==> n == len.n.Floor
  {
    match ToNumber(len)
    case Some(x) => if x.Floor >= 1 then x.Floor else 1
    case None => 1
  }

  /**
   * `ta.sma(src, len)` (runner.ts:54-62): mean of the last `len` values; a
   * non-list is returned as is. An infinite length or an infinite value in
   * the window makes the mean infinite or NaN, which is left `VOpaque`.
   */
  function Sma(src: Value, len: Value): (r: Value)
    ensures !src.VList? ==> r == src
    ensures src.VList? && src.items == [] ==> r == VNaN
    ensures src.VList? && src.items != [] && Untracked(len) ==> r == VOpaque
    ensures src.VList? && src.items != [] && !Untracked(len) ==>
      (r.VNum? <==> !SomeUntracked(Last(src.items, SmaLength(len))))
    ensures r == VOpaque ==> src == VOpaque || (src.VList? && (Untracked(len) || SomeUntracked(src.items)))
  {
    if !src.VList? then src
    else if src.items == [] then VNaN
    else if Untracked(len) then VOpaque
    else
      var w := Last(src.items, SmaLength(len));
      if SomeUntracked(w) then
        UntrackedInSuffix(src.items, |src.items| - |w|);
        VOpaque
      else VNum(SumNumOrZero(w) / |w| as real)
  }

  /** An untracked value of a suffix is one of the whole sequence. */
  lemma UntrackedInSuffix(s: seq<Value>, k: nat)
    requires k <= |s| && SomeUntracked(s[k..])
    ensures SomeUntracked(s)
  {
    var i :| 0 <= i < |s| - k && Untracked(s[k..][i]);
    assert s[k + i] == s[k..][i];
  }

  /** `src[i] - src[i - 1]` as JavaScript subtracts two values that are not `Untracked`: `None` is NaN. */
  function Diff(a: Value, b: Value): Option<real>
  {
    match (ToNumber(a), ToNumber(b))
    case (Some(x), Some(y)) => Some(x - y)
    case _ => None
  }

  /** Running gains and losses; `losses == None` once a NaN difference has been added to it. */
  datatype Movement = Movement(gains: real, losses: Option<real>)

  /** One loop step of `ta.rsi`: a positive difference is a gain, anything else (NaN included) a loss. */
  function RsiStep(m: Movement, d: Option<real>): Movement
  {
    match d
    case Some(x) =>
      if x > 0.0 then m.(gains := m.gains + x)
      else m.(losses := if m.losses.Some? then Some(m.losses.value - x) else None)
    case None => m.(losses := None)
  }

  /** Gains and losses over the differences `s[k] - s[k - 1]` for `1 <= k < i`. */
  function RsiMovement(s: seq<Value>, i: nat): (m: Movement)
    requires 1 <= i <= |s|
    ensures m.gains >= 0.0 && (m.losses.Some? ==> m.losses.value >= 0.0)
  {
    if i == 1 then Movement(0.0, Some(0.0))
    else RsiStep(RsiMovement(s, i - 1), Diff(s[i - 1], s[i - 2]))
  }

  const Epsilon: real := 0.000000001

  /** `100 - 100 / (1 + gain / loss)` */
  function StrengthIndex(gain: real, loss: real): (r: real)
    requires gain >= 0.0 && loss > 0.0
    ensures 0.0 <= r <= 100.0
  {
    var rs := gain / loss;
    assert rs >= 0.0;
    var q := 100.0 / (1.0 + rs);
    assert 0.0 < q <= 100.0 by {
      assert q * (1.0 + rs) == 100.0;
    }
    100.0 - q
  }

  /** The relative-strength index from the totals over `count` differences. */
  function RsiFromMovement(m: Movement, count: nat): (r: real)
    requires count >= 1
    requires m.gains >= 0.0 && (m.losses.Some? ==> m.losses.value >= 0.0)
    ensures 0.0 <= r <= 100.0
  {
    var avgGain := m.gains / count as real;
    match m.losses
    case Some(l) =>
      var avgLoss := l / count as real;
      if avgGain + avgLoss == 0.0 then 50.0
      else StrengthIndex(avgGain, if avgLoss != 0.0 then avgLoss else Epsilon)
    case None =>
      StrengthIndex(avgGain, Epsilon)
  }

  /**
   * `Math.max(1, Math.floor(len) || 14)`: NaN and 0 fall back to 14,
   * negatives to 1. An `Untracked` length also lands on 14 here; `Rsi`
   * then gives `VOpaque` for any series of two or more values.
   */
  function RsiLength(len: Value): (n: nat)
    ensures n >= 1
  {
    match ToNumber(len)
    case Some(x) => if x.Floor == 0 then 14 else if x.Floor >= 1 then x.Floor else 1
    case None => 14
  }

  /** The index over one window: 50 when it holds fewer than two values. */
  function RsiOfWindow(w: seq<Value>): (x: real)
    ensures 0.0 <= x <= 100.0
  {
    if |w| <= 1 then 50.0 else RsiFromMovement(RsiMovement(w, |w|), |w| - 1)
  }

  /**
   * `ta.rsi(src, len)` (runner.ts:63-79) over the last `len + 1` values; 50
   * for a non-list and for fewer than two values. An infinite length or an
   * infinite value in the window (where JavaScript may reach NaN) is left
   * `VOpaque`; every other index lies in [0, 100].
   */
  function Rsi(src: Value, len: Value): (r: Value)
    ensures !src.VList? || |src.items| <= 1 ==> r == VNum(50.0)
    ensures r.VNum? || r == VOpaque
    ensures r.VNum? ==> 0.0 <= r.n <= 100.0
    ensures r == VOpaque <==>
      (src.VList? && |src.items| >= 2 && (Untracked(len) || SomeUntracked(Last(src.items, RsiLength(len) + 1))))
    ensures r == VOpaque ==> src.VList? && (Untracked(len) || SomeUntracked(src.items))
  {
    if !src.VList? then VNum(50.0)
    else
      var w := Last(src.items, RsiLength(len) + 1);
      if |w| <= 1 then VNum(50.0)
      else if Untracked(len) then VOpaque
      else if SomeUntracked(w) then
        UntrackedInSuffix(src.items, |src.items| - |w|);
        VOpaque
      else VNum(RsiOfWindow(w))
  }

  /** The numbers of a list when every element converts; `None` when one is NaN or `Untracked`. */
  function Numbers(vs: seq<Value>): (r: Option<seq<real>>)
    ensures r.Some? ==> |r.value| == |vs| && forall i :: 0 <= i < |vs| ==> ToNumber(vs[i]) == Some(r.value[i])
    ensures r.None? ==> exists i :: 0 <= i < |vs| && ToNumber(vs[i]).None?
  {
    if vs == [] then Some([])
    else match (Numbers(vs[..|vs| - 1]), ToNumber(vs[|vs| - 1]))
      case (Some(xs), Some(x)) => Some(xs + [x])
      case (None, _) => None
      case (_, None) => None
  }

  function MaxOf(xs: seq<real>): (m: real)
    requires xs != []
    ensures m in xs && forall i :: 0 <= i < |xs| ==> xs[i] <= m
  {
    if |xs| == 1 then xs[0]
    else var m' := MaxOf(xs[..|xs| - 1]);
      assert forall i :: 0 <= i < |xs| - 1 ==> xs[..|xs| - 1][i] == xs[i];
      if xs[|xs| - 1] > m' then xs[|xs| - 1] else m'
  }

  function MinOf(xs: seq<real>): (m: real)
    requires xs != []
    ensures m in xs && forall i :: 0 <= i < |xs| ==> m <= xs[i]
  {
    if |xs| == 1 then xs[0]
    else var m' := MinOf(xs[..|xs| - 1]);
      assert forall i :: 0 <= i < |xs| - 1 ==> xs[..|xs| - 1][i] == xs[i];
      if xs[|xs| - 1] < m' then xs[|xs| - 1] else m'
  }

  /** The start `-(len || 1)` passes to `slice`. */
  function WindowStart(len: Value): int
  {
    if !Truthy(len) then -1
    else match ToNumber(len)
      case Some(x) => Trunc(-x)
      case None => 0
  }

  /** A number read from a suffix is read from the whole sequence. */
  lemma NumberOfSuffix(s: seq<Value>, w: seq<Value>, xs: seq<real>, x: real)
    requires |w| <= |s| && w == s[|s| - |w|..] && Numbers(w) == Some(xs) && x in xs
    ensures exists i :: 0 <= i < |s| && ToNumber(s[i]) == Some(x)
  {
    var j :| 0 <= j < |xs| && xs[j] == x;
    assert ToNumber(w[j]) == Some(x);
    var i := |s| - |w| + j;
    assert s[i] == w[j];
  }

  /** `ta.highest(src, len)` (runner.ts:80): `Math.max` over `src.slice(-(len || 1))`;
   * NaN when an element is NaN, and `VOpaque` where JavaScript reaches an
   * infinity (an infinite length or element, or an empty window).
   */
  function Highest(src: Value, len: Value): (r: Value)
    ensures !src.VList? ==> r == src
    ensures src.VList? && Untracked(len) ==> r == VOpaque
    ensures src.VList? && r.VNum? ==> exists i :: 0 <= i < |src.items| && ToNumber(src.items[i]) == Some(r.n)
  {
    if !src.VList? then src
    else if Untracked(len) then VOpaque
    else
      var w := SliceFrom(src.items, WindowStart(len));
      if w == [] || SomeUntracked(w) then VOpaque
      else match Numbers(w)
        case Some(xs) =>
          NumberOfSuffix(src.items, w, xs, MaxOf(xs));
          VNum(MaxOf(xs))
        case None => VNaN
  }

  /** `ta.lowest(src, len)` (runner.ts:81): `Math.min` over `src.slice(-(len || 1))`,
   * with the same NaN and `VOpaque` cases as `Highest`.
   */
  function Lowest(src: Value, len: Value): (r: Value)
    ensures !src.VList? ==> r == src
    ensures src.VList? && Untracked(len) ==> r == VOpaque
    ensures src.VList? && r.VNum? ==> exists i :: 0 <= i < |src.items| && ToNumber(src.items[i]) == Some(r.n)
  {
    if !src.VList? then src
    else if Untracked(len) then VOpaque
    else
      var w := SliceFrom(src.items, WindowStart(len));
      if w == [] || SomeUntracked(w) then VOpaque
      else match Numbers(w)
        case Some(xs) =>
          NumberOfSuffix(src.items, w, xs, MinOf(xs));
          VNum(MinOf(xs))
        case None => VNaN
  }

  predicate AllNumbers(vs: seq<Value>)
  {
    forall i :: 0 <= i < |vs| ==> vs[i].VNum?
  }

  function SumNumbers(vs: seq<Value>): real
    requires AllNumbers(vs)
  {
    if vs == [] then 0.0 else SumNumbers(vs[..|vs| - 1]) + vs[|vs| - 1].n
  }

  /**
   * `math.avg(...args)` (runner.ts:19): the sum over the count, `0 / 0` for
   * no arguments; arguments that are not all numbers are left `VOpaque`.
   */
  function Avg(args: seq<Value>): (r: Value)
    ensures args == [] ==> r == VNaN
    ensures args != [] && AllNumbers(args) ==> r == VNum(SumNumbers(args) / |args| as real)
    ensures !AllNumbers(args) ==> r == VOpaque
  {
    if !AllNumbers(args) then VOpaque
    else if args == [] then VNaN
    else VNum(SumNumbers(args) / |args| as real)
  }

  /**
   * `color.rgb(r, g, b)` (runner.ts:20): the text `rgb(r,g,b)` with each
   * argument written as its text; arguments without a modelled text give `VOpaque`.
   */
  function Rgb(args: seq<Value>): (r: Value)
    ensures r.VStr? ==> StartsWith(r.s, "rgb(") && EndsWith(r.s, ")")
    ensures KeyOf(Arg(args, 0)).Some? && KeyOf(Arg(args, 1)).Some? && KeyOf(Arg(args, 2)).Some? ==>
      r == VStr("rgb(" + KeyOf(Arg(args, 0)).value + "," + KeyOf(Arg(args, 1)).value + "," + KeyOf(Arg(args, 2)).value + ")")
    ensures r.VStr? || r == VOpaque
  {
    match (KeyOf(Arg(args, 0)), KeyOf(Arg(args, 1)), KeyOf(Arg(args, 2)))
    case (Some(a), Some(b), Some(c)) =>
      var t := "rgb(" + a + "," + b + "," + c + ")";
      assert t[..4] == "rgb(";
      assert t[|t| - 1..] == ")";
      VStr(t)
    case _ => VOpaque
  }

  /** What `input.int` writes into `_inputs` (runner.ts:25-33). */
  function RecordInput(args: seq<Value>, inputs: map<string, Value>): (r: map<string, Value>)
    ensures |args| >= 3 && args[1].VStr? ==> r == inputs[args[1].s := args[2]]
    ensures |args| < 2 ==> r == inputs
  {
    var second := Arg(args, 1);
    if |args| >= 3 && second.VStr? then inputs[second.s := args[2]]
    else if Truthy(second) && second.VObj? && Truthy(Prop(second, "title")) then
      match KeyOf(Prop(second, "title"))
      case Some(k) => inputs[k := Arg(args, 0)]
      case None => inputs
    else inputs
  }

  /** `{ callee: 'plot', args }`, the record `plot` pushes. */
  function PlotRecord(args: seq<Value>): Value
  {
    VObj(map["callee" := VStr("plot"), "args" := VList(args)])
  }

  /** `request.security(symbol, timeframe, expr)` (runner.ts:45-50). */
  function Security(args: seq<Value>, vars: map<string, Value>): (r: Value)
    ensures Arg(args, 2).VList? ==> r == Arg(args, 2)
    ensures !Arg(args, 2).VList? ==> r == Lookup(vars, "close")
  {
    if Arg(args, 2).VList? then Arg(args, 2) else Lookup(vars, "close")
  }

  /** Calls a host function; no host function rebinds a variable. */
  function Apply(f: Builtin, args: seq<Value>, env: Env): (r: (Value, Env))
    ensures r.1.vars == env.vars
    ensures f != Plot ==> r.1.plots == env.plots
    ensures f == Plot ==> r == (VNull, env.(plots := env.plots + [PlotRecord(args)]))
    ensures f == InputInt ==> r.0 == Arg(args, 0)
  {
    match f
    case MathAvg => (Avg(args), env)
    case ColorRgb => (Rgb(args), env)
    case InputInt => (Arg(args, 0), env.(inputs := RecordInput(args, env.inputs)))
    case Plot => (VNull, env.(plots := env.plots + [PlotRecord(args)]))
    case RequestSecurity => (Security(args, env.vars), env)
    case TaSma => (Sma(Arg(args, 0), Arg(args, 1)), env)
    case TaRsi => (Rsi(Arg(args, 0), Arg(args, 1)), env)
    case TaHighest => (Highest(Arg(args, 0), Arg(args, 1)), env)
    case TaLowest => (Lowest(Arg(args, 0), Arg(args, 1)), env)
    case StrategyEntry =>
      (VNull, env.(entries := env.entries + [VObj(map["id" := Arg(args, 0), "qty" := Arg(args, 1)])]))
    case StrategyExit =>
      (VNull, env.(exits := env.exits + [VObj(map["id" := Arg(args, 0)])]))
  }

  /** The loop of `ta.rsi` (runner.ts:68-73): gains and losses, difference by difference. */
  method AccumulateMovement(slice: seq<Value>) returns (gains: real, losses: Option<real>, count: nat)
    requires |slice| >= 1
    ensures count == |slice| - 1
    ensures Movement(gains, losses) == RsiMovement(slice, |slice|)
  {
    gains := 0.0;
    losses := Some(0.0);
    count := 0;
    var i := 1;
    while i < |slice|
      invariant 1 <= i <= |slice|
      invariant count == i - 1
      invariant Movement(gains, losses) == RsiMovement(slice, i)
    {
      var d := Diff(slice[i], slice[i - 1]);
      ghost var before := Movement(gains, losses);
      MovementStep(slice, i);
      if d.Some? && d.value > 0.0 {
        gains := gains + d.value;
      } else if d.Some? && losses.Some? {
        losses := Some(losses.value - d.value);
      } else {
        losses := None;
      }
      assert Movement(gains, losses) == RsiStep(before, d);
      count := count + 1;
      i := i + 1;
    }
  }

  /** One more difference extends the movement by one step. */
  lemma MovementStep(s: seq<Value>, i: nat)
    requires 1 <= i < |s|
    ensures RsiMovement(s, i + 1) == RsiStep(RsiMovement(s, i), Diff(s[i], s[i - 1]))
  {
  }

  /** The index from totals the loop computed over a window of at least two values. */
  function FinishRsi(slice: seq<Value>, m: Movement, count: nat): (x: real)
    requires |slice| >= 2 && count == |slice| - 1 && m == RsiMovement(slice, |slice|)
    ensures x == RsiOfWindow(slice)
  {
    RsiFromMovement(m, count)
  }

  /** `ta.rsi` as the source computes it: the window, the loop, then the index. */
  method ComputeRsi(src: Value, len: Value) returns (r: Value)
    ensures r == Rsi(src, len)
  {
    if !src.VList? {
      return VNum(50.0);
    }
    var slice := Last(src.items, RsiLength(len) + 1);
    if |slice| <= 1 {
      return VNum(50.0);
    }
    if Untracked(len) || SomeUntracked(slice) {
      return VOpaque;
    }
    var gains, losses, count := AccumulateMovement(slice);
    r := VNum(FinishRsi(slice, Movement(gains, losses), count));
  }
}
