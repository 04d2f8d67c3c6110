/**
 * Properties of the series helpers of runner.ts: `ta.sma` averages within
 * the range of its window, `ta.rsi` is 50 on a flat series and 0 on a falling
 * one, and `ta.highest` / `ta.lowest` pick the extreme of the last `len`
 * values.
 */
module StarBuiltinsProps {
  import opened Wrappers
  import opened StarValues
  import opened StarBuiltins

  /** The numbers a window contributes to a sum, in order. */
  function NumbersOf(vs: seq<Value>): (xs: seq<real>)
    ensures |xs| == |vs|
  {
    seq(|vs|, i requires 0 <= i < |vs| => NumOrZero(vs[i]))
  }

  function SumReals(xs: seq<real>): real
  {
    if xs == [] then 0.0 else SumReals(xs[..|xs| - 1]) + xs[|xs| - 1]
  }

  lemma {:induction false} SumAsReals(vs: seq<Value>)
    ensures SumNumOrZero(vs) == SumReals(NumbersOf(vs))
  {
    if vs != [] {
      var init := vs[..|vs| - 1];
      SumAsReals(init);
      assert NumbersOf(vs)[..|vs| - 1] == NumbersOf(init);
    }
  }

  lemma {:induction false} RealSumBounds(xs: seq<real>, lo: real, hi: real)
    requires forall i :: 0 <= i < |xs| ==> lo <= xs[i] <= hi
    ensures |xs| as real * lo <= SumReals(xs) <= |xs| as real * hi
  {
    if xs != [] {
      var init := xs[..|xs| - 1];
      assert forall i :: 0 <= i < |init| ==> init[i] == xs[i];
      RealSumBounds(init, lo, hi);
      var n := |init| as real;
      var last := xs[|xs| - 1];
      assert SumReals(xs) == SumReals(init) + last;
      assert |xs| as real == n + 1.0;
      AddBounds(n, SumReals(init), last, lo, hi);
    }
  }

  /** One more value in `[lo, hi]` moves the bounds of a sum of `n` values to those of `n + 1`. */
  lemma AddBounds(n: real, s: real, x: real, lo: real, hi: real)
    requires n * lo <= s <= n * hi && lo <= x <= hi
    ensures (n + 1.0) * lo <= s + x <= (n + 1.0) * hi
  {
    assert (n + 1.0) * lo == n * lo + lo;
    assert (n + 1.0) * hi == n * hi + hi;
  }

  /** The mean of a non-empty window lies between the bounds of its values. */
  lemma MeanWithinRange(w: seq<Value>, lo: real, hi: real)
    requires w != []
    requires forall i :: 0 <= i < |w| ==> lo <= NumOrZero(w[i]) <= hi
    ensures lo <= SumNumOrZero(w) / |w| as real <= hi
  {
    var xs := NumbersOf(w);
    assert forall i :: 0 <= i < |xs| ==> xs[i] == NumOrZero(w[i]);
    SumAsReals(w);
    RealMeanBounds(xs, lo, hi);
  }

  /** The mean of numbers that each lie in `[lo, hi]` lies in `[lo, hi]`. */
  lemma RealMeanBounds(xs: seq<real>, lo: real, hi: real)
    requires xs != []
    requires forall i :: 0 <= i < |xs| ==> lo <= xs[i] <= hi
    ensures lo <= SumReals(xs) / |xs| as real <= hi
  {
    RealSumBounds(xs, lo, hi);
    QuotientBounds(SumReals(xs), |xs| as real, lo, hi);
  }

  /** Dividing `n * lo <= s <= n * hi` by a positive `n`. */
  lemma QuotientBounds(s: real, n: real, lo: real, hi: real)
    requires n > 0.0 && n * lo <= s <= n * hi
    ensures lo <= s / n <= hi
  {
    var q := s / n;
    assert q * n == s;
  }

  /**
   * A moving average lies within the range of the values averaged
   * (runner.ts:54-62), for a finite length over finite values.
   */
  lemma SmaWithinRange(items: seq<Value>, len: Value, lo: real, hi: real)
    requires items != []
    requires forall i :: 0 <= i < |items| ==> lo <= NumOrZero(items[i]) <= hi
    ensures !Untracked(len) && !SomeUntracked(items) ==>
      Sma(VList(items), len).VNum? && lo <= Sma(VList(items), len).n <= hi
  {
    if !Untracked(len) && !SomeUntracked(items) {
      var w := Last(items, SmaLength(len));
      WindowWithinRange(items, w, lo, hi);
      assert Sma(VList(items), len) == VNum(SumNumOrZero(w) / |w| as real);
    }
  }

  /** The window of `ta.sma` inherits the bounds and the finiteness of the series. */
  lemma WindowWithinRange(items: seq<Value>, w: seq<Value>, lo: real, hi: real)
    requires items != [] && 1 <= |w| <= |items| && w == items[|items| - |w|..]
    requires forall i :: 0 <= i < |items| ==> lo <= NumOrZero(items[i]) <= hi
    requires !SomeUntracked(items)
    ensures !SomeUntracked(w)
    ensures lo <= SumNumOrZero(w) / |w| as real <= hi
  {
    assert forall i :: 0 <= i < |w| ==> w[i] == items[|items| - |w| + i];
    MeanWithinRange(w, lo, hi);
  }

  /** The average of `len` equal values is that value, for a finite length. */
  lemma SmaOfConstant(items: seq<Value>, len: Value, c: real)
    requires items != []
    requires forall i :: 0 <= i < |items| ==> items[i] == VNum(c)
    ensures !Untracked(len) ==> Sma(VList(items), len) == VNum(c)
  {
    assert !SomeUntracked(items);
    SmaWithinRange(items, len, c, c);
  }

  /** No movement over the window: the index is 50 (runner.ts:75). */
  lemma {:induction false} FlatMovement(s: seq<Value>, c: real, i: nat)
    requires 1 <= i <= |s|
    requires forall k :: 0 <= k < |s| ==> s[k] == VNum(c)
    ensures RsiMovement(s, i) == Movement(0.0, Some(0.0))
  {
    if i > 1 {
      FlatMovement(s, c, i - 1);
    }
  }

  lemma RsiOfFlatWindow(w: seq<Value>, c: real)
    requires forall k :: 0 <= k < |w| ==> w[k] == VNum(c)
    ensures RsiOfWindow(w) == 50.0
  {
    if |w| > 1 {
      FlatMovement(w, c, |w|);
      var n := (|w| - 1) as real;
      assert 0.0 / n == 0.0;
    }
  }

  /** A flat series has index 50 for every finite length. */
  lemma RsiOfFlatSeries(items: seq<Value>, len: Value, c: real)
    requires forall k :: 0 <= k < |items| ==> items[k] == VNum(c)
    ensures !Untracked(len) ==> Rsi(VList(items), len) == VNum(50.0)
  {
    FlatLast(items, RsiLength(len) + 1, c);
  }

  /** The last `n` values of a flat series have index 50. */
  lemma FlatLast(items: seq<Value>, n: nat, c: real)
    requires forall k :: 0 <= k < |items| ==> items[k] == VNum(c)
    ensures !SomeUntracked(Last(items, n))
    ensures RsiOfWindow(Last(items, n)) == 50.0
  {
    var w := Last(items, n);
    assert forall k :: 0 <= k < |w| ==> w[k] == items[|items| - |w| + k];
    RsiOfFlatWindow(w, c);
  }

  /** Strictly falling numbers: every difference is a loss. */
  predicate Falling(s: seq<Value>)
  {
    (forall k :: 0 <= k < |s| ==> s[k].VNum?) && forall k :: 0 < k < |s| ==> s[k].n < s[k - 1].n
  }

  lemma {:induction false} FallingMovement(s: seq<Value>, i: nat)
    requires 1 <= i <= |s| && Falling(s)
    ensures RsiMovement(s, i).gains == 0.0
    ensures RsiMovement(s, i).losses.Some?
    ensures i >= 2 ==> RsiMovement(s, i).losses.value > 0.0
  {
    if i > 1 {
      FallingMovement(s, i - 1);
    }
  }

  lemma RsiOfFallingWindow(w: seq<Value>)
    requires |w| >= 2 && Falling(w)
    ensures RsiOfWindow(w) == 0.0
  {
    FallingMovement(w, |w|);
    var m := RsiMovement(w, |w|);
    var n := (|w| - 1) as real;
    var avgLoss := m.losses.value / n;
    assert avgLoss > 0.0;
    assert 0.0 / n == 0.0;
    assert 0.0 / avgLoss == 0.0;
  }

  /** A strictly falling window has no gains, so its index is 0 (runner.ts:74-78), for a finite length. */
  lemma RsiOfFallingSeries(items: seq<Value>, len: Value)
    requires |items| >= 2 && Falling(items)
    ensures !Untracked(len) ==> Rsi(VList(items), len) == VNum(0.0)
  {
    FallingLast(items, RsiLength(len) + 1);
  }

  /** The last `n >= 2` values of a falling series have index 0. */
  lemma FallingLast(items: seq<Value>, n: nat)
    requires |items| >= 2 && Falling(items) && n >= 2
    ensures !SomeUntracked(Last(items, n))
    ensures RsiOfWindow(Last(items, n)) == 0.0
  {
    var w := Last(items, n);
    FallingSuffix(items, |items| - |w|);
    RsiOfFallingWindow(w);
  }

  /** Every suffix of a falling series falls. */
  lemma FallingSuffix(s: seq<Value>, d: nat)
    requires d <= |s| && Falling(s)
    ensures Falling(s[d..])
  {
    var w := s[d..];
    assert forall k :: 0 <= k < |w| ==> w[k] == s[d + k];
    forall k | 0 < k < |w|
      ensures w[k].n < w[k - 1].n
    {
      assert w[k] == s[d + k] && w[k - 1] == s[d + k - 1];
    }
  }

  /** `slice(-k)` with a whole `k` between 1 and the length is the last `k` values. */
  lemma WindowOfWholeLength(items: seq<Value>, k: nat)
    requires 1 <= k <= |items|
    ensures SliceFrom(items, WindowStart(VNum(k as real))) == items[|items| - k..]
  {
    assert Trunc(-(k as real)) == -(k as int);
  }

  /** The last `k` numbers form a window with no untracked value, whose numbers are their own. */
  lemma NumberWindow(items: seq<Value>, k: nat)
    requires 1 <= k <= |items| && AllNumbers(items)
    ensures var w := items[|items| - k..];
      w != [] && !SomeUntracked(w) && Numbers(w).Some?
      && forall i :: 0 <= i < |w| ==> Numbers(w).value[i] == items[|items| - k + i].n
  {
    var w := items[|items| - k..];
    assert forall i :: 0 <= i < |w| ==> w[i] == items[|items| - k + i];
  }

  /** On the last `k` numbers, `highest` and `lowest` are the maximum and minimum of the window. */
  lemma WindowExtremes(items: seq<Value>, k: nat)
    requires 1 <= k <= |items| && AllNumbers(items)
    ensures Numbers(items[|items| - k..]).Some? && Numbers(items[|items| - k..]).value != []
    ensures Highest(VList(items), VNum(k as real)) == VNum(MaxOf(Numbers(items[|items| - k..]).value))
    ensures Lowest(VList(items), VNum(k as real)) == VNum(MinOf(Numbers(items[|items| - k..]).value))
  {
    WindowOfWholeLength(items, k);
    NumberWindow(items, k);
  }

  /** The largest of the window's numbers bounds the last `k` items and is among them. */
  lemma WindowMax(items: seq<Value>, k: nat, xs: seq<real>)
    requires 1 <= k <= |items| && AllNumbers(items) && |xs| == k
    requires forall i :: 0 <= i < k ==> xs[i] == items[|items| - k + i].n
    ensures forall i :: |items| - k <= i < |items| ==> items[i].n <= MaxOf(xs)
    ensures exists i :: |items| - k <= i < |items| && items[i].n == MaxOf(xs)
  {
    var off, m := |items| - k, MaxOf(xs);
    forall i | off <= i < |items| ensures items[i].n <= m {
      assert items[i].n == xs[i - off];
    }
    var j :| 0 <= j < k && xs[j] == m;
    assert items[off + j].n == m;
  }

  /** The smallest of the window's numbers bounds the last `k` items and is among them. */
  lemma WindowMin(items: seq<Value>, k: nat, xs: seq<real>)
    requires 1 <= k <= |items| && AllNumbers(items) && |xs| == k
    requires forall i :: 0 <= i < k ==> xs[i] == items[|items| - k + i].n
    ensures forall i :: |items| - k <= i < |items| ==> MinOf(xs) <= items[i].n
    ensures exists i :: |items| - k <= i < |items| && items[i].n == MinOf(xs)
  {
    var off, m := |items| - k, MinOf(xs);
    forall i | off <= i < |items| ensures m <= items[i].n {
      assert items[i].n == xs[i - off];
    }
    var j :| 0 <= j < k && xs[j] == m;
    assert items[off + j].n == m;
  }

  /**
   * `ta.highest(src, k)` on numbers is the largest of the last `k` values:
   * no smaller than any of them and equal to one of them (runner.ts:80).
   */
  lemma HighestOfLast(items: seq<Value>, k: nat)
    requires 1 <= k <= |items| && AllNumbers(items)
    ensures Highest(VList(items), VNum(k as real)).VNum?
    ensures forall i :: |items| - k <= i < |items| ==> items[i].n <= Highest(VList(items), VNum(k as real)).n
    ensures exists i :: |items| - k <= i < |items| && items[i].n == Highest(VList(items), VNum(k as real)).n
  {
    NumberWindow(items, k);
    WindowExtremes(items, k);
    WindowMax(items, k, Numbers(items[|items| - k..]).value);
  }

  /** `ta.lowest(src, k)` on numbers is the smallest of the last `k` values (runner.ts:81). */
  lemma LowestOfLast(items: seq<Value>, k: nat)
    requires 1 <= k <= |items| && AllNumbers(items)
    ensures Lowest(VList(items), VNum(k as real)).VNum?
    ensures forall i :: |items| - k <= i < |items| ==> Lowest(VList(items), VNum(k as real)).n <= items[i].n
    ensures exists i :: |items| - k <= i < |items| && items[i].n == Lowest(VList(items), VNum(k as real)).n
  {
    NumberWindow(items, k);
    WindowExtremes(items, k);
    WindowMin(items, k, Numbers(items[|items| - k..]).value);
  }

  lemma {:induction false} SumNumbersBounds(vs: seq<Value>, lo: real, hi: real)
    requires AllNumbers(vs) && forall i :: 0 <= i < |vs| ==> lo <= vs[i].n <= hi
    ensures |vs| as real * lo <= SumNumbers(vs) <= |vs| as real * hi
  {
    if vs != [] {
      var init := vs[..|vs| - 1];
      assert forall i :: 0 <= i < |init| ==> init[i] == vs[i];
      SumNumbersBounds(init, lo, hi);
      AddBounds(|init| as real, SumNumbers(init), vs[|vs| - 1].n, lo, hi);
    }
  }

  /** `math.avg` of numbers lies within their bounds (runner.ts:19). */
  lemma AvgWithinBounds(args: seq<Value>, lo: real, hi: real)
    requires args != [] && AllNumbers(args)
    requires forall i :: 0 <= i < |args| ==> lo <= args[i].n <= hi
    ensures Avg(args).VNum? && lo <= Avg(args).n <= hi
  {
    SumNumbersBounds(args, lo, hi);
    QuotientBounds(SumNumbers(args), |args| as real, lo, hi);
  }

  /** `math.avg` of copies of one number is that number. */
  lemma AvgOfConstant(args: seq<Value>, c: real)
    requires args != [] && forall i :: 0 <= i < |args| ==> args[i] == VNum(c)
    ensures Avg(args) == VNum(c)
  {
    AvgWithinBounds(args, c, c);
  }

  /** `request.security` ignores its symbol and timeframe arguments (runner.ts:45-50). */
  lemma SecurityIgnoresSymbol(sym1: Value, tf1: Value, sym2: Value, tf2: Value, expr: Value, vars: map<string, Value>)
    ensures Security([sym1, tf1, expr], vars) == Security([sym2, tf2, expr], vars)
    ensures !expr.VList? ==> Security([sym1, tf1, expr], vars) == Lookup(vars, "close")
  {
  }

  /** A component of 1e21 is written in exponent notation, as the template literal does. */
  lemma RgbOfHugeComponent()
    ensures Rgb([VNum(1e21), VNum(0.0), VNum(0.0)]) == VStr("rgb(1e+21,0,0)")
  {
    var args := [VNum(1e21), VNum(0.0), VNum(0.0)];
    assert "rgb(" + "1e+21" + "," + "0" + "," + "0" + ")" == "rgb(1e+21,0,0)";
    assert Arg(args, 0) == VNum(1e21) && Arg(args, 1) == VNum(0.0) && Arg(args, 2) == VNum(0.0);
    KeyOfTenToTwentyOne();
    assert KeyOf(VNum(0.0)) == Some("0");
  }
}
