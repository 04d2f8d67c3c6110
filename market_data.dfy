/**
 * The pure parts of src/hooks/useMarketData.ts: the timeframe to exchange
 * interval mapping, symbol normalisation, the mapping of kline rows to
 * candles, the merge of a live candle into the bounded price buffer, and the
 * reconnect back-off. The HTTP fetch, the WebSocket, timers and React state
 * are not modelled; `Math.random()` enters as the parameter `roll`, the value
 * of `Math.floor(Math.random() * 400)`.
 */
module MarketData {
  import opened Wrappers
  import opened Strings
  import opened ChartMath

  /** The lookup table of `timeframeToBinanceInterval` (useMarketData.ts:9-20). */
  const IntervalMap: map<string, string> := map[
    "1m" := "1m", "5m" := "5m", "15m" := "15m", "30m" := "30m",
    "1h" := "1h", "4h" := "4h", "12h" := "12h", "1d" := "1d", "1w" := "1w", "1M" := "1M"]

  /**
   * `timeframeToBinanceInterval` (useMarketData.ts:7-30): a missing or empty
   * timeframe is daily; otherwise the lowercased key is looked up, and the
   * fallbacks after the lookup end in daily.
   */
  function Interval(tf: Option<string>): (r: string)
    ensures r in IntervalMap.Values
    ensures tf.None? || tf.value == "" ==> r == "1d"
    ensures tf.Some? && ToLower(tf.value) in IntervalMap ==> r == IntervalMap[ToLower(tf.value)]
  {
    assert IntervalMap["1d"] == "1d" && IntervalMap["1h"] == "1h" && IntervalMap["4h"] == "4h" && IntervalMap["1w"] == "1w";
    if tf.None? || tf.value == "" then "1d"
    else
      var key := ToLower(tf.value);
      if key in IntervalMap && IntervalMap[key] != "" then IntervalMap[key]
      else if tf.value == "1H" then "1h"
      else if tf.value == "4H" then "4h"
      else if tf.value == "1D" || tf.value == "1d" then "1d"
      else if tf.value == "1W" || tf.value == "1w" then "1w"
      else "1d"
  }

  lemma ToLowerIdempotent(s: string)
    ensures ToLower(ToLower(s)) == ToLower(s)
  {
    var a, b := ToLower(ToLower(s)), ToLower(s);
    assert forall i :: 0 <= i < |s| ==> a[i] == b[i];
  }

  lemma ToLowerHasNoCapitalM(s: string)
    ensures 'M' !in ToLower(s)
  {
    var t := ToLower(s);
    forall i | 0 <= i < |t|
      ensures t[i] != 'M'
    {
    }
  }

  /**
   * The monthly entry can never be reached: the key is lowercased first, so
   * `1M` reads as `1m`, one minute.
   */
  lemma NeverMonthly(tf: Option<string>)
    ensures Interval(tf) != "1M"
    ensures Interval(Some("1M")) == "1m"
  {
    if tf.Some? && tf.value != "" {
      ToLowerHasNoCapitalM(tf.value);
      assert "1M"[1] == 'M';
    }
    assert ToLower("1M") == "1m";
  }

  /** The mapping ignores case: a timeframe and its lowercase give the same interval. */
  lemma IntervalIgnoresCase(tf: string)
    ensures Interval(Some(tf)) == Interval(Some(ToLower(tf)))
  {
    ToLowerIdempotent(tf);
    if ToLower(tf) !in IntervalMap {
      UnmappedIsDaily(tf);
      UnmappedIsDaily(ToLower(tf));
    }
  }

  /** A timeframe whose lowercase is not in the table falls through every fallback to daily. */
  lemma UnmappedIsDaily(tf: string)
    requires ToLower(tf) !in IntervalMap
    ensures Interval(Some(tf)) == "1d"
  {
    assert tf != "1H" && tf != "4H" && tf != "1W" && tf != "1w" by {
      assert ToLower("1H") == "1h" && ToLower("4H") == "4h";
      assert ToLower("1W") == "1w" && ToLower("1w") == "1w";
    }
  }

  /** `symbol.replace('/', '').toUpperCase()` (useMarketData.ts:57, 192). */
  function NormalizeSymbol(symbol: string): (r: string)
    ensures |r| == |symbol| - (if '/' in symbol then 1 else 0)
    ensures forall i :: 0 <= i < |r| ==> !('a' <= r[i] <= 'z')
  {
    ToUpper(RemoveFirst(symbol, '/'))
  }

  /** A pair symbol loses its one slash: `base/quote` becomes `BASEQUOTE`. */
  lemma NormalizePair(base: string, quote: string)
    requires '/' !in base && '/' !in quote
    ensures NormalizeSymbol(base + "/" + quote) == ToUpper(base + quote)
    ensures '/' !in NormalizeSymbol(base + "/" + quote)
  {
    RemoveFirstSplit(base, '/', quote);
    var r := ToUpper(base + quote);
    forall i | 0 <= i < |r|
      ensures r[i] != '/'
    {
      assert (base + quote)[i] in base || (base + quote)[i] in quote;
    }
  }

  /** One candle: open time in seconds and the five prices and volume. */
  datatype Candle = Candle(time: int, open: real, high: real, low: real, close: real, volume: real)

  /**
   * One kline row `[openTimeMs, open, high, low, close, volume, ...]`
   * (useMarketData.ts:68-77): the time becomes whole seconds, rounded down.
   * A row with fewer than six entries gives `None`, the candle of `NaN`s.
   */
  function KlineCandle(row: seq<real>): (r: Option<Candle>)
    ensures r.Some? <==> |row| >= 6
    ensures r.Some? ==> r.value.time as real * 1000.0 <= row[0] < (r.value.time as real + 1.0) * 1000.0
    ensures r.Some? ==> [r.value.open, r.value.high, r.value.low, r.value.close, r.value.volume] == row[1..6]
  {
    if |row| < 6 then None
    else Some(Candle((row[0] / 1000.0).Floor, row[1], row[2], row[3], row[4], row[5]))
  }

  /** `(data || []).map(...)`: one candle per row, in order; a null payload gives none. */
  function KlineCandles(data: Option<seq<seq<real>>>): (r: seq<Option<Candle>>)
    ensures data.None? ==> r == []
    ensures data.Some? ==> |r| == |data.value| && forall i :: 0 <= i < |r| ==> r[i] == KlineCandle(data.value[i])
  {
    if data.None? then [] else seq(|data.value|, i requires 0 <= i < |data.value| => KlineCandle(data.value[i]))
  }

  /**
   * The live-candle merge (useMarketData.ts:133-144): an empty buffer
   * becomes the candle alone, a candle for the last bar's time replaces that
   * bar, and any other candle is appended, dropping the oldest bar when the
   * buffer then exceeds `limit`.
   */
  function Merged(prev: seq<Candle>, c: Candle, limit: int): (r: seq<Candle>)
    ensures |r| >= 1 && r[|r| - 1] == c
    ensures r[..|r| - 1] == (if prev == [] then [] else if prev[|prev| - 1].time == c.time then prev[..|prev| - 1]
                             else if |prev| + 1 > limit then prev[1..] else prev)
  {
    if prev == [] then [c]
    else if prev[|prev| - 1].time == c.time then prev[..|prev| - 1] + [c]
    else
      var copy := prev + [c];
      if |copy| > limit then copy[1..] else copy
  }

  /** For a limit of at least one, a buffer within the limit stays within it. */
  lemma MergedWithinLimit(prev: seq<Candle>, c: Candle, limit: int)
    requires limit >= 1 && |prev| <= limit
    ensures |Merged(prev, c, limit)| <= limit
  {
  }

  /** Bars in strictly increasing time order. */
  predicate Increasing(bars: seq<Candle>)
  {
    forall i, j :: 0 <= i < j < |bars| ==> bars[i].time < bars[j].time
  }

  lemma AppendIncreasing(bars: seq<Candle>, c: Candle)
    requires Increasing(bars) && (bars != [] ==> bars[|bars| - 1].time < c.time)
    ensures Increasing(bars + [c])
  {
    var r := bars + [c];
    forall i, j | 0 <= i < j < |r|
      ensures r[i].time < r[j].time
    {
      if j == |bars| && i < |bars| - 1 {
        assert bars[i].time < bars[|bars| - 1].time;
      }
    }
  }

  /** A candle no older than the last bar keeps the buffer in strictly increasing time order. */
  lemma MergedIncreasing(prev: seq<Candle>, c: Candle, limit: int)
    requires Increasing(prev)
    requires prev != [] ==> prev[|prev| - 1].time <= c.time
    ensures Increasing(Merged(prev, c, limit))
  {
    if prev != [] {
      var n := |prev|;
      if prev[n - 1].time == c.time {
        var q := prev[..n - 1];
        assert Increasing(q);
        if q != [] {
          assert q[|q| - 1].time < prev[n - 1].time;
        }
        AppendIncreasing(q, c);
      } else {
        AppendIncreasing(prev, c);
        var copy := prev + [c];
        assert Increasing(copy[1..]);
      }
    }
  }

  /** `2^n` */
  function Pow2(n: nat): (r: nat)
    ensures r >= 1
  {
    if n == 0 then 1 else 2 * Pow2(n - 1)
  }

  lemma {:induction false} Pow2Monotone(m: nat, n: nat)
    requires m <= n
    ensures Pow2(m) <= Pow2(n)
  {
    if m < n {
      Pow2Monotone(m, n - 1);
    }
  }

  const MaxAttempts := 10
  const MaxBackoff := 30000
  const MinWait := 200

  /** `Math.min(30000, 500 * Math.pow(2, attempt))` (useMarketData.ts:160). */
  function Backoff(attempt: nat): (r: int)
    ensures 500 <= r <= MaxBackoff
    ensures attempt >= 6 ==> r == MaxBackoff
    ensures attempt <= 5 ==> r == 500 * Pow2(attempt)
  {
    Pow2Around6(attempt);
    MinInt(MaxBackoff, 500 * Pow2(attempt))
  }

  /** `2^6 = 64` is the first power of two past 60, so `500 * 2^n` passes the cap exactly from 6 on. */
  lemma Pow2Around6(n: nat)
    ensures n >= 6 ==> Pow2(n) >= 64
    ensures n <= 5 ==> 500 * Pow2(n) <= 16000
  {
    if n >= 6 {
      Pow2Monotone(6, n);
    } else {
      Pow2Monotone(n, 5);
    }
  }

  /** `Math.max(200, backoff + jitter)` with `jitter = roll - 200` (useMarketData.ts:161-162). */
  function Wait(attempt: nat, roll: int): (r: int)
    requires 0 <= roll < 400
    ensures MinWait <= r <= MaxBackoff + 199
    ensures r >= Backoff(attempt) - 200
  {
    MaxInt(MinWait, Backoff(attempt) + (roll - 200))
  }

  /** The delays grow with the attempt number until they reach the cap. */
  lemma BackoffMonotone(m: nat, n: nat)
    requires m <= n
    ensures Backoff(m) <= Backoff(n)
  {
    Pow2Monotone(m, n);
  }

  /** The live part of the hook: the price buffer and the reconnect counter. */
  class LiveFeed {
    const limit: int
    var priceData: seq<Candle>
    var reconnectAttempts: nat

    /** The hook's counter never passes the cap. */
    predicate Valid()
      reads this
    {
      reconnectAttempts <= MaxAttempts
    }

    constructor(limit: int)
      ensures this.limit == limit && priceData == [] && reconnectAttempts == 0 && Valid()
    {
      this.limit := limit;
      priceData := [];
      reconnectAttempts := 0;
    }

    /** A kline message merged into the buffer (useMarketData.ts:120-148). */
    method OnCandle(c: Candle)
      modifies this
      ensures priceData == Merged(old(priceData), c, limit)
      ensures reconnectAttempts == old(reconnectAttempts)
    {
      if |priceData| == 0 {
        priceData := [c];
        return;
      }
      var last := priceData[|priceData| - 1];
      if last.time == c.time {
        priceData := priceData[..|priceData| - 1] + [c];
        return;
      }
      var copy := priceData + [c];
      if |copy| > limit {
        copy := copy[1..];
      }
      priceData := copy;
    }

    /**
     * `setupWebSocket` (useMarketData.ts:98-112): the new socket replaces
     * the old one and the attempt counter is zeroed before any event of
     * the new socket arrives.
     */
    method OnSetup()
      modifies this
      ensures reconnectAttempts == 0 && priceData == old(priceData) && Valid()
    {
      reconnectAttempts := 0;
    }

    /** `ws.onopen` (useMarketData.ts:114-118). */
    method OnOpen()
      modifies this
      ensures reconnectAttempts == 0 && priceData == old(priceData) && Valid()
    {
      reconnectAttempts := 0;
    }

    /**
     * `ws.onclose` (useMarketData.ts:152-171): unless the effect was cancelled
     * or the component unmounted, counts one more attempt, capped, and
     * returns the delay before the next connection.
     */
    method OnClose(live: bool, roll: int) returns (wait: Option<int>)
      requires Valid() && 0 <= roll < 400
      modifies this
      ensures Valid() && priceData == old(priceData)
      ensures !live ==> wait.None? && reconnectAttempts == old(reconnectAttempts)
      ensures live ==> reconnectAttempts == MinInt(MaxAttempts, old(reconnectAttempts) + 1)
                       && wait == Some(Wait(reconnectAttempts, roll))
    {
      if !live {
        return None;
      }
      reconnectAttempts := MinInt(MaxAttempts, reconnectAttempts + 1);
      wait := Some(Wait(reconnectAttempts, roll));
    }

    /**
     * An outage as the hook lives it: each socket closes before it opens,
     * and the timer then calls `setupWebSocket` again (useMarketData.ts:169).
     * One jitter roll per close; the result holds the waits scheduled.
     */
    method Outage(rolls: seq<int>) returns (waits: seq<int>)
      requires Valid() && RollsInRange(rolls)
      modifies this
      ensures Valid() && priceData == old(priceData)
      ensures waits == OutageWaits(0, rolls, true)
    {
      waits := [];
      var i := 0;
      while i < |rolls|
        invariant 0 <= i <= |rolls| && Valid() && priceData == old(priceData)
        invariant waits == OutageWaits(0, rolls[..i], true)
      {
        OnSetup();
        var w := OnClose(true, rolls[i]);
        OutageWaitsSnoc(0, rolls[..i], rolls[i], true);
        assert rolls[..i + 1] == rolls[..i] + [rolls[i]];
        waits := waits + [w.value];
        i := i + 1;
      }
      assert rolls[..i] == rolls;
    }

    /**
     * The same outage with the counter zeroed only by `ws.onopen`, which is
     * what the exponential back-off at useMarketData.ts:157-160 needs: the
     * counter carries over from one failed connection to the next.
     */
    method OutageKeepingCount(rolls: seq<int>) returns (waits: seq<int>)
      requires Valid() && RollsInRange(rolls)
      modifies this
      ensures Valid() && priceData == old(priceData)
      ensures waits == OutageWaits(old(reconnectAttempts), rolls, false)
    {
      waits := [];
      var i := 0;
      while i < |rolls|
        invariant 0 <= i <= |rolls| && Valid() && priceData == old(priceData)
        invariant reconnectAttempts == OutageAttempts(old(reconnectAttempts), i, false)
        invariant waits == OutageWaits(old(reconnectAttempts), rolls[..i], false)
      {
        OutageAttemptsSnoc(old(reconnectAttempts), i, false);
        var w := OnClose(true, rolls[i]);
        OutageWaitsSnoc(old(reconnectAttempts), rolls[..i], rolls[i], false);
        assert rolls[..i + 1] == rolls[..i] + [rolls[i]];
        waits := waits + [w.value];
        i := i + 1;
      }
      assert rolls[..i] == rolls;
    }
  }

  /** Every jitter roll is one of `Math.floor(Math.random() * 400)`. */
  predicate RollsInRange(rolls: seq<int>)
  {
    forall i :: 0 <= i < |rolls| ==> 0 <= rolls[i] < 400
  }

  /**
   * The waits of an outage in which every connection closes before it
   * opens, starting from the counter `attempts`. `resetOnSetup` says
   * whether each new connection zeroes the counter first, as
   * `setupWebSocket` does at useMarketData.ts:112.
   */
  function OutageWaits(attempts: nat, rolls: seq<int>, resetOnSetup: bool): (r: seq<int>)
    requires RollsInRange(rolls)
    ensures |r| == |rolls|
    decreases |rolls|
  {
    if rolls == [] then []
    else
      var a := MinInt(MaxAttempts, (if resetOnSetup then 0 else attempts) + 1);
      [Wait(a, rolls[0])] + OutageWaits(a, rolls[1..], resetOnSetup)
  }

  /** The counter an outage leaves behind. */
  function OutageAttempts(attempts: nat, n: nat, resetOnSetup: bool): nat
    decreases n
  {
    if n == 0 then attempts
    else OutageAttempts(MinInt(MaxAttempts, (if resetOnSetup then 0 else attempts) + 1), n - 1, resetOnSetup)
  }

  /** One more close moves the counter one step on. */
  lemma {:induction false} OutageAttemptsSnoc(attempts: nat, n: nat, resetOnSetup: bool)
    ensures OutageAttempts(attempts, n + 1, resetOnSetup)
         == MinInt(MaxAttempts, (if resetOnSetup then 0 else OutageAttempts(attempts, n, resetOnSetup)) + 1)
    decreases n
  {
    if n > 0 {
      OutageAttemptsSnoc(MinInt(MaxAttempts, (if resetOnSetup then 0 else attempts) + 1), n - 1, resetOnSetup);
    }
  }

  /** One more close extends the waits by the wait of that close. */
  lemma {:induction false} OutageWaitsSnoc(attempts: nat, rolls: seq<int>, roll: int, resetOnSetup: bool)
    requires RollsInRange(rolls) && 0 <= roll < 400
    ensures RollsInRange(rolls + [roll])
    ensures OutageWaits(attempts, rolls + [roll], resetOnSetup)
         == OutageWaits(attempts, rolls, resetOnSetup)
            + [Wait(MinInt(MaxAttempts, (if resetOnSetup then 0 else OutageAttempts(attempts, |rolls|, resetOnSetup)) + 1), roll)]
    decreases |rolls|
  {
    if rolls != [] {
      var a := MinInt(MaxAttempts, (if resetOnSetup then 0 else attempts) + 1);
      assert (rolls + [roll])[1..] == rolls[1..] + [roll];
      OutageWaitsSnoc(a, rolls[1..], roll, resetOnSetup);
    }
  }

  /**
   * As written, the back-off never grows: because every reconnection goes
   * through `setupWebSocket`, which zeroes the counter, each close counts
   * attempt 1 and waits between 800 and 1199 ms, however long the outage.
   */
  lemma {:induction false} BackoffNeverEscalates(attempts: nat, rolls: seq<int>)
    requires RollsInRange(rolls)
    ensures forall i :: 0 <= i < |rolls| ==> OutageWaits(attempts, rolls, true)[i] == Wait(1, rolls[i])
    ensures forall i :: 0 <= i < |rolls| ==> 800 <= OutageWaits(attempts, rolls, true)[i] <= 1199
    decreases |rolls|
  {
    if rolls != [] {
      BackoffNeverEscalates(1, rolls[1..]);
      var w := OutageWaits(attempts, rolls, true);
      assert w == [Wait(1, rolls[0])] + OutageWaits(1, rolls[1..], true);
      assert Backoff(1) == 1000 by { assert Pow2(1) == 2; }
      forall i | 0 <= i < |rolls|
        ensures w[i] == Wait(1, rolls[i]) && 800 <= w[i] <= 1199
      {
        if i > 0 {
          assert w[i] == OutageWaits(1, rolls[1..], true)[i - 1];
        }
      }
    }
  }

  /**
   * With the counter zeroed only when a socket opens, the `i`-th close of
   * an outage counts attempt `min(10, attempts + i + 1)`.
   */
  lemma {:induction false} OutageCountsCloses(attempts: nat, rolls: seq<int>)
    requires RollsInRange(rolls) && attempts <= MaxAttempts
    ensures forall i :: 0 <= i < |rolls| ==>
      OutageWaits(attempts, rolls, false)[i] == Wait(MinInt(MaxAttempts, attempts + i + 1), rolls[i])
    decreases |rolls|
  {
    if rolls != [] {
      var a := MinInt(MaxAttempts, attempts + 1);
      OutageCountsCloses(a, rolls[1..]);
      var w := OutageWaits(attempts, rolls, false);
      assert w == [Wait(a, rolls[0])] + OutageWaits(a, rolls[1..], false);
      forall i | 0 <= i < |rolls|
        ensures w[i] == Wait(MinInt(MaxAttempts, attempts + i + 1), rolls[i])
      {
        if i > 0 {
          assert w[i] == OutageWaits(a, rolls[1..], false)[i - 1];
          assert MinInt(MaxAttempts, a + (i - 1) + 1) == MinInt(MaxAttempts, attempts + i + 1);
        }
      }
    }
  }

  /** The back-off before the reconnection that follows close number `i` (from 0) of an outage. */
  function CloseBackoff(i: nat): int
  {
    Backoff(MinInt(MaxAttempts, i + 1))
  }

  /**
   * With the counter zeroed only when a socket opens, the back-off escalates:
   * the `i`-th wait is the back-off of attempt `min(10, i + 1)` give or take
   * the jitter, those back-offs never shrink, and from the sixth close on
   * each wait lies within 200 ms of the 30 s cap.
   */
  lemma LongOutageWaits(rolls: seq<int>)
    requires RollsInRange(rolls)
    ensures forall i :: 0 <= i < |rolls| ==> OutageWaits(0, rolls, false)[i] == Wait(MinInt(MaxAttempts, i + 1), rolls[i])
    ensures forall i :: 5 <= i < |rolls| ==> MaxBackoff - 200 <= OutageWaits(0, rolls, false)[i] <= MaxBackoff + 199
    ensures forall i: nat, j: nat :: i < j ==> CloseBackoff(i) <= CloseBackoff(j)
  {
    OutageCountsCloses(0, rolls);
    forall i: nat, j: nat | i < j
      ensures CloseBackoff(i) <= CloseBackoff(j)
    {
      BackoffMonotone(MinInt(MaxAttempts, i + 1), MinInt(MaxAttempts, j + 1));
    }
  }

  /** The reconnect timer's guard (useMarketData.ts:166): the symbol and the interval still match. */
  predicate StillActive(activeSymbol: string, activeTimeframe: Option<string>, binSymbol: string, tfInterval: string)
  {
    NormalizeSymbol(activeSymbol) == NormalizeSymbol(binSymbol) && Interval(activeTimeframe) == tfInterval
  }

  /** With the parameters unchanged, a pair symbol always passes the guard and reconnects. */
  lemma UnchangedReconnects(base: string, quote: string, tf: Option<string>)
    requires '/' !in base && '/' !in quote
    ensures StillActive(base + "/" + quote, tf, NormalizeSymbol(base + "/" + quote), Interval(tf))
  {
    NormalizePair(base, quote);
    var n := NormalizeSymbol(base + "/" + quote);
    assert RemoveFirst(n, '/') == n;
    var u := ToUpper(n);
    assert forall i :: 0 <= i < |n| ==> u[i] == n[i];
  }
}
