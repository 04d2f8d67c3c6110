/**
 * The ruler and the helpers of src/components/ChartDrawingLayer.tsx: the
 * bar-index resolution of a time, the text of a bar count, the statistics a
 * finished ruler reports, the clamps of the floating measurement box, and
 * the three-click ruler cycle. Pixel positions under the pointer are the
 * parameter `p`; `coordinateToPoint` of the chart enters as already
 * converted `ChartPoint`s; `Date.now()` is `now`.
 */
module ChartDrawingLayer {
  import opened Wrappers
  import opened Strings
  import opened ChartMath
  import opened Drawings

  /** One bar of `priceData` as the layer reads it: its time and its volume. */
  datatype PriceBar = PriceBar(time: real, volume: real)

  /** Distance of a bar's time from `t` (ChartDrawingLayer.tsx:78). */
  function Dist(b: PriceBar, t: real): real
  {
    Abs(b.time - t)
  }

  /** The first of `bars[..n]` whose time is nearest to `t`. */
  function NearestIn(bars: seq<PriceBar>, t: real, n: nat): (r: nat)
    requires 1 <= n <= |bars|
    ensures r < n
    ensures forall j :: 0 <= j < n ==> Dist(bars[r], t) <= Dist(bars[j], t)
    ensures forall j :: 0 <= j < r ==> Dist(bars[j], t) > Dist(bars[r], t)
  {
    if n == 1 then 0
    else
      var b := NearestIn(bars, t, n - 1);
      if Dist(bars[n - 1], t) < Dist(bars[b], t) then n - 1 else b
  }

  /**
   * `resolveIndex` (ChartDrawingLayer.tsx:70-82): no index without bars or
   * without a numeric time; the rounded time itself when it is a valid
   * index; otherwise the first bar nearest in time.
   */
  function ResolveIndexSpec(data: Option<seq<PriceBar>>, t: Option<real>): (r: Option<nat>)
    ensures r.None? <==> data.None? || |data.value| == 0 || t.None?
    ensures r.Some? ==> r.value < |data.value|
    ensures r.Some? && 0 <= Round(t.value) < |data.value| ==> r.value == Round(t.value)
    ensures r.Some? && !(0 <= Round(t.value) < |data.value|) ==>
              (forall j :: 0 <= j < |data.value| ==> Dist(data.value[r.value], t.value) <= Dist(data.value[j], t.value))
              && (forall j :: 0 <= j < r.value ==> Dist(data.value[j], t.value) > Dist(data.value[r.value], t.value))
  {
    if data.None? || |data.value| == 0 || t.None? then None
    else
      var idx := Round(t.value);
      if 0 <= idx < |data.value| then Some(idx)
      else Some(NearestIn(data.value, t.value, |data.value|))
  }

  /** The search loop of `resolveIndex`; `bestDiff` is `None` while it is still `Infinity`. */
  method ResolveIndex(data: Option<seq<PriceBar>>, t: Option<real>) returns (r: Option<nat>)
    ensures r == ResolveIndexSpec(data, t)
  {
    if data.None? || |data.value| == 0 || t.None? {
      return None;
    }
    var bars, tv := data.value, t.value;
    var idx := Round(tv);
    if 0 <= idx < |bars| {
      return Some(idx);
    }
    var best: nat := 0;
    var bestDiff: Option<real> := None;
    var i := 0;
    while i < |bars|
      invariant 0 <= i <= |bars|
      invariant i == 0 ==> bestDiff.None? && best == 0
      invariant i > 0 ==> best == NearestIn(bars, tv, i) && bestDiff == Some(Dist(bars[best], tv))
    {
      var diff := Dist(bars[i], tv);
      if bestDiff.None? || diff < bestDiff.value {
        bestDiff := Some(diff);
        best := i;
      }
      i := i + 1;
    }
    return Some(best);
  }

  /**
   * `parseInt(s)` in base 10 (leading white space, an optional sign, then
   * the digits that follow); `None` is `NaN`.
   */
  function ParseInt(s: string): (r: Option<int>)
    ensures r.None? <==> DigitRun(Unsigned(s[LeadingWs(s)..])) == 0
  {
    var t := s[LeadingWs(s)..];
    var u := Unsigned(t);
    var n := DigitRun(u);
    if n == 0 then None
    else if |t| > 0 && t[0] == '-' then Some(-(DigitsValue(u[..n]) as int))
    else Some(DigitsValue(u[..n]))
  }

  /** The text after an optional leading sign. */
  function Unsigned(t: string): string
  {
    if |t| > 0 && (t[0] == '-' || t[0] == '+') then t[1..] else t
  }

  /** `parseInt(s) || 1`: the number read, except that `NaN` and 0 both give 1. */
  function ParseIntOr1(s: string): (r: int)
    ensures r != 0
    ensures ParseInt(s).Some? && ParseInt(s).value != 0 ==> r == ParseInt(s).value
    ensures DigitRun(Unsigned(s[LeadingWs(s)..])) == 0 ==> r == 1
  {
    var p := ParseInt(s);
    if p.None? || p.value == 0 then 1 else p.value
  }

  /** Decimal digits followed by text that does not start with a digit read back as the number. */
  lemma ParseIntOfDigits(k: nat, rest: string)
    requires rest == [] || !IsDigit(rest[0])
    ensures ParseInt(NatToString(k) + rest) == Some(k)
  {
    var d := NatToString(k);
    var s := d + rest;
    assert !IsWs(s[0]) by {
      assert s[0] == d[0] && IsDigit(d[0]);
    }
    assert LeadingWs(s) == 0;
    assert s[0] != '-' && s[0] != '+';
    assert Unsigned(s) == s;
    DigitRunPrefix(d, rest);
    assert s[..|d|] == d;
    DigitsValueOfNatToString(k);
  }

  lemma {:induction false} DigitRunPrefix(d: string, rest: string)
    requires forall i :: 0 <= i < |d| ==> IsDigit(d[i])
    requires rest == [] || !IsDigit(rest[0])
    ensures DigitRun(d + rest) == |d|
  {
    if d != [] {
      assert (d + rest)[1..] == d[1..] + rest;
      DigitRunPrefix(d[1..], rest);
    } else {
      assert d + rest == rest;
    }
  }

  /**
   * `barsToTimeString` (ChartDrawingLayer.tsx:84-97): with no timeframe, a
   * count of bars; a timeframe whose lower-case form ends in `m` or `h` is
   * read as that many minutes or hours a bar (a count that does not parse,
   * or is 0, counting as 1) and the span is written in minutes; `1d` and `d`
   * give days; any other timeframe gives a count of bars.
   */
  function BarsToTimeString(bars: int, timeframe: Option<string>): (r: string)
    ensures timeframe.None? || timeframe.value == "" ==> r == IntToString(bars) + " bars"
    ensures timeframe.Some? && EndsWith(ToLower(timeframe.value), "m") ==>
      r == IntToString(bars * ParseIntOr1(RemoveFirst(ToLower(timeframe.value), 'm'))) + "m"
    ensures timeframe.Some? && !EndsWith(ToLower(timeframe.value), "m") && EndsWith(ToLower(timeframe.value), "h") ==>
      r == IntToString(bars * ParseIntOr1(RemoveFirst(ToLower(timeframe.value), 'h')) * 60) + "m"
    ensures timeframe.Some? && ToLower(timeframe.value) in {"1d", "d"} ==> r == IntToString(bars) + "D"
    ensures timeframe.Some? && timeframe.value != "" && !EndsWith(ToLower(timeframe.value), "m")
            && !EndsWith(ToLower(timeframe.value), "h") && ToLower(timeframe.value) !in {"1d", "d"}
            ==> r == IntToString(bars) + " bars"
  {
    if timeframe.None? || timeframe.value == "" then IntToString(bars) + " bars"
    else
      var tf := ToLower(timeframe.value);
      if EndsWith(tf, "m") then IntToString(bars * ParseIntOr1(RemoveFirst(tf, 'm'))) + "m"
      else if EndsWith(tf, "h") then IntToString(bars * ParseIntOr1(RemoveFirst(tf, 'h')) * 60) + "m"
      else if tf == "1d" || tf == "d" then IntToString(bars) + "D"
      else IntToString(bars) + " bars"
  }

  /** A lowercase unit letter after the digits: `ToLower` and the first-occurrence `replace` leave the number. */
  lemma UnitNumber(k: nat, unit: char)
    requires 'a' <= unit <= 'z'
    ensures ToLower(NatToString(k) + [unit]) == NatToString(k) + [unit]
    ensures EndsWith(NatToString(k) + [unit], [unit])
    ensures RemoveFirst(NatToString(k) + [unit], unit) == NatToString(k)
    ensures ParseInt(NatToString(k)) == Some(k)
  {
    var d := NatToString(k);
    var s := d + [unit];
    var l := ToLower(s);
    assert forall i :: 0 <= i < |s| ==> l[i] == s[i];
    assert s[|s| - 1..] == [unit];
    assert forall i :: 0 <= i < |d| ==> d[i] != unit;
    RemoveFirstSplit(d, unit, []);
    assert d + [unit] + [] == s;
    assert d + [] == d;
    ParseIntOfDigits(k, []);
  }

  /** `Nm` reads as N minutes a bar: `bars` bars are `bars * N` minutes. */
  lemma MinutesTimeframe(bars: int, k: nat)
    requires k >= 1
    ensures BarsToTimeString(bars, Some(NatToString(k) + "m")) == IntToString(bars * k) + "m"
  {
    UnitNumber(k, 'm');
  }

  /** `Nh` reads as N hours a bar, written in minutes. */
  lemma HoursTimeframe(bars: int, k: nat)
    requires k >= 1
    ensures BarsToTimeString(bars, Some(NatToString(k) + "h")) == IntToString(bars * k * 60) + "m"
  {
    UnitNumber(k, 'h');
    var s := NatToString(k) + "h";
    assert !EndsWith(s, "m") by {
      assert s[|s| - 1] == 'h';
    }
  }

  /** Digits followed by any letter lower-case to the digits and the lower-case letter. */
  lemma LowerUnit(k: nat, unit: char)
    ensures ToLower(NatToString(k) + [unit]) == NatToString(k) + [LowerChar(unit)]
  {
    var d := NatToString(k);
    var s := d + [unit];
    var l := ToLower(s);
    assert forall i :: 0 <= i < |d| ==> l[i] == d[i];
    assert l[|d|] == LowerChar(unit);
    assert l == d + [LowerChar(unit)];
  }

  /** The month timeframes `NM` lower-case to `Nm` and read as N minutes a bar. */
  lemma MonthsReadAsMinutes(bars: int, k: nat)
    requires k >= 1
    ensures BarsToTimeString(bars, Some(NatToString(k) + "M")) == IntToString(bars * k) + "m"
  {
    var s := NatToString(k) + "M";
    LowerUnit(k, 'M');
    UnitNumber(k, 'm');
    assert ToLower(s) == NatToString(k) + "m";
  }

  /** `Nd` for N other than 1 is already lower case, ends in neither unit letter and is neither `1d` nor `d`. */
  lemma DayText(k: nat)
    requires k != 1
    ensures ToLower(NatToString(k) + "d") == NatToString(k) + "d"
    ensures !EndsWith(NatToString(k) + "d", "m") && !EndsWith(NatToString(k) + "d", "h")
    ensures NatToString(k) + "d" !in {"1d", "d"}
  {
    var d := NatToString(k);
    var s := d + "d";
    LowerUnit(k, 'd');
    assert s[|s| - 1..] == "d";
    assert s[..|d|] == d;
    DigitsValueOfNatToString(k);
    assert s != "1d" by {
      assert DigitsValue("1") == 1;
      assert "1d"[..1] == "1";
    }
  }

  /** A day count other than 1 is no daily timeframe here: `Nd` reads as bars unless N is 1. */
  lemma DaysOtherThanOneReadAsBars(bars: int, k: nat)
    requires k != 1
    ensures BarsToTimeString(bars, Some(NatToString(k) + "d")) == IntToString(bars) + " bars"
  {
    DayText(k);
  }

  /** `priceData.slice(a, b + 1).reduce((s, v) => s + (v.volume || 0), 0)` */
  function VolumeSum(bars: seq<PriceBar>): (r: real)
    ensures (forall i :: 0 <= i < |bars| ==> bars[i].volume >= 0.0) ==> r >= 0.0
    ensures |bars| == 1 ==> r == bars[0].volume
  {
    if bars == [] then 0.0 else VolumeSum(bars[..|bars| - 1]) + bars[|bars| - 1].volume
  }

  lemma {:induction false} VolumeSumAppend(a: seq<PriceBar>, b: seq<PriceBar>)
    ensures VolumeSum(a + b) == VolumeSum(a) + VolumeSum(b)
  {
    if b == [] {
      assert a + b == a;
    } else {
      assert (a + b)[..|a + b| - 1] == a + b[..|b| - 1];
      VolumeSumAppend(a, b[..|b| - 1]);
    }
  }

  /** A point converted to chart coordinates; either part may be missing. */
  datatype ChartPoint = ChartPoint(price: Option<real>, time: Option<real>)

  /** The statistics of a finished ruler; `timeString` is `None` where the source prints a fractional number. */
  datatype RulerStats = RulerStats(priceDiff: real, percent: real, bars: real,
                                   timeString: Option<string>, volume: Option<real>)

  /** `x ?? 0` */
  function OrZero(x: Option<real>): real
  {
    if x.Some? then x.value else 0.0
  }

  /** `diff / Math.abs(base) * 100`: the sign of the change survives. */
  function PercentOf(diff: real, base: real): (r: real)
    requires base != 0.0
    ensures r > 0.0 <==> diff > 0.0
    ensures r < 0.0 <==> diff < 0.0
    ensures r * Abs(base) == diff * 100.0
  {
    var q := diff / Abs(base);
    assert q * Abs(base) == diff;
    q * 100.0
  }

  /**
   * The price part of a finished ruler's `data` (ChartDrawingLayer.tsx:480-481):
   * the change `(end ?? 0) - (start ?? 0)` and its percentage of the absolute
   * start price, 0 when the start price is missing or zero.
   */
  function PriceChange(sp: ChartPoint, ep: ChartPoint): (r: (real, real))
    ensures r.0 == OrZero(ep.price) - OrZero(sp.price)
    ensures r.1 > 0.0 <==> r.0 > 0.0 && sp.price.Some? && sp.price.value != 0.0
    ensures r.1 < 0.0 <==> r.0 < 0.0 && sp.price.Some? && sp.price.value != 0.0
    ensures sp.price.Some? && sp.price.value != 0.0 ==> r.1 * Abs(sp.price.value) == r.0 * 100.0
  {
    var priceDiff := OrZero(ep.price) - OrZero(sp.price);
    (priceDiff, if sp.price.Some? && sp.price.value != 0.0 then PercentOf(priceDiff, sp.price.value) else 0.0)
  }

  /**
   * The bar part of a finished ruler's `data` when both ends resolve to bars
   * (ChartDrawingLayer.tsx:485-494): the bar count, its text and the volume
   * over the inclusive range between the two indices.
   */
  function BarSpan(bars: seq<PriceBar>, i0: nat, i1: nat, timeframe: Option<string>): (r: (nat, string, real))
    requires i0 < |bars| && i1 < |bars|
    ensures r.0 == AbsInt(i1 - i0) && r.1 == BarsToTimeString(r.0, timeframe)
  {
    SpanBetween(bars, MinInt(i0, i1), MaxInt(i0, i1), timeframe)
  }

  /** Bars, time text and volume from bar `a` to bar `b`. */
  function SpanBetween(bars: seq<PriceBar>, a: nat, b: nat, timeframe: Option<string>): (r: (nat, string, real))
    requires a <= b < |bars|
    ensures r.0 == b - a && r.1 == BarsToTimeString(r.0, timeframe)
    ensures r.2 == bars[a].volume + VolumeSum(bars[a + 1..b + 1])
    ensures (forall i :: a <= i <= b ==> bars[i].volume >= 0.0) ==> r.2 >= bars[a].volume
  {
    VolumeSumAppend([bars[a]], bars[a + 1..b + 1]);
    assert [bars[a]] + bars[a + 1..b + 1] == bars[a..b + 1];
    (b - a, BarsToTimeString(b - a, timeframe), VolumeSum(bars[a..b + 1]))
  }

  /** The span between two bars does not depend on which end comes first, and its volume adds up over a split. */
  lemma BarSpanSymmetric(bars: seq<PriceBar>, i0: nat, i1: nat, timeframe: Option<string>)
    requires i0 < |bars| && i1 < |bars|
    ensures BarSpan(bars, i0, i1, timeframe) == BarSpan(bars, i1, i0, timeframe)
    ensures i0 <= i1 ==>
              BarSpan(bars, i0, i1, timeframe).2 == bars[i0].volume + VolumeSum(bars[i0 + 1..i1 + 1])
  {
    assert MinInt(i0, i1) == MinInt(i1, i0) && MaxInt(i0, i1) == MaxInt(i1, i0);
    if i0 <= i1 {
      assert BarSpan(bars, i0, i1, timeframe).2 == VolumeSum(bars[i0..i1 + 1]);
      VolumeSplitFirst(bars, i0, i1);
    }
  }

  /** The volume of bars `a..b` is the volume of bar `a` plus that of the bars after it. */
  lemma VolumeSplitFirst(bars: seq<PriceBar>, a: nat, b: nat)
    requires a <= b < |bars|
    ensures VolumeSum(bars[a..b + 1]) == bars[a].volume + VolumeSum(bars[a + 1..b + 1])
  {
    assert bars[a..b + 1] == bars[a..a + 1] + bars[a + 1..b + 1];
    VolumeSumAppend(bars[a..a + 1], bars[a + 1..b + 1]);
    assert bars[a..a + 1][..0] == [];
  }

  /** The statistics of a finished ruler (ChartDrawingLayer.tsx:477-496). */
  function RulerStatsOf(sp: ChartPoint, ep: ChartPoint, data: Option<seq<PriceBar>>, timeframe: Option<string>): (r: RulerStats)
    ensures (r.priceDiff, r.percent) == PriceChange(sp, ep)
    ensures r.bars >= 0.0
    ensures r.volume.Some? <==> ResolveIndexSpec(data, sp.time).Some? && ResolveIndexSpec(data, ep.time).Some?
    ensures r.volume.Some? <==> r.timeString.Some?
    ensures r.volume.None? ==> r.bars == Abs(OrZero(ep.time) - OrZero(sp.time))
  {
    var change := PriceChange(sp, ep);
    var raw := Abs(OrZero(ep.time) - OrZero(sp.time));
    var i0, i1 := ResolveIndexSpec(data, sp.time), ResolveIndexSpec(data, ep.time);
    if i0.Some? && i1.Some? then
      var span := BarSpan(data.value, i0.value, i1.value, timeframe);
      RulerStats(change.0, change.1, span.0 as real, Some(span.1), Some(span.2))
    else RulerStats(change.0, change.1, raw, None, None)
  }

  /** Measuring from B to A reports the same bars and volume as from A to B, with the price change negated. */
  lemma RulerStatsSymmetric(sp: ChartPoint, ep: ChartPoint, data: Option<seq<PriceBar>>, timeframe: Option<string>)
    ensures RulerStatsOf(sp, ep, data, timeframe).bars == RulerStatsOf(ep, sp, data, timeframe).bars
    ensures RulerStatsOf(sp, ep, data, timeframe).volume == RulerStatsOf(ep, sp, data, timeframe).volume
    ensures RulerStatsOf(sp, ep, data, timeframe).timeString == RulerStatsOf(ep, sp, data, timeframe).timeString
    ensures RulerStatsOf(sp, ep, data, timeframe).priceDiff == -RulerStatsOf(ep, sp, data, timeframe).priceDiff
  {
    var i0, i1 := ResolveIndexSpec(data, sp.time), ResolveIndexSpec(data, ep.time);
    if i0.Some? && i1.Some? {
      BarSpanSymmetric(data.value, i0.value, i1.value, timeframe);
    } else {
      assert Abs(OrZero(ep.time) - OrZero(sp.time)) == Abs(OrZero(sp.time) - OrZero(ep.time));
    }
  }

  const BoxW := 160.0
  const BoxH := 72.0
  const Margin := 8.0

  /**
   * The render clamp of the measurement box on one axis
   * (ChartDrawingLayer.tsx:267-270): the low bound first, then the high
   * bound, so the high bound wins when the box does not fit.
   */
  function RenderClamp(v: real, size: real, box: real): (r: real)
    ensures r <= size - box - Margin
    ensures size - box - Margin >= Margin ==> Margin <= r
    ensures Margin <= v && v + box <= size - Margin ==> r == v
  {
    var lo := if v < Margin then Margin else v;
    if lo + box > size - Margin then size - box - Margin else lo
  }

  /**
   * The drag clamp (ChartDrawingLayer.tsx:559-560):
   * `max(margin, min(n, size - box - margin))`, so the low bound wins.
   */
  function DragClamp(n: real, size: real, box: real): (r: real)
    ensures Margin <= r
    ensures size - box - Margin >= Margin ==> r <= size - box - Margin
    ensures Margin <= n <= size - box - Margin ==> r == n
  {
    MaxReal(Margin, MinReal(n, size - box - Margin))
  }

  /** When the box fits, the two clamps agree; when it does not, they pin it to opposite sides. */
  lemma ClampsCompared(v: real, size: real, box: real)
    ensures size - box - Margin >= Margin ==> RenderClamp(v, size, box) == DragClamp(v, size, box)
    ensures size - box - Margin < Margin ==>
              RenderClamp(v, size, box) == size - box - Margin && DragClamp(v, size, box) == Margin
  {
  }

  /** A point in pixels relative to the chart container. */
  datatype XY = XY(x: real, y: real)

  /** The cloud's place: the midpoint, each coordinate rounded with `Math.round`. */
  function RoundedMid(a: XY, b: XY): (r: XY)
    ensures (a.x + b.x) / 2.0 - 0.5 < r.x <= (a.x + b.x) / 2.0 + 0.5
    ensures (a.y + b.y) / 2.0 - 0.5 < r.y <= (a.y + b.y) / 2.0 + 0.5
  {
    XY(Round((a.x + b.x) / 2.0) as real, Round((a.y + b.y) / 2.0) as real)
  }

  /** `{ type: 'ruler', start, end, cloudPos, data }` handed to `onUpdateDrawing` with id `ruler-<now>`. */
  datatype RulerUpdate = RulerUpdate(id: string, start: XY, end: XY, cloudPos: XY, data: Option<RulerStats>)

  /** Where the ruler is in its cycle. */
  datatype RulerPhase = Idle | Measuring | Finalized

  function NextPhase(p: RulerPhase): RulerPhase
  {
    match p
    case Idle => Measuring
    case Measuring => Finalized
    case Finalized => Idle
  }

  /** The ruler state of the layer (ChartDrawingLayer.tsx:56-66) bound to the drawing store. */
  class Ruler {
    const store: DrawingStore
    const priceData: Option<seq<PriceBar>>
    const timeframe: Option<string>
    var start: Option<XY>
    var current: Option<XY>
    var isDrawing: bool
    var rulerData: Option<(XY, XY)>
    var cloudVisible: bool
    var cloudPos: Option<XY>

    /** A ruler being drawn has a start and no finished segment. */
    predicate Valid()
      reads this
    {
      isDrawing ==> start.Some? && current.Some? && rulerData.None?
    }

    function Phase(): RulerPhase
      reads this
    {
      if isDrawing then Measuring else if rulerData.Some? then Finalized else Idle
    }

    constructor(store: DrawingStore, priceData: Option<seq<PriceBar>>, timeframe: Option<string>)
      ensures this.store == store && this.priceData == priceData && this.timeframe == timeframe
      ensures Valid() && Phase() == Idle && !cloudVisible && cloudPos.None?
    {
      this.store := store;
      this.priceData := priceData;
      this.timeframe := timeframe;
      start := None;
      current := None;
      isDrawing := false;
      rulerData := None;
      cloudVisible := false;
      cloudPos := None;
    }

    /** `clearRuler` (ChartDrawingLayer.tsx:165-177). */
    method Clear()
      modifies this, store
      ensures Valid() && Phase() == Idle && start.None? && current.None? && !cloudVisible && cloudPos.None?
      ensures store.State() == old(store.State()).(activeTool := Some("cursor-cross"))
    {
      rulerData := None;
      start := None;
      current := None;
      isDrawing := false;
      cloudVisible := false;
      cloudPos := None;
      store.SetActiveTool(Some("cursor-cross"));
    }

    /**
     * A mousedown while the ruler tool is active (ChartDrawingLayer.tsx:447-513):
     * the first click starts a measurement, the second fixes it and reports
     * it when a callback is attached, the third clears it. `converted` holds
     * the two points in chart coordinates when a chart and a series exist.
     */
    method MouseDown(p: XY, now: nat, hasCallback: bool, converted: Option<(ChartPoint, ChartPoint)>)
      returns (update: Option<RulerUpdate>)
      requires Valid()
      modifies this, store
      ensures Valid() && Phase() == NextPhase(old(Phase()))
      ensures old(Phase()) == Idle ==> start == Some(p) && current == Some(p) && cloudVisible && cloudPos == Some(p)
      ensures old(Phase()) == Measuring ==>
                start == old(start) && current == Some(p) && rulerData == Some((old(start).value, p))
                && cloudVisible && cloudPos == Some(RoundedMid(old(start).value, p))
      ensures old(Phase()) == Measuring && hasCallback ==>
                update == Some(RulerUpdate("ruler-" + NatToString(now), old(start).value, p,
                                           RoundedMid(old(start).value, p),
                                           if converted.Some? then Some(RulerStatsOf(converted.value.0, converted.value.1, priceData, timeframe))
                                           else None))
      ensures old(Phase()) != Measuring || !hasCallback ==> update.None?
      ensures old(Phase()) == Finalized ==> start.None? && !cloudVisible && cloudPos.None?
      ensures old(Phase()) == Finalized ==> store.State() == old(store.State()).(activeTool := Some("cursor-cross"))
      ensures old(Phase()) != Finalized ==> store.State() == old(store.State())
    {
      update := None;
      if !isDrawing && rulerData.None? {
        start := Some(p);
        current := Some(p);
        isDrawing := true;
        cloudVisible := true;
        cloudPos := Some(p);
      } else if isDrawing {
        var s := start.value;
        current := Some(p);
        isDrawing := false;
        rulerData := Some((s, p));
        var mid := RoundedMid(s, p);
        cloudPos := Some(mid);
        cloudVisible := true;
        if hasCallback {
          var data := if converted.Some? then Some(RulerStatsOf(converted.value.0, converted.value.1, priceData, timeframe))
                      else None;
          update := Some(RulerUpdate("ruler-" + NatToString(now), s, p, mid, data));
        }
      } else {
        Clear();
      }
    }

    /**
     * While measuring with the ruler tool active (`rulerActive`), the pointer
     * moves the end and the cloud; the start stays (ChartDrawingLayer.tsx:536-546).
     */
    method MouseMove(p: XY, rulerActive: bool)
      requires Valid()
      modifies this
      ensures Valid() && Phase() == old(Phase()) && start == old(start) && rulerData == old(rulerData)
      ensures rulerActive && old(isDrawing) ==> current == Some(p) && cloudPos == Some(RoundedMid(start.value, p))
      ensures !(rulerActive && old(isDrawing)) ==> current == old(current) && cloudPos == old(cloudPos)
    {
      if rulerActive && isDrawing && start.Some? {
        current := Some(p);
        cloudPos := Some(RoundedMid(start.value, p));
      }
    }
  }

  /** Three clicks bring the ruler back to where it started. */
  lemma ThreeClicksCycle(p: RulerPhase)
    ensures NextPhase(NextPhase(NextPhase(p))) == p
    ensures NextPhase(p) != p
  {
  }

  /** `{ x: Math.max(0, nx), y: Math.max(0, ny) }`, the dragged cloud (ChartDrawingLayer.tsx:529-531). */
  function CloudDragged(nx: real, ny: real): (r: XY)
    ensures r.x >= 0.0 && r.y >= 0.0
    ensures nx >= 0.0 ==> r.x == nx
    ensures ny >= 0.0 ==> r.y == ny
  {
    XY(MaxReal(0.0, nx), MaxReal(0.0, ny))
  }
}
