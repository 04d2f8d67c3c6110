/**
 * The drawing records of the chart (src/store/drawingStore.ts:5-36) and the
 * constructors and ruler measurements of src/utils/drawingPrimitives.ts.
 * `Date.now()` is the parameter `now`; options are a map from option name
 * to value, and `{ ...a, ...b }` is `Spread(a, b)`.
 */
module DrawingPrimitives {
  import opened Wrappers
  import opened Strings
  import opened ChartMath

  /** A chart point: bar time in seconds, price, and pixel coordinates. */
  datatype Point = Point(time: real, price: real, x: real, y: real)

  /** The values of the `type` field of a drawing. */
  datatype Tool = Select | Trendline | Horizontal | Vertical | Ruler | Rectangle
                | Circle | Fibonacci | Text | Draw | Eraser

  function ToolName(t: Tool): string
  {
    match t
    case Select => "select"
    case Trendline => "trendline"
    case Horizontal => "horizontal"
    case Vertical => "vertical"
    case Ruler => "ruler"
    case Rectangle => "rectangle"
    case Circle => "circle"
    case Fibonacci => "fibonacci"
    case Text => "text"
    case Draw => "draw"
    case Eraser => "eraser"
  }

  /** The tool a tool-name string denotes, if any. */
  function ToolOf(name: string): (r: Option<Tool>)
    ensures r.Some? ==> ToolName(r.value) == name
  {
    if name == "select" then Some(Select)
    else if name == "trendline" then Some(Trendline)
    else if name == "horizontal" then Some(Horizontal)
    else if name == "vertical" then Some(Vertical)
    else if name == "ruler" then Some(Ruler)
    else if name == "rectangle" then Some(Rectangle)
    else if name == "circle" then Some(Circle)
    else if name == "fibonacci" then Some(Fibonacci)
    else if name == "text" then Some(Text)
    else if name == "draw" then Some(Draw)
    else if name == "eraser" then Some(Eraser)
    else None
  }

  /** Every tool name is recognised as the tool it names. */
  lemma ToolOfName(t: Tool)
    ensures ToolOf(ToolName(t)) == Some(t)
  {
  }

  /** No tool name contains a `-`, so the first `-` of an id ends the tool name. */
  lemma ToolNameHasNoDash(t: Tool)
    ensures forall i :: 0 <= i < |ToolName(t)| ==> ToolName(t)[i] != '-'
  {
  }

  /** An option value: a string, a number, a flag, a list of levels, or a line style code. */
  datatype OptVal = StrOpt(s: string) | NumOpt(n: real) | BoolOpt(b: bool)
                  | LevelsOpt(levels: seq<real>) | StyleOpt(style: int)

  type Options = map<string, OptVal>

  /** `LineStyle.Solid` of the charting library. */
  const SolidLine := 0

  /** `DEFAULT_OPTIONS` (drawingPrimitives.ts:4-13). */
  const DefaultOptions: Options := map[
    "color" := StrOpt("#3b82f6"),
    "lineWidth" := NumOpt(2.0),
    "lineStyle" := StyleOpt(SolidLine),
    "draggable" := BoolOpt(true),
    "snapToPrice" := BoolOpt(true),
    "showPercent" := BoolOpt(true),
    "showBars" := BoolOpt(true),
    "showVolume" := BoolOpt(true)]

  /** `{ ...base, ...over }`: every key of either, the later object winning. */
  function Spread(base: Options, over: Options): (r: Options)
    ensures forall k :: k in r <==> k in base || k in over
    ensures forall k :: k in over ==> r[k] == over[k]
    ensures forall k :: k in base && k !in over ==> r[k] == base[k]
  {
    base + over
  }

  const RulerOverrides: Options := map[
    "color" := StrOpt("#22c55e"),
    "showPercent" := BoolOpt(true),
    "showBars" := BoolOpt(true),
    "showVolume" := BoolOpt(true)]

  const FibonacciLevels: seq<real> := [0.0, 0.236, 0.382, 0.5, 0.618, 0.786, 1.0]

  const FibonacciOverrides: Options := map[
    "color" := StrOpt("#f59e0b"),
    "levels" := LevelsOpt(FibonacciLevels)]

  /** The overrides shared by rectangles and circles. */
  const ShapeOverrides: Options := map[
    "fillColor" := StrOpt("rgba(59, 130, 246, 0.1)"),
    "borderColor" := StrOpt("#3b82f6")]

  function TextOverrides(text: string): Options
  {
    map["color" := StrOpt("#ffffff"), "text" := StrOpt(text)]
  }

  const DrawOverrides: Options := map["lineWidth" := NumOpt(2.0), "color" := StrOpt("#3b82f6")]

  /**
   * The options of a new drawing: the defaults, then the tool's overrides,
   * then the caller's options, each key taken from the last layer that has it.
   */
  ghost predicate Layered(o: Options, overrides: Options, custom: Options)
  {
    (forall k :: k in o <==> k in DefaultOptions || k in overrides || k in custom)
    && (forall k :: k in custom ==> k in o && o[k] == custom[k])
    && (forall k :: k !in custom && k in overrides ==> k in o && o[k] == overrides[k])
    && (forall k :: k !in custom && k !in overrides && k in DefaultOptions ==> k in o && o[k] == DefaultOptions[k])
  }

  /** A drawing record (drawingStore.ts:29-36). */
  datatype Drawing = Drawing(id: string, kind: Tool, points: seq<Point>, options: Options,
                             visible: bool, selected: bool)

  /** `` `${type}-${Date.now()}` `` */
  function DrawingId(kind: Tool, now: nat): (r: string)
    ensures StartsWith(r, ToolName(kind) + "-")
  {
    ToolName(kind) + "-" + NatToString(now)
  }

  /** Two ids are equal only when both the tool and the timestamp are. */
  lemma DrawingIdInjective(k1: Tool, n1: nat, k2: Tool, n2: nat)
    requires DrawingId(k1, n1) == DrawingId(k2, n2)
    ensures k1 == k2 && n1 == n2
  {
    var a, b := ToolName(k1), ToolName(k2);
    var id := DrawingId(k1, n1);
    ToolNameHasNoDash(k1);
    ToolNameHasNoDash(k2);
    assert id[|a|] == '-' && id[|b|] == '-';
    assert IndexOf(id, '-') == |a|;
    assert IndexOf(id, '-') == |b|;
    assert a == id[..|a|] == b;
    ToolOfName(k1);
    ToolOfName(k2);
    assert NatToString(n1) == id[|a| + 1..] == NatToString(n2);
    DigitsValueOfNatToString(n1);
    DigitsValueOfNatToString(n2);
  }

  /** What every constructor shares: its type, a fresh id, visible and not selected. */
  predicate NewDrawing(d: Drawing, kind: Tool, now: nat)
  {
    d.kind == kind && d.id == DrawingId(kind, now) && d.visible && !d.selected
  }

  function Create(kind: Tool, points: seq<Point>, overrides: Options, custom: Options, now: nat): (r: Drawing)
    ensures NewDrawing(r, kind, now) && r.points == points && Layered(r.options, overrides, custom)
  {
    Drawing(DrawingId(kind, now), kind, points, Spread(Spread(DefaultOptions, overrides), custom), true, false)
  }

  /** `createTrendLineDrawing` (drawingPrimitives.ts:15-28). */
  function CreateTrendLine(start: Point, end: Point, custom: Options, now: nat): (r: Drawing)
    ensures NewDrawing(r, Trendline, now) && r.points == [start, end] && Layered(r.options, map[], custom)
  {
    Create(Trendline, [start, end], map[], custom, now)
  }

  /** `createHorizontalLineDrawing` (drawingPrimitives.ts:30-42). */
  function CreateHorizontalLine(point: Point, custom: Options, now: nat): (r: Drawing)
    ensures NewDrawing(r, Horizontal, now) && r.points == [point] && Layered(r.options, map[], custom)
  {
    Create(Horizontal, [point], map[], custom, now)
  }

  /** `createVerticalDrawing` (drawingPrimitives.ts:44-58): the end point is accepted and ignored. */
  function CreateVertical(pointStart: Point, pointEnd: Option<Point>, custom: Options, now: nat): (r: Drawing)
    ensures NewDrawing(r, Vertical, now) && r.points == [pointStart] && Layered(r.options, map[], custom)
  {
    Create(Vertical, [pointStart], map[], custom, now)
  }

  /** `createRulerDrawing` (drawingPrimitives.ts:60-80). */
  function CreateRuler(start: Point, end: Point, custom: Options, now: nat): (r: Drawing)
    ensures NewDrawing(r, Ruler, now) && r.points == [start, end] && Layered(r.options, RulerOverrides, custom)
  {
    Create(Ruler, [start, end], RulerOverrides, custom, now)
  }

  /** `createFibonacciDrawing` (drawingPrimitives.ts:82-100). */
  function CreateFibonacci(start: Point, end: Point, custom: Options, now: nat): (r: Drawing)
    ensures NewDrawing(r, Fibonacci, now) && r.points == [start, end] && Layered(r.options, FibonacciOverrides, custom)
  {
    Create(Fibonacci, [start, end], FibonacciOverrides, custom, now)
  }

  /** `createRectangleDrawing` (drawingPrimitives.ts:102-120). */
  function CreateRectangle(start: Point, end: Point, custom: Options, now: nat): (r: Drawing)
    ensures NewDrawing(r, Rectangle, now) && r.points == [start, end] && Layered(r.options, ShapeOverrides, custom)
  {
    Create(Rectangle, [start, end], ShapeOverrides, custom, now)
  }

  /** `createCircleDrawing` (drawingPrimitives.ts:122-140). */
  function CreateCircle(center: Point, edge: Point, custom: Options, now: nat): (r: Drawing)
    ensures NewDrawing(r, Circle, now) && r.points == [center, edge] && Layered(r.options, ShapeOverrides, custom)
  {
    Create(Circle, [center, edge], ShapeOverrides, custom, now)
  }

  /** `createTextDrawing` (drawingPrimitives.ts:142-160); a missing text argument is `'New Note'`. */
  function CreateText(point: Point, text: Option<string>, custom: Options, now: nat): (r: Drawing)
    ensures NewDrawing(r, Text, now) && r.points == [point]
    ensures Layered(r.options, TextOverrides(text.UnwrapOr("New Note")), custom)
  {
    Create(Text, [point], TextOverrides(text.UnwrapOr("New Note")), custom, now)
  }

  /** `createDrawDrawing` (drawingPrimitives.ts:162-179): the freehand points are kept as given. */
  function CreateDraw(points: seq<Point>, custom: Options, now: nat): (r: Drawing)
    ensures NewDrawing(r, Draw, now) && r.points == points && Layered(r.options, DrawOverrides, custom)
  {
    Create(Draw, points, DrawOverrides, custom, now)
  }

  /** Without caller options a Fibonacci drawing carries the ascending default levels, in its own colour. */
  lemma FibonacciDefaults(start: Point, end: Point, now: nat)
    ensures CreateFibonacci(start, end, map[], now).options["levels"] == LevelsOpt(FibonacciLevels)
    ensures CreateFibonacci(start, end, map[], now).options["color"] == StrOpt("#f59e0b")
    ensures forall i, j :: 0 <= i < j < |FibonacciLevels| ==> FibonacciLevels[i] < FibonacciLevels[j]
    ensures FibonacciLevels[0] == 0.0 && FibonacciLevels[|FibonacciLevels| - 1] == 1.0
  {
    var o := CreateFibonacci(start, end, map[], now).options;
    assert "levels" in FibonacciOverrides && "color" in FibonacciOverrides;
  }

  /** A text drawing created without a text says "New Note" in white. */
  lemma TextDefaults(point: Point, now: nat)
    ensures CreateText(point, None, map[], now).options["text"] == StrOpt("New Note")
    ensures CreateText(point, None, map[], now).options["color"] == StrOpt("#ffffff")
  {
    assert "text" in TextOverrides("New Note") && "color" in TextOverrides("New Note");
  }

  /** Caller options win over the tool's own: a ruler can be given any colour. */
  lemma CustomColourWins(start: Point, end: Point, colour: string, now: nat)
    ensures CreateRuler(start, end, map["color" := StrOpt(colour)], now).options["color"] == StrOpt(colour)
    ensures CreateRuler(start, end, map[], now).options["color"] == StrOpt("#22c55e")
  {
    assert "color" in RulerOverrides;
  }

  /** The measurements of `calculateMeasurements`; `percent` is `None` where JavaScript gives a non-finite number. */
  datatype Measurements = Measurements(price: real, percent: Option<real>, bars: int, time: real)

  /** `timeframeSeconds[timeframe] || 86400` (drawingPrimitives.ts:188-199): case-sensitive keys. */
  function SecondsPerBar(timeframe: string): (r: nat)
    ensures r > 0
    ensures r != 86400 ==> timeframe in {"1m", "5m", "15m", "30m", "1H", "4H", "1W"}
  {
    if timeframe == "1m" then 60
    else if timeframe == "5m" then 300
    else if timeframe == "15m" then 900
    else if timeframe == "30m" then 1800
    else if timeframe == "1H" then 3600
    else if timeframe == "4H" then 14400
    else if timeframe == "1D" then 86400
    else if timeframe == "1W" then 604800
    else 86400
  }

  /**
   * `calculateMeasurements` (drawingPrimitives.ts:182-207); a missing
   * timeframe is `'1D'`. The elapsed time is never negative and the bar
   * count is the nearest whole number of bars.
   */
  function CalculateMeasurements(start: Point, end: Point, timeframe: Option<string>): (r: Measurements)
    ensures r.price == end.price - start.price
    ensures r.time >= 0.0 && (r.time == end.time - start.time || r.time == start.time - end.time)
    ensures var spb := SecondsPerBar(timeframe.UnwrapOr("1D")) as real;
            r.bars >= 0 && (r.bars as real - 0.5) * spb <= r.time < (r.bars as real + 0.5) * spb
    ensures r.percent.Some? <==> start.price != 0.0
    ensures r.percent.Some? ==> r.percent.value * start.price == r.price * 100.0
  {
    var priceDiff := end.price - start.price;
    var timeDiff := Abs(end.time - start.time);
    var spb := SecondsPerBar(timeframe.UnwrapOr("1D")) as real;
    var bars := Round(timeDiff / spb);
    BarsBound(timeDiff, spb, bars);
    Measurements(priceDiff, if start.price == 0.0 then None else Some(priceDiff / start.price * 100.0), bars, timeDiff)
  }

  lemma BarsBound(t: real, spb: real, bars: int)
    requires t >= 0.0 && spb > 0.0 && t / spb - 0.5 < bars as real <= t / spb + 0.5
    ensures bars >= 0 && (bars as real - 0.5) * spb <= t < (bars as real + 0.5) * spb
  {
    var q := t / spb;
    assert q * spb == t;
    assert q >= 0.0;
    var below := bars as real - q + 0.5;
    var above := q + 0.5 - bars as real;
    assert below * spb > 0.0;
    assert above * spb >= 0.0;
    assert below * spb == bars as real * spb - t + 0.5 * spb;
    assert above * spb == t + 0.5 * spb - bars as real * spb;
  }

  /** Swapping the two points keeps time and bars and negates the price change. */
  lemma MeasurementsSymmetric(a: Point, b: Point, timeframe: Option<string>)
    ensures CalculateMeasurements(a, b, timeframe).time == CalculateMeasurements(b, a, timeframe).time
    ensures CalculateMeasurements(a, b, timeframe).bars == CalculateMeasurements(b, a, timeframe).bars
    ensures CalculateMeasurements(a, b, timeframe).price == -CalculateMeasurements(b, a, timeframe).price
  {
    assert Abs(b.time - a.time) == Abs(a.time - b.time);
  }

  /** Timeframe keys are case-sensitive: `1h` is not `1H` and counts daily bars. */
  lemma LowerCaseHourIsDaily()
    ensures SecondsPerBar("1h") == 86400 && SecondsPerBar("1H") == 3600
  {
  }
}
