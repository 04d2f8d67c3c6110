/**
 * The pointer and keyboard state machine of src/hooks/useAdvancedDrawing.ts.
 * The hook keeps a start point for click-click tools, a point list for
 * freehand drawing and a preview; everything else lives in the drawing
 * store. Each handler is specified by a step function over the hook's state
 * and the store's state, and the class `AdvancedDrawing` performs the step
 * in place. Whether a chart and a series are attached is the parameter
 * `ready`, the chart point under the pointer (`coordinateToPoint`) is the
 * parameter `point`, and `Date.now()` is `now`.
 */
module AdvancedDrawing {
  import opened Wrappers
  import opened Strings
  import opened ChartMath
  import opened DrawingPrimitives
  import opened Drawings

  /** `previewDrawing`: nothing, a freehand stroke, or a segment with its measurements. */
  datatype Preview = NoPreview
                   | FreehandPreview(points: seq<Point>)
                   | SegmentPreview(start: Point, end: Point, measurements: Option<Measurements>)

  /** The hook's own state: `startPointRef`, `drawPointsRef` and `previewDrawing`. */
  datatype HookState = HookState(start: Option<Point>, drawPoints: Option<seq<Point>>, preview: Preview)

  const Idle := HookState(None, None, NoPreview)

  /** The tools for which the hook keeps its transient state (useAdvancedDrawing.ts:113). */
  const DrawingTools: set<string> :=
    {"trendline", "horizontal", "vertical", "ruler", "fibonacci", "rectangle", "circle", "text", "draw"}

  /** The tools whose second click creates a drawing (useAdvancedDrawing.ts:71-99). */
  const TwoClickTools: set<string> :=
    {"trendline", "horizontal", "vertical", "ruler", "fibonacci", "rectangle", "circle", "text"}

  /** No tool, the empty tool, a `cursor*` tool or the ruler: mousedown is ignored (useAdvancedDrawing.ts:32-37). */
  predicate IgnoresPointer(tool: Option<string>)
  {
    tool.None? || tool.value == "" || StartsWith(tool.value, "cursor") || tool.value == "ruler"
  }

  /** The tool of the second-click switch (useAdvancedDrawing.ts:71-99) a tool name selects, if any. */
  function SecondClickKind(tool: string): (k: Option<Tool>)
    ensures k.Some? <==> tool in TwoClickTools
    ensures k.Some? ==> ToolName(k.value) == tool && k.value != Draw
  {
    if tool == "trendline" then Some(Trendline)
    else if tool == "horizontal" then Some(Horizontal)
    else if tool == "vertical" then Some(Vertical)
    else if tool == "ruler" then Some(Ruler)
    else if tool == "fibonacci" then Some(Fibonacci)
    else if tool == "rectangle" then Some(Rectangle)
    else if tool == "circle" then Some(Circle)
    else if tool == "text" then Some(Text)
    else None
  }

  /** The drawing of a tool of the switch, built by its constructor. */
  function KindDrawing(k: Tool, start: Point, end: Point, now: nat): (d: Drawing)
    ensures k != Select && k != Draw && k != Eraser ==> NewDrawing(d, k, now)
    ensures d.points == if k == Horizontal || k == Vertical then [start]
                        else if k == Text then [end]
                        else [start, end]
  {
    match k
    case Trendline => CreateTrendLine(start, end, map[], now)
    case Horizontal => CreateHorizontalLine(start, map[], now)
    case Vertical => CreateVertical(start, Some(end), map[], now)
    case Ruler => CreateRuler(start, end, map[], now)
    case Fibonacci => CreateFibonacci(start, end, map[], now)
    case Rectangle => CreateRectangle(start, end, map[], now)
    case Circle => CreateCircle(start, end, map[], now)
    case Text => CreateText(end, None, map[], now)
    case _ => Drawing("", k, [start, end], map[], false, false)
  }

  /**
   * The drawing the second click builds from the start point and the end
   * point (useAdvancedDrawing.ts:70-99); `None` for a tool the switch does
   * not list.
   */
  function SecondClickDrawing(tool: string, start: Point, end: Point, now: nat): (r: Option<Drawing>)
    ensures r.Some? <==> tool in TwoClickTools
    ensures r.Some? ==> ToolName(r.value.kind) == tool && NewDrawing(r.value, r.value.kind, now)
    ensures r.Some? ==> r.value.points == if tool == "horizontal" || tool == "vertical" then [start]
                                         else if tool == "text" then [end]
                                         else [start, end]
  {
    match SecondClickKind(tool)
    case None => None
    case Some(k) => Some(KindDrawing(k, start, end, now))
  }

  /** `setDragState({ isDragging: b })` */
  function Dragging(s: StoreState, b: bool): StoreState
  {
    s.(dragState := MergedDrag(s.dragState, DraggingPatch(b)))
  }

  /** `addDrawing(d)` */
  function Added(s: StoreState, d: Drawing): StoreState
  {
    s.(drawings := s.drawings + [d], activeTool := None)
  }

  /** The drawings after a step: those before, and at most one more at the end. */
  predicate AppendsAtMostOne(before: seq<Drawing>, after: seq<Drawing>)
  {
    |before| <= |after| <= |before| + 1 && after[..|before|] == before
  }

  /**
   * `handleMouseDown` (useAdvancedDrawing.ts:31-109). A press never removes
   * a drawing and adds at most one, and adding one deselects the tool and
   * forgets the start point; selection and click counts are not touched.
   */
  function MouseDownStep(ready: bool, h: HookState, s: StoreState, point: Point, now: nat): (r: (HookState, StoreState))
    ensures AppendsAtMostOne(s.drawings, r.1.drawings)
    ensures r.1.drawings != s.drawings ==> r.1.activeTool.None? && r.0.start.None? && !r.1.dragState.isDragging
    ensures r.1.selectedDrawingId == s.selectedDrawingId && r.1.clickCounts == s.clickCounts
  {
    var tool := s.activeTool;
    if !ready || IgnoresPointer(tool) then (h, s)
    else if tool.value == "draw" then
      (h.(drawPoints := Some([point]), preview := FreehandPreview([point])), Dragging(s, true))
    else if tool.value == "eraser" || tool.value == "select" then (h, s)
    else if h.start.None? then
      (h.(start := Some(point), preview := NoPreview), Dragging(s, true))
    else
      var made := SecondClickDrawing(tool.value, h.start.value, point, now);
      var s1 := if made.Some? then Added(s, made.value) else s;
      (h.(start := None, preview := NoPreview), Dragging(s1, false))
  }

  /** Consecutive freehand points lie more than two pixels apart (Manhattan distance). */
  predicate Spaced(pts: seq<Point>)
  {
    forall i :: 0 < i < |pts| ==> Abs(pts[i - 1].x - pts[i].x) + Abs(pts[i - 1].y - pts[i].y) > 2.0
  }

  /**
   * `handleMouseMove` (useAdvancedDrawing.ts:123-166); the store is only
   * read. Moving never changes the start point, and never starts a stroke.
   */
  function MouseMoveStep(ready: bool, tool: Option<string>, h: HookState, point: Point): (r: HookState)
    ensures r.start == h.start
    ensures h.drawPoints.None? ==> r.drawPoints.None?
    ensures tool != Some("draw") ==> r.drawPoints == h.drawPoints
  {
    if !ready || tool == Some("ruler") then h
    else if tool == Some("draw") && h.drawPoints.Some? && |h.drawPoints.value| > 0 then
      var pts := h.drawPoints.value;
      var last := pts[|pts| - 1];
      var next := if Abs(last.x - point.x) + Abs(last.y - point.y) > 2.0 then pts + [point] else pts;
      h.(drawPoints := Some(next), preview := FreehandPreview(next))
    else if h.start.None? then h
    else
      var from := h.start.value;
      var m := if tool == Some("ruler") then Some(CalculateMeasurements(from, point, None)) else None;
      h.(preview := SegmentPreview(from, point, m))
  }

  /**
   * `handleMouseUp` (useAdvancedDrawing.ts:168-188): only a freehand stroke
   * in progress is finished, as one more drawing; the start point of a
   * click-click tool survives the release.
   */
  function MouseUpStep(h: HookState, s: StoreState, now: nat): (r: (HookState, StoreState))
    ensures AppendsAtMostOne(s.drawings, r.1.drawings)
    ensures r.0.start == h.start
    ensures s.activeTool != Some("draw") ==> r == (h, s)
  {
    if s.activeTool == Some("draw") && h.drawPoints.Some? && |h.drawPoints.value| > 0 then
      (h.(drawPoints := None, preview := NoPreview),
       Dragging(Added(s, CreateDraw(h.drawPoints.value, map[], now)), false))
    else (h, s)
  }

  /**
   * The effect that runs when the active tool changes (useAdvancedDrawing.ts:112-121):
   * leaving the drawing tools resets the hook and ends any drag; the
   * drawings and the tool are kept.
   */
  function ToolChangeStep(h: HookState, s: StoreState): (r: (HookState, StoreState))
    ensures r.1.drawings == s.drawings && r.1.activeTool == s.activeTool
    ensures s.activeTool.None? || s.activeTool.value !in DrawingTools ==> r.0 == Idle && !r.1.dragState.isDragging
    ensures s.activeTool.Some? && s.activeTool.value in DrawingTools ==> r == (h, s)
  {
    if s.activeTool.None? || s.activeTool.value !in DrawingTools then (Idle, Dragging(s, false))
    else (h, s)
  }

  /**
   * `handleKeyDown` (useAdvancedDrawing.ts:190-206): keys never change the
   * drawings or a freehand stroke; Escape drops the tool, the start point
   * and the drag.
   */
  function KeyDownStep(alt: bool, key: string, h: HookState, s: StoreState): (r: (HookState, StoreState))
    ensures r.1.drawings == s.drawings && r.0.drawPoints == h.drawPoints
    ensures key == "Escape" ==> r.1.activeTool.None? && r.0.start.None? && !r.1.dragState.isDragging
    ensures !alt && key != "Escape" ==> r == (h, s)
  {
    if alt && key == "t" then (h, s.(activeTool := Some("trendline")))
    else if alt && key == "h" then (h, s.(activeTool := Some("horizontal")))
    else if alt && key == "f" then (h, s.(activeTool := Some("fibonacci")))
    else if key == "Escape" then (h.(start := None), Dragging(s.(activeTool := None), false))
    else (h, s)
  }

  /** `removeDrawing(id); resetClickCount(id)` */
  function Erased(s: StoreState, id: string): StoreState
  {
    s.(drawings := Removed(s.drawings, id), clickCounts := s.clickCounts[id := 0])
  }

  /**
   * `handleDrawingClick` (useAdvancedDrawing.ts:209-226); the two-second
   * reset timer is not part of it. A click either selects the drawing,
   * removes it or leaves the drawings as they were; the tool and the drag
   * are kept.
   */
  function DrawingClickStep(s: StoreState, id: string): (r: StoreState)
    ensures r.drawings == s.drawings || r.drawings == Selected(s.drawings, id) || r.drawings == Removed(s.drawings, id)
    ensures r.activeTool == s.activeTool && r.dragState == s.dragState
    ensures s.activeTool != Some("eraser") ==> ClickCount(r.clickCounts, id) == 0 || ClickCount(r.clickCounts, id) == ClickCount(s.clickCounts, id) + 1
  {
    if s.activeTool == Some("eraser") then Erased(s, id)
    else
      var count := ClickCount(s.clickCounts, id) + 1;
      var s1 := s.(clickCounts := Incremented(s.clickCounts, id));
      if count == 1 then s1.(drawings := Selected(s1.drawings, id), selectedDrawingId := Some(id))
      else if count >= 3 then Erased(s1, id)
      else s1
  }

  /** The hook bound to a store. */
  class AdvancedDrawing {
    const store: DrawingStore
    var start: Option<Point>
    var drawPoints: Option<seq<Point>>
    var preview: Preview

    function Hook(): HookState
      reads this
    {
      HookState(start, drawPoints, preview)
    }

    constructor(store: DrawingStore)
      ensures this.store == store && Hook() == Idle
    {
      this.store := store;
      start := None;
      drawPoints := None;
      preview := NoPreview;
    }

    method MouseDown(ready: bool, point: Point, now: nat)
      modifies this, store
      ensures (Hook(), store.State()) == MouseDownStep(ready, old(Hook()), old(store.State()), point, now)
    {
      var tool := store.activeTool;
      if !ready || IgnoresPointer(tool) {
        return;
      }
      if tool.value == "draw" {
        drawPoints := Some([point]);
        store.SetDragState(DraggingPatch(true));
        preview := FreehandPreview([point]);
        return;
      }
      if tool.value == "eraser" || tool.value == "select" {
        return;
      }
      if start.None? {
        start := Some(point);
        store.SetDragState(DraggingPatch(true));
        preview := NoPreview;
        return;
      }
      var made := SecondClickDrawing(tool.value, start.value, point, now);
      if made.Some? {
        store.AddDrawing(made.value);
      }
      start := None;
      preview := NoPreview;
      store.SetDragState(DraggingPatch(false));
    }

    method MouseMove(ready: bool, point: Point)
      modifies this
      ensures Hook() == MouseMoveStep(ready, store.activeTool, old(Hook()), point)
    {
      if !ready {
        return;
      }
      var tool := store.activeTool;
      if tool == Some("ruler") {
        return;
      }
      if tool == Some("draw") && drawPoints.Some? && |drawPoints.value| > 0 {
        var pts := drawPoints.value;
        var last := pts[|pts| - 1];
        if Abs(last.x - point.x) + Abs(last.y - point.y) > 2.0 {
          pts := pts + [point];
        }
        drawPoints := Some(pts);
        preview := FreehandPreview(pts);
        return;
      }
      if start.None? {
        return;
      }
      var from := start.value;
      var m: Option<Measurements> := None;
      if tool == Some("ruler") {
        m := Some(CalculateMeasurements(from, point, None));
      }
      preview := SegmentPreview(from, point, m);
    }

    method MouseUp(now: nat)
      modifies this, store
      ensures (Hook(), store.State()) == MouseUpStep(old(Hook()), old(store.State()), now)
    {
      if store.activeTool == Some("draw") && drawPoints.Some? && |drawPoints.value| > 0 {
        store.AddDrawing(CreateDraw(drawPoints.value, map[], now));
        drawPoints := None;
        preview := NoPreview;
        store.SetDragState(DraggingPatch(false));
      }
    }

    method ToolChanged()
      modifies this, store
      ensures (Hook(), store.State()) == ToolChangeStep(old(Hook()), old(store.State()))
    {
      if store.activeTool.None? || store.activeTool.value !in DrawingTools {
        start := None;
        drawPoints := None;
        preview := NoPreview;
        store.SetDragState(DraggingPatch(false));
      }
    }

    method KeyDown(alt: bool, key: string)
      modifies this, store
      ensures (Hook(), store.State()) == KeyDownStep(alt, key, old(Hook()), old(store.State()))
    {
      if alt && key == "t" {
        store.SetActiveTool(Some("trendline"));
      } else if alt && key == "h" {
        store.SetActiveTool(Some("horizontal"));
      } else if alt && key == "f" {
        store.SetActiveTool(Some("fibonacci"));
      } else if key == "Escape" {
        store.SetActiveTool(None);
        store.SetDragState(DraggingPatch(false));
        start := None;
      }
    }

    method DrawingClick(id: string)
      modifies store
      ensures store.State() == DrawingClickStep(old(store.State()), id)
    {
      if store.activeTool == Some("eraser") {
        store.RemoveDrawing(id);
        store.ResetClickCount(id);
        return;
      }
      var count := store.IncrementClickCount(id);
      if count == 1 {
        store.SelectDrawing(id);
      } else if count >= 3 {
        store.RemoveDrawing(id);
        store.ResetClickCount(id);
      }
    }
  }

  /** A name shorter than six characters, or whose second character is not `u`, is not a `cursor*` tool. */
  lemma NotCursor(t: string)
    requires |t| < 6 || t[1] != 'u'
    ensures !StartsWith(t, "cursor")
  {
    if |t| >= 6 {
      assert t[..6][1] == t[1];
    }
  }

  /** Without a chart, or with a tool the hook ignores, mousedown changes nothing. */
  lemma IgnoredMouseDown(ready: bool, h: HookState, s: StoreState, point: Point, now: nat)
    requires !ready || IgnoresPointer(s.activeTool) || s.activeTool == Some("eraser") || s.activeTool == Some("select")
    ensures MouseDownStep(ready, h, s, point, now) == (h, s)
  {
  }

  /**
   * The click-click protocol: the first mousedown only records the start
   * point; the second adds exactly the drawing the switch builds from the
   * two points, deselects the tool and clears the start point.
   */
  lemma TwoClicks(h: HookState, s: StoreState, p1: Point, p2: Point, now1: nat, now2: nat)
    requires s.activeTool.Some? && s.activeTool.value in TwoClickTools && s.activeTool != Some("ruler")
    requires h.start.None?
    ensures var (h1, s1) := MouseDownStep(true, h, s, p1, now1);
            h1.start == Some(p1) && s1.drawings == s.drawings && s1.activeTool == s.activeTool
            && s1.dragState.isDragging
            && var (h2, s2) := MouseDownStep(true, h1, s1, p2, now2);
               h2.start.None? && s2.activeTool.None? && !s2.dragState.isDragging
               && s2.drawings == s.drawings + [SecondClickDrawing(s.activeTool.value, p1, p2, now2).value]
  {
    NotCursor(s.activeTool.value);
  }

  /**
   * Any tool the hook does not ignore, that is not `draw`, `eraser` or
   * `select` and that the second-click switch does not list (`brush`, say)
   * still takes two clicks, but adds nothing and stays selected.
   */
  lemma UnlistedToolAddsNothing(h: HookState, s: StoreState, p1: Point, p2: Point, now1: nat, now2: nat)
    requires !IgnoresPointer(s.activeTool) && s.activeTool.value !in TwoClickTools
    requires s.activeTool.value !in {"draw", "eraser", "select"} && h.start.None?
    ensures var (h1, s1) := MouseDownStep(true, h, s, p1, now1);
            var (h2, s2) := MouseDownStep(true, h1, s1, p2, now2);
            h1.start == Some(p1) && h2.start.None? && s2.drawings == s.drawings && s2.activeTool == s.activeTool
            && !s2.dragState.isDragging
  {
    var (h1, s1) := MouseDownStep(true, h, s, p1, now1);
    assert s1.activeTool == s.activeTool && h1.start == Some(p1);
    assert SecondClickDrawing(s.activeTool.value, p1, p2, now2).None?;
  }

  /** The freehand list never loses its first point and stays spaced as it grows. */
  lemma MouseMoveKeepsSpaced(ready: bool, tool: Option<string>, h: HookState, point: Point)
    requires h.drawPoints.Some? && |h.drawPoints.value| > 0 && Spaced(h.drawPoints.value)
    ensures var h1 := MouseMoveStep(ready, tool, h, point);
            h1.drawPoints.Some? && Spaced(h1.drawPoints.value)
            && |h.drawPoints.value| <= |h1.drawPoints.value| <= |h.drawPoints.value| + 1
            && h1.drawPoints.value[..|h.drawPoints.value|] == h.drawPoints.value
  {
    var pts := h.drawPoints.value;
    var h1 := MouseMoveStep(ready, tool, h, point);
    if ready && tool == Some("draw") {
      var next := h1.drawPoints.value;
      if |next| > |pts| {
        assert next == pts + [point];
        forall i | 0 < i < |next|
          ensures Abs(next[i - 1].x - next[i].x) + Abs(next[i - 1].y - next[i].y) > 2.0
        {
          if i < |pts| {
            assert next[i - 1] == pts[i - 1] && next[i] == pts[i];
          }
        }
      }
    }
  }

  /** A freehand stroke started by mousedown is a single point, which is spaced. */
  lemma FreehandStart(h: HookState, s: StoreState, point: Point, now: nat)
    requires s.activeTool == Some("draw")
    ensures var (h1, s1) := MouseDownStep(true, h, s, point, now);
            h1.drawPoints == Some([point]) && Spaced([point]) && s1.dragState.isDragging
            && s1.drawings == s.drawings
  {
    NotCursor("draw");
  }

  /** Mouseup ends a freehand stroke by adding one `draw` drawing with exactly the stroke's points. */
  lemma FreehandFinish(h: HookState, s: StoreState, now: nat)
    requires s.activeTool == Some("draw") && h.drawPoints.Some? && |h.drawPoints.value| > 0
    ensures var (h1, s1) := MouseUpStep(h, s, now);
            h1.drawPoints.None? && |s1.drawings| == |s.drawings| + 1
            && s1.drawings[..|s.drawings|] == s.drawings
            && s1.drawings[|s.drawings|].kind == Draw && s1.drawings[|s.drawings|].points == h.drawPoints.value
            && !s1.dragState.isDragging
  {
    var (h1, s1) := MouseUpStep(h, s, now);
    assert s1.drawings == s.drawings + [CreateDraw(h.drawPoints.value, map[], now)];
  }

  /** Escape followed by the tool-change effect leaves no transient state behind. */
  lemma EscapeClearsEverything(h: HookState, s: StoreState)
    ensures var (h1, s1) := KeyDownStep(false, "Escape", h, s);
            var (h2, s2) := ToolChangeStep(h1, s1);
            h1.start.None? && h2 == Idle && s2.activeTool.None? && !s2.dragState.isDragging
            && s2.drawings == s.drawings
  {
  }

  /** Alt+t, Alt+h and Alt+f select a drawing tool and touch nothing else. */
  lemma ShortcutsSelectTools(h: HookState, s: StoreState)
    ensures KeyDownStep(true, "t", h, s) == (h, s.(activeTool := Some("trendline")))
    ensures KeyDownStep(true, "h", h, s) == (h, s.(activeTool := Some("horizontal")))
    ensures KeyDownStep(true, "f", h, s) == (h, s.(activeTool := Some("fibonacci")))
  {
  }

  /** With the eraser, one click on a drawing removes it and resets its counter. */
  lemma EraserRemoves(s: StoreState, id: string)
    requires s.activeTool == Some("eraser")
    ensures var s1 := DrawingClickStep(s, id);
            (forall d :: d in s1.drawings <==> d in s.drawings && d.id != id)
            && ClickCount(s1.clickCounts, id) == 0
  {
  }

  /**
   * Without the eraser, three quick clicks on a drawing first select it and
   * then delete it: the drawings with that id are gone, its counter is back
   * to 0, and the rest are the selection-cleared list in their old order.
   */
  lemma ThreeClicksDelete(s: StoreState, id: string)
    requires s.activeTool != Some("eraser") && ClickCount(s.clickCounts, id) == 0
    ensures var s1 := DrawingClickStep(s, id);
            s1.selectedDrawingId == Some(id)
            && (forall i :: 0 <= i < |s1.drawings| ==> (s1.drawings[i].selected <==> s1.drawings[i].id == id))
    ensures var s3 := DrawingClickStep(DrawingClickStep(DrawingClickStep(s, id), id), id);
            s3.drawings == Removed(Selected(s.drawings, id), id)
            && (forall d :: d in s3.drawings ==> d.id != id)
            && ClickCount(s3.clickCounts, id) == 0
  {
    var s1 := DrawingClickStep(s, id);
    assert ClickCount(s1.clickCounts, id) == 1;
    var s2 := DrawingClickStep(s1, id);
    assert ClickCount(s2.clickCounts, id) == 2;
    assert s2.drawings == s1.drawings;
  }
}
