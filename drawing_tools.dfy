/**
 * The older drawing hook of useDrawingTools.tsx: a local list of drawings, an
 * in-progress drawing built by start / update / finish, and a local active
 * tool kept in step with the drawing store. `Date.now()` is the parameter
 * `now`; the React effect that copies the store's tool is the method `Sync`.
 */
module DrawingTools {
  import opened Wrappers
  import opened Strings
  import opened ChartMath
  import opened Drawings

  /** A point of this hook: pixels plus an optional price and time. */
  datatype LPoint = LPoint(x: real, y: real, price: Option<real>, time: Option<real>)

  /** `measurements` of a finished ruler. */
  datatype RulerMeasures = RulerMeasures(price: real, percent: real, bars: int)

  /** The hook's drawing record (useDrawingTools.tsx:20-31). */
  datatype LegacyDrawing = LegacyDrawing(id: string, tool: string, points: seq<LPoint>, color: string,
                                         selected: bool, measurements: Option<RulerMeasures>)

  /** `p.price || d`: a missing or zero price counts as `d`. */
  function PriceOr(p: LPoint, d: real): (r: real)
    ensures p.price.Some? && p.price.value != 0.0 ==> r == p.price.value
    ensures (p.price.None? || p.price.value == 0.0) ==> r == d
  {
    if p.price.Some? && p.price.value != 0.0 then p.price.value else d
  }

  /** `p.time || 0` */
  function TimeOr0(p: LPoint): real
  {
    if p.time.Some? then p.time.value else 0.0
  }

  /**
   * The measurements `finishDrawing` attaches to a two-point ruler
   * (useDrawingTools.tsx:81-92): the price change, its percentage of the
   * first price (a missing or zero first price divides by 1), and the
   * elapsed time in whole days, rounded.
   */
  function RulerMeasure(p1: LPoint, p2: LPoint): (r: RulerMeasures)
    ensures r.price == PriceOr(p2, 0.0) - PriceOr(p1, 0.0)
    ensures r.percent * PriceOr(p1, 1.0) == r.price * 100.0
    ensures r.bars >= 0
    ensures var days := Abs(TimeOr0(p2) - TimeOr0(p1)) / 86400.0;
            days - 0.5 < r.bars as real <= days + 0.5
  {
    var priceDiff := PriceOr(p2, 0.0) - PriceOr(p1, 0.0);
    var days := Abs(TimeOr0(p2) - TimeOr0(p1)) / 86400.0;
    RulerMeasures(priceDiff, priceDiff / PriceOr(p1, 1.0) * 100.0, Round(days))
  }

  /** Swapping the points keeps the day count and negates the price change. */
  lemma RulerMeasureSymmetric(p1: LPoint, p2: LPoint)
    ensures RulerMeasure(p1, p2).bars == RulerMeasure(p2, p1).bars
    ensures RulerMeasure(p1, p2).price == -RulerMeasure(p2, p1).price
  {
    assert Abs(TimeOr0(p2) - TimeOr0(p1)) == Abs(TimeOr0(p1) - TimeOr0(p2));
  }

  /** `[...points.slice(0, 1), p]`: the first point stays, the new one replaces the rest. */
  function Extended(points: seq<LPoint>, p: LPoint): (r: seq<LPoint>)
    ensures 1 <= |r| <= 2 && r[|r| - 1] == p
    ensures |points| >= 1 ==> |r| == 2 && r[0] == points[0]
    ensures points == [] ==> r == [p]
  {
    points[..MinInt(1, |points|)] + [p]
  }

  /** `drawings.filter(d => d.id !== id)` (useDrawingTools.tsx:99-101). */
  function Deleted(ds: seq<LegacyDrawing>, id: string): (r: seq<LegacyDrawing>)
    ensures |r| <= |ds|
    ensures forall d :: d in r <==> d in ds && d.id != id
  {
    if ds == [] then []
    else (if ds[0].id == id then [] else [ds[0]]) + Deleted(ds[1..], id)
  }

  /** Deletion keeps the surviving drawings in their order. */
  lemma {:induction false} DeletedAppend(a: seq<LegacyDrawing>, b: seq<LegacyDrawing>, id: string)
    ensures Deleted(a + b, id) == Deleted(a, id) + Deleted(b, id)
  {
    if a == [] {
      assert a + b == b;
    } else {
      assert (a + b)[1..] == a[1..] + b;
      DeletedAppend(a[1..], b, id);
    }
  }

  /** `drawings.map(d => ({ ...d, selected: d.id === id }))` (useDrawingTools.tsx:103-105). */
  function SelectedOnly(ds: seq<LegacyDrawing>, id: string): (r: seq<LegacyDrawing>)
    ensures |r| == |ds|
    ensures forall i :: 0 <= i < |ds| ==> r[i] == ds[i].(selected := r[i].selected)
    ensures forall i :: 0 <= i < |ds| ==> (r[i].selected <==> ds[i].id == id)
  {
    if ds == [] then [] else [ds[0].(selected := ds[0].id == id)] + SelectedOnly(ds[1..], id)
  }

  /** The tool written to the store (useDrawingTools.tsx:114): `select` is stored as null. */
  function StoredTool(tool: string): (r: Option<string>)
    ensures r.None? <==> tool == "select"
    ensures r.Some? ==> r.value == tool
  {
    if tool == "select" then None else Some(tool)
  }

  /** The hook's initial tool (useDrawingTools.tsx:37): the store's, or `select` when it has none. */
  function InitialTool(stored: Option<string>): (r: string)
    ensures stored.Some? ==> r == stored.value
    ensures stored.None? ==> r == "select"
  {
    stored.UnwrapOr("select")
  }

  /** Storing a tool and reading it back as the initial tool gives the tool again. */
  lemma StoredToolRoundTrip(tool: string)
    ensures InitialTool(StoredTool(tool)) == tool
  {
  }

  /** The hook bound to the drawing store. */
  class DrawingToolsHook {
    const store: DrawingStore
    var activeTool: string
    var drawings: seq<LegacyDrawing>
    var isDrawing: bool
    var current: Option<LegacyDrawing>

    /** A drawing is in progress exactly while `isDrawing`, and it has one or two points. */
    predicate Valid()
      reads this
    {
      (isDrawing <==> current.Some?) && (current.Some? ==> 1 <= |current.value.points| <= 2)
    }

    /** The list the hook exposes: the finished drawings, then the one in progress (useDrawingTools.tsx:120). */
    function Exposed(): (r: seq<LegacyDrawing>)
      reads this
      ensures |r| == |drawings| + (if current.Some? then 1 else 0)
      ensures r[..|drawings|] == drawings
      ensures current.Some? ==> r[|drawings|] == current.value
    {
      drawings + (if current.Some? then [current.value] else [])
    }

    constructor(store: DrawingStore)
      ensures this.store == store && Valid()
      ensures activeTool == InitialTool(store.activeTool)
      ensures drawings == [] && !isDrawing && current.None?
    {
      this.store := store;
      activeTool := InitialTool(store.activeTool);
      drawings := [];
      isDrawing := false;
      current := None;
    }

    /** The effect that copies a truthy store tool into the hook (useDrawingTools.tsx:40-44). */
    method Sync()
      modifies this
      ensures store.activeTool.Some? && store.activeTool.value != "" ==> activeTool == store.activeTool.value
      ensures store.activeTool.None? || store.activeTool.value == "" ==> activeTool == old(activeTool)
      ensures drawings == old(drawings) && isDrawing == old(isDrawing) && current == old(current)
    {
      if store.activeTool.Some? && store.activeTool.value != "" && store.activeTool.value != activeTool {
        activeTool := store.activeTool.value;
      }
    }

    /** useDrawingTools.tsx:49-62 */
    method StartDrawing(p: LPoint, now: nat)
      requires Valid()
      modifies this
      ensures Valid() && drawings == old(drawings) && activeTool == old(activeTool)
      ensures activeTool == "select" || activeTool == "eraser" ==> current == old(current) && isDrawing == old(isDrawing)
      ensures activeTool != "select" && activeTool != "eraser" ==>
                current == Some(LegacyDrawing("drawing-" + NatToString(now), activeTool, [p], "#3b82f6", false, None))
    {
      if activeTool == "select" || activeTool == "eraser" {
        return;
      }
      current := Some(LegacyDrawing("drawing-" + NatToString(now), activeTool, [p], "#3b82f6", false, None));
      isDrawing := true;
    }

    /** useDrawingTools.tsx:64-71 */
    method UpdateDrawing(p: LPoint)
      requires Valid()
      modifies this
      ensures Valid() && drawings == old(drawings) && isDrawing == old(isDrawing) && activeTool == old(activeTool)
      ensures old(current).None? ==> current.None?
      ensures old(current).Some? ==> current == Some(old(current).value.(points := Extended(old(current).value.points, p)))
    {
      if !isDrawing || current.None? {
        return;
      }
      current := Some(current.value.(points := Extended(current.value.points, p)));
    }

    /** useDrawingTools.tsx:73-97 */
    method FinishDrawing()
      requires Valid()
      modifies this
      ensures Valid() && !isDrawing && current.None? && activeTool == old(activeTool)
      ensures old(current).None? || |old(current).value.points| < 2 ==> drawings == old(drawings)
      ensures old(current).Some? && |old(current).value.points| >= 2 ==>
                drawings == old(drawings) + [Finished(old(current).value)]
    {
      if current.None? || |current.value.points| < 2 {
        isDrawing := false;
        current := None;
        return;
      }
      drawings := drawings + [Finished(current.value)];
      isDrawing := false;
      current := None;
    }

    /** useDrawingTools.tsx:99-101 */
    method DeleteDrawing(id: string)
      modifies this
      ensures drawings == Deleted(old(drawings), id)
      ensures activeTool == old(activeTool) && isDrawing == old(isDrawing) && current == old(current)
    {
      drawings := Deleted(drawings, id);
    }

    /** useDrawingTools.tsx:103-105 */
    method SelectDrawing(id: string)
      modifies this
      ensures drawings == SelectedOnly(old(drawings), id)
      ensures activeTool == old(activeTool) && isDrawing == old(isDrawing) && current == old(current)
    {
      drawings := SelectedOnly(drawings, id);
    }

    /** useDrawingTools.tsx:107-109 */
    method ClearDrawings()
      modifies this
      ensures drawings == []
      ensures activeTool == old(activeTool) && isDrawing == old(isDrawing) && current == old(current)
    {
      drawings := [];
    }

    /** useDrawingTools.tsx:112-115 */
    method SetActiveToolSynced(tool: string)
      modifies this, store
      ensures activeTool == tool && store.State() == old(store.State()).(activeTool := StoredTool(tool))
      ensures drawings == old(drawings) && isDrawing == old(isDrawing) && current == old(current)
    {
      activeTool := tool;
      store.SetActiveTool(StoredTool(tool));
    }
  }

  /** A finished drawing: a two-point ruler gains its measurements, anything else is kept as it is. */
  function Finished(d: LegacyDrawing): (r: LegacyDrawing)
    ensures r.(measurements := d.measurements) == d
    ensures d.tool == "ruler" && |d.points| == 2 ==> r.measurements == Some(RulerMeasure(d.points[0], d.points[1]))
    ensures d.tool != "ruler" || |d.points| != 2 ==> r == d
  {
    if d.tool == "ruler" && |d.points| == 2 then d.(measurements := Some(RulerMeasure(d.points[0], d.points[1])))
    else d
  }

  /**
   * Start, any number of updates, then finish: the stroke's first point is
   * the start point and its last the final update, so a finished drawing
   * always has exactly two points.
   */
  lemma {:induction false} UpdatesKeepStart(start: LPoint, moves: seq<LPoint>)
    requires |moves| >= 1
    ensures |Replayed([start], moves)| == 2
    ensures Replayed([start], moves)[0] == start && Replayed([start], moves)[1] == moves[|moves| - 1]
  {
    if |moves| > 1 {
      UpdatesKeepStart(start, moves[..|moves| - 1]);
    }
  }

  /** The points after applying `Extended` for each move in turn. */
  function Replayed(points: seq<LPoint>, moves: seq<LPoint>): seq<LPoint>
  {
    if moves == [] then points else Extended(Replayed(points, moves[..|moves| - 1]), moves[|moves| - 1])
  }
}
