/**
 * The drawing store of src/store/drawingStore.ts: the list of drawings, the
 * active tool, the selection, the per-drawing click counters and the drag
 * state. Each `set` call of the store is a method of `DrawingStore` that
 * reassigns the fields it names; the list operations are specified by the
 * functions below, whose properties are proved as lemmas.
 */
module Drawings {
  import opened Wrappers
  import opened DrawingPrimitives

  /** `Partial<IDrawing>`: the fields an update supplies. */
  datatype DrawingPatch = DrawingPatch(id: Option<string>, kind: Option<Tool>, points: Option<seq<Point>>,
                                       options: Option<Options>, visible: Option<bool>, selected: Option<bool>)

  /** `{ ...d, ...updates }`: every supplied field replaces the drawing's own. */
  function Patched(d: Drawing, u: DrawingPatch): (r: Drawing)
    ensures u.id.Some? ==> r.id == u.id.value
    ensures u.id.None? ==> r.id == d.id
    ensures u.kind.Some? ==> r.kind == u.kind.value
    ensures u.kind.None? ==> r.kind == d.kind
    ensures u.points.Some? ==> r.points == u.points.value
    ensures u.points.None? ==> r.points == d.points
    ensures u.options.Some? ==> r.options == u.options.value
    ensures u.options.None? ==> r.options == d.options
    ensures u.visible.Some? ==> r.visible == u.visible.value
    ensures u.visible.None? ==> r.visible == d.visible
    ensures u.selected.Some? ==> r.selected == u.selected.value
    ensures u.selected.None? ==> r.selected == d.selected
  {
    Drawing(u.id.UnwrapOr(d.id), u.kind.UnwrapOr(d.kind), u.points.UnwrapOr(d.points),
            u.options.UnwrapOr(d.options), u.visible.UnwrapOr(d.visible), u.selected.UnwrapOr(d.selected))
  }

  /** `drawings.map(d => d.id === id ? { ...d, ...updates } : d)` (drawingStore.ts:76-78). */
  function Updated(ds: seq<Drawing>, id: string, u: DrawingPatch): (r: seq<Drawing>)
    ensures |r| == |ds|
    ensures forall i :: 0 <= i < |ds| ==> r[i] == if ds[i].id == id then Patched(ds[i], u) else ds[i]
  {
    if ds == [] then []
    else [if ds[0].id == id then Patched(ds[0], u) else ds[0]] + Updated(ds[1..], id, u)
  }

  /** `drawings.filter(d => d.id !== id)` (drawingStore.ts:79-81). */
  function Removed(ds: seq<Drawing>, id: string): (r: seq<Drawing>)
    ensures |r| <= |ds|
    ensures forall d :: d in r <==> d in ds && d.id != id
  {
    if ds == [] then []
    else (if ds[0].id == id then [] else [ds[0]]) + Removed(ds[1..], id)
  }

  /** `visible` flipped on the drawings with the id (drawingStore.ts:82-84). */
  function Toggled(ds: seq<Drawing>, id: string): (r: seq<Drawing>)
    ensures |r| == |ds|
    ensures forall i :: 0 <= i < |ds| ==>
              r[i] == if ds[i].id == id then ds[i].(visible := !ds[i].visible) else ds[i]
  {
    if ds == [] then []
    else [if ds[0].id == id then ds[0].(visible := !ds[0].visible) else ds[0]] + Toggled(ds[1..], id)
  }

  /** `drawings.map(d => ({ ...d, selected: d.id === id }))` (drawingStore.ts:85-88). */
  function Selected(ds: seq<Drawing>, id: string): (r: seq<Drawing>)
    ensures |r| == |ds|
    ensures forall i :: 0 <= i < |ds| ==> r[i] == ds[i].(selected := r[i].selected)
    ensures forall i :: 0 <= i < |ds| ==> (r[i].selected <==> ds[i].id == id)
  {
    if ds == [] then []
    else [ds[0].(selected := ds[0].id == id)] + Selected(ds[1..], id)
  }

  /** `drawings.map(d => ({ ...d, selected: false }))` (drawingStore.ts:89-92). */
  function Deselected(ds: seq<Drawing>): (r: seq<Drawing>)
    ensures |r| == |ds|
    ensures forall i :: 0 <= i < |ds| ==> r[i] == ds[i].(selected := false)
  {
    if ds == [] then [] else [ds[0].(selected := false)] + Deselected(ds[1..])
  }

  /** `state.clickCounts[id] ?? 0` */
  function ClickCount(counts: map<string, int>, id: string): int
  {
    if id in counts then counts[id] else 0
  }

  /** The counters after `incrementClickCount(id)` (drawingStore.ts:98-106). */
  function Incremented(counts: map<string, int>, id: string): (r: map<string, int>)
    ensures ClickCount(r, id) == ClickCount(counts, id) + 1
    ensures forall k :: k != id ==> ClickCount(r, k) == ClickCount(counts, k)
    ensures r.Keys == counts.Keys + {id}
  {
    counts[id := ClickCount(counts, id) + 1]
  }

  datatype DragState = DragState(isDragging: bool, drawingId: Option<string>, handleIndex: Option<int>)

  /** `Partial<dragState>`: `Some(v)` for a supplied field; `v` itself may be null. */
  datatype DragPatch = DragPatch(isDragging: Option<bool>, drawingId: Option<Option<string>>,
                                 handleIndex: Option<Option<int>>)

  /** `{ ...state.dragState, ...newState }` (drawingStore.ts:94-96). */
  function MergedDrag(s: DragState, p: DragPatch): (r: DragState)
    ensures p.isDragging.Some? ==> r.isDragging == p.isDragging.value
    ensures p.isDragging.None? ==> r.isDragging == s.isDragging
    ensures p.drawingId.Some? ==> r.drawingId == p.drawingId.value
    ensures p.drawingId.None? ==> r.drawingId == s.drawingId
    ensures p.handleIndex.Some? ==> r.handleIndex == p.handleIndex.value
    ensures p.handleIndex.None? ==> r.handleIndex == s.handleIndex
  {
    DragState(p.isDragging.UnwrapOr(s.isDragging), p.drawingId.UnwrapOr(s.drawingId),
              p.handleIndex.UnwrapOr(s.handleIndex))
  }

  /** `{ isDragging: b }`, the only drag update the drawing hooks make. */
  function DraggingPatch(b: bool): DragPatch
  {
    DragPatch(Some(b), None, None)
  }

  /** The whole store at one moment. */
  datatype StoreState = StoreState(activeTool: Option<string>, drawings: seq<Drawing>,
                                   selectedDrawingId: Option<string>, clickCounts: map<string, int>,
                                   dragState: DragState)

  /** The store of drawingStore.ts:61-112. */
  class DrawingStore {
    var activeTool: Option<string>
    var drawings: seq<Drawing>
    var selectedDrawingId: Option<string>
    var clickCounts: map<string, int>
    var dragState: DragState

    function State(): StoreState
      reads this
    {
      StoreState(activeTool, drawings, selectedDrawingId, clickCounts, dragState)
    }

    /**
     * The initial state (drawingStore.ts:62-70) with the persisted tool
     * restored over it (drawingStore.ts:108-111): only `activeTool` is
     * persisted, and `persistedTool` is what storage holds, `None` when
     * nothing or `null` was stored.
     */
    constructor(persistedTool: Option<string>)
      ensures State() == StoreState(persistedTool, [], None, map[], DragState(false, None, None))
    {
      activeTool := persistedTool;
      drawings := [];
      selectedDrawingId := None;
      clickCounts := map[];
      dragState := DragState(false, None, None);
    }

    /** drawingStore.ts:71 */
    method SetActiveTool(tool: Option<string>)
      modifies this
      ensures State() == old(State()).(activeTool := tool)
    {
      activeTool := tool;
    }

    /** Appends the drawing and deselects the tool (drawingStore.ts:72-75). */
    method AddDrawing(d: Drawing)
      modifies this
      ensures State() == old(State()).(drawings := old(drawings) + [d], activeTool := None)
    {
      drawings := drawings + [d];
      activeTool := None;
    }

    /** drawingStore.ts:76-78 */
    method UpdateDrawing(id: string, u: DrawingPatch)
      modifies this
      ensures State() == old(State()).(drawings := Updated(old(drawings), id, u))
    {
      drawings := Updated(drawings, id, u);
    }

    /** drawingStore.ts:79-81 */
    method RemoveDrawing(id: string)
      modifies this
      ensures State() == old(State()).(drawings := Removed(old(drawings), id))
    {
      drawings := Removed(drawings, id);
    }

    /** drawingStore.ts:82-84 */
    method ToggleVisibility(id: string)
      modifies this
      ensures State() == old(State()).(drawings := Toggled(old(drawings), id))
    {
      drawings := Toggled(drawings, id);
    }

    /** Selects by id, recording the id even when no drawing has it (drawingStore.ts:85-88). */
    method SelectDrawing(id: string)
      modifies this
      ensures State() == old(State()).(drawings := Selected(old(drawings), id), selectedDrawingId := Some(id))
    {
      drawings := Selected(drawings, id);
      selectedDrawingId := Some(id);
    }

    /** drawingStore.ts:89-92 */
    method DeselectDrawing()
      modifies this
      ensures State() == old(State()).(drawings := Deselected(old(drawings)), selectedDrawingId := None)
    {
      drawings := Deselected(drawings);
      selectedDrawingId := None;
    }

    /** Empties the list only (drawingStore.ts:93). */
    method ClearDrawings()
      modifies this
      ensures State() == old(State()).(drawings := [])
    {
      drawings := [];
    }

    /** drawingStore.ts:94-96 */
    method SetDragState(p: DragPatch)
      modifies this
      ensures State() == old(State()).(dragState := MergedDrag(old(dragState), p))
    {
      dragState := MergedDrag(dragState, p);
    }

    /** Stores and returns the previous count, 0 when absent, plus one (drawingStore.ts:98-106). */
    method IncrementClickCount(id: string) returns (newCount: int)
      modifies this
      ensures newCount == ClickCount(old(clickCounts), id) + 1
      ensures State() == old(State()).(clickCounts := Incremented(old(clickCounts), id))
    {
      newCount := ClickCount(clickCounts, id) + 1;
      clickCounts := clickCounts[id := newCount];
    }

    /** drawingStore.ts:107 */
    method ResetClickCount(id: string)
      modifies this
      ensures State() == old(State()).(clickCounts := old(clickCounts)[id := 0])
    {
      clickCounts := clickCounts[id := 0];
    }
  }

  /** An update for an id no drawing has changes nothing. */
  lemma UpdateAbsentId(ds: seq<Drawing>, id: string, u: DrawingPatch)
    requires forall i :: 0 <= i < |ds| ==> ds[i].id != id
    ensures Updated(ds, id, u) == ds
  {
  }

  /** An update that supplies no id keeps every drawing's id in place. */
  lemma UpdateKeepsIds(ds: seq<Drawing>, id: string, u: DrawingPatch)
    requires u.id.None?
    ensures forall i :: 0 <= i < |ds| ==> Updated(ds, id, u)[i].id == ds[i].id
  {
  }

  /** Removal distributes over concatenation: the survivors keep their relative order. */
  lemma {:induction false} RemovedAppend(a: seq<Drawing>, b: seq<Drawing>, id: string)
    ensures Removed(a + b, id) == Removed(a, id) + Removed(b, id)
  {
    if a == [] {
      assert a + b == b;
    } else {
      assert (a + b)[1..] == a[1..] + b;
      RemovedAppend(a[1..], b, id);
    }
  }

  /** Removing an id no drawing has changes nothing. */
  lemma {:induction false} RemovedAbsent(ds: seq<Drawing>, id: string)
    requires forall i :: 0 <= i < |ds| ==> ds[i].id != id
    ensures Removed(ds, id) == ds
  {
    if ds != [] {
      RemovedAbsent(ds[1..], id);
    }
  }

  /** Removing twice is removing once. */
  lemma RemovedTwice(ds: seq<Drawing>, id: string)
    ensures Removed(Removed(ds, id), id) == Removed(ds, id)
  {
    var r := Removed(ds, id);
    forall i | 0 <= i < |r|
      ensures r[i].id != id
    {
      assert r[i] in r;
    }
    RemovedAbsent(r, id);
  }

  /** Toggling visibility twice restores the list. */
  lemma ToggledTwice(ds: seq<Drawing>, id: string)
    ensures Toggled(Toggled(ds, id), id) == ds
  {
    var t := Toggled(Toggled(ds, id), id);
    assert forall i :: 0 <= i < |ds| ==> t[i] == ds[i];
  }

  /** After deselection nothing is selected; selecting afterwards depends only on the id. */
  lemma DeselectThenSelect(ds: seq<Drawing>, id: string)
    ensures forall i :: 0 <= i < |ds| ==> !Deselected(ds)[i].selected
    ensures Selected(Deselected(ds), id) == Selected(ds, id)
  {
    var a, b := Selected(Deselected(ds), id), Selected(ds, id);
    assert forall i :: 0 <= i < |ds| ==> a[i] == b[i];
  }

  /** A reset counter counts one on the next click; other counters are untouched. */
  lemma ResetThenIncrement(counts: map<string, int>, id: string, other: string)
    requires other != id
    ensures ClickCount(Incremented(counts[id := 0], id), id) == 1
    ensures ClickCount(Incremented(counts[id := 0], id), other) == ClickCount(counts, other)
  {
  }

  /** A drag patch applied twice has the effect of applying it once. */
  lemma MergedDragIdempotent(s: DragState, p: DragPatch)
    ensures MergedDrag(MergedDrag(s, p), p) == MergedDrag(s, p)
    ensures MergedDrag(s, DragPatch(None, None, None)) == s
  {
  }
}
