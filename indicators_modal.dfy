/**
 * The saved-indicator list of src/components/IndicatorsModal.tsx: add, edit,
 * save an edit and delete, each of which also writes the list to storage.
 * `Date.now().toString()` is the parameter `stamp`; the storage entry is the
 * field `stored`.
 */
module IndicatorsModal {
  import opened Wrappers
  import opened Strings

  /** An indicator; `params` is `Some(text)` for `{ params: text }` and `None` for `{}`. */
  datatype Indicator = Indicator(id: string, name: string, params: Option<string>)

  /** `ind?.params?.params || ''` */
  function ParamsText(p: Option<string>): string
  {
    p.UnwrapOr("")
  }

  /** `indicators.filter(i => i.id !== id)` (IndicatorsModal.tsx:57). */
  function Without(xs: seq<Indicator>, id: string): (r: seq<Indicator>)
    ensures |r| <= |xs|
    ensures forall x :: x in r <==> x in xs && x.id != id
  {
    if xs == [] then []
    else (if xs[0].id == id then [] else [xs[0]]) + Without(xs[1..], id)
  }

  /** Deletion keeps the other entries in their order. */
  lemma {:induction false} WithoutAppend(a: seq<Indicator>, b: seq<Indicator>, id: string)
    ensures Without(a + b, id) == Without(a, id) + Without(b, id)
  {
    if a == [] {
      assert a + b == b;
    } else {
      assert (a + b)[1..] == a[1..] + b;
      WithoutAppend(a[1..], b, id);
    }
  }

  lemma {:induction false} WithoutAbsent(xs: seq<Indicator>, id: string)
    requires forall i :: 0 <= i < |xs| ==> xs[i].id != id
    ensures Without(xs, id) == xs
  {
    if xs != [] {
      WithoutAbsent(xs[1..], id);
    }
  }

  /** The entries with `id` renamed and given `{ params: text }` (IndicatorsModal.tsx:71-73). */
  function Edited(xs: seq<Indicator>, id: string, name: string, params: string): (r: seq<Indicator>)
    ensures |r| == |xs|
    ensures forall i :: 0 <= i < |xs| ==> r[i].id == xs[i].id
    ensures forall i :: 0 <= i < |xs| ==>
              r[i] == if xs[i].id == id then Indicator(xs[i].id, name, Some(params)) else xs[i]
  {
    if xs == [] then []
    else [if xs[0].id == id then xs[0].(name := name, params := Some(params)) else xs[0]]
         + Edited(xs[1..], id, name, params)
  }

  /** `indicators.find(i => i.id === id)` (IndicatorsModal.tsx:64). */
  function Find(xs: seq<Indicator>, id: string): (r: Option<Indicator>)
    ensures r.None? <==> forall i :: 0 <= i < |xs| ==> xs[i].id != id
    ensures r.Some? ==> r.value in xs && r.value.id == id
  {
    if xs == [] then None
    else if xs[0].id == id then Some(xs[0])
    else Find(xs[1..], id)
  }

  /** `find` returns the first entry with the id. */
  lemma {:induction false} FindFirst(xs: seq<Indicator>, id: string, k: nat)
    requires k < |xs| && xs[k].id == id
    requires forall i :: 0 <= i < k ==> xs[i].id != id
    ensures Find(xs, id) == Some(xs[k])
  {
    if k > 0 {
      FindFirst(xs[1..], id, k - 1);
    }
  }

  /** The name an edit starts from: `ind?.name || ''`. */
  function EditName(found: Option<Indicator>): string
  {
    if found.Some? then found.value.name else ""
  }

  /** The params text an edit starts from. */
  function EditParams(found: Option<Indicator>): string
  {
    if found.Some? then ParamsText(found.value.params) else ""
  }

  /** `newParams ? { params: newParams } : {}` */
  function NewParams(text: string): (r: Option<string>)
    ensures r.None? <==> text == ""
    ensures r.Some? ==> r.value == text
  {
    if text == "" then None else Some(text)
  }

  /** The component state behind the modal (IndicatorsModal.tsx:33-36) and the stored list. */
  class Modal {
    var indicators: seq<Indicator>
    var stored: seq<Indicator>
    var editingId: Option<string>
    var newName: string
    var newParams: string

    /** Every handler writes the list it shows, so storage mirrors the list. */
    predicate Persisted()
      reads this
    {
      stored == indicators
    }

    constructor(stored: seq<Indicator>)
      ensures this.stored == stored && indicators == [] && editingId.None? && newName == "" && newParams == ""
    {
      this.stored := stored;
      indicators := [];
      editingId := None;
      newName := "";
      newParams := "";
    }

    /** Opening the modal loads the stored list (IndicatorsModal.tsx:38-40). */
    method Open()
      modifies this
      ensures Persisted() && indicators == old(stored)
      ensures editingId == old(editingId) && newName == old(newName) && newParams == old(newParams)
    {
      indicators := stored;
    }

    /** IndicatorsModal.tsx:42-54 */
    method Add(stamp: nat)
      requires Persisted()
      modifies this
      ensures Persisted() && editingId == old(editingId)
      ensures Trim(old(newName)) == "" ==>
                indicators == old(indicators) && newName == old(newName) && newParams == old(newParams)
      ensures Trim(old(newName)) != "" ==>
                indicators == old(indicators) + [Indicator(NatToString(stamp), old(newName), NewParams(old(newParams)))]
                && newName == "" && newParams == ""
    {
      if Trim(newName) == "" {
        return;
      }
      var updated := indicators + [Indicator(NatToString(stamp), newName, NewParams(newParams))];
      indicators := updated;
      stored := updated;
      newName := "";
      newParams := "";
    }

    /** IndicatorsModal.tsx:56-60 */
    method Delete(id: string)
      requires Persisted()
      modifies this
      ensures Persisted() && indicators == Without(old(indicators), id)
      ensures editingId == old(editingId) && newName == old(newName) && newParams == old(newParams)
    {
      var updated := Without(indicators, id);
      indicators := updated;
      stored := updated;
    }

    /** Enters edit mode for `id`, even an unknown one, loading its fields (IndicatorsModal.tsx:62-67). */
    method Edit(id: string)
      modifies this
      ensures editingId == Some(id)
      ensures newName == EditName(Find(old(indicators), id)) && newParams == EditParams(Find(old(indicators), id))
      ensures indicators == old(indicators) && stored == old(stored)
    {
      editingId := Some(id);
      var found := Find(indicators, id);
      newName := EditName(found);
      newParams := EditParams(found);
    }

    /** IndicatorsModal.tsx:69-79 */
    method SaveEdit()
      requires Persisted()
      modifies this
      ensures Persisted()
      ensures old(editingId).None? || old(editingId).value == "" ==>
                indicators == old(indicators) && editingId == old(editingId)
                && newName == old(newName) && newParams == old(newParams)
      ensures old(editingId).Some? && old(editingId).value != "" ==>
                indicators == Edited(old(indicators), old(editingId).value, old(newName), old(newParams))
                && editingId.None? && newName == "" && newParams == ""
    {
      if editingId.None? || editingId.value == "" {
        return;
      }
      var updated := Edited(indicators, editingId.value, newName, newParams);
      indicators := updated;
      stored := updated;
      editingId := None;
      newName := "";
      newParams := "";
    }
  }

  /** Deleting a freshly added indicator restores the list it was added to. */
  lemma DeleteUndoesAdd(xs: seq<Indicator>, x: Indicator)
    requires forall i :: 0 <= i < |xs| ==> xs[i].id != x.id
    ensures Without(xs + [x], x.id) == xs
  {
    WithoutAppend(xs, [x], x.id);
    WithoutAbsent(xs, x.id);
    assert Without([x], x.id) == [];
  }

  /** Editing an entry loads exactly the name and params text it was saved with. */
  lemma EditLoadsSaved(xs: seq<Indicator>, id: string, name: string, params: string)
    requires exists i :: 0 <= i < |xs| && xs[i].id == id
    ensures EditName(Find(Edited(xs, id, name, params), id)) == name
    ensures EditParams(Find(Edited(xs, id, name, params), id)) == params
  {
    var r := Edited(xs, id, name, params);
    var f := Find(r, id);
    var i :| 0 <= i < |xs| && xs[i].id == id;
    assert r[i].id == id;
    assert f.Some?;
    var k :| 0 <= k < |r| && r[k] == f.value;
    assert r[k] == Indicator(xs[k].id, name, Some(params));
  }

  /** A saved edit leaves the entries with other ids as they were. */
  lemma EditKeepsOthers(xs: seq<Indicator>, id: string, name: string, params: string, other: string)
    requires other != id
    ensures Find(Edited(xs, id, name, params), other) == Find(xs, other)
    ensures Without(Edited(xs, id, name, params), id) == Without(xs, id)
  {
    EditKeepsOthersFind(xs, id, name, params, other);
    EditedWithout(xs, id, name, params);
  }

  lemma {:induction false} EditKeepsOthersFind(xs: seq<Indicator>, id: string, name: string, params: string, other: string)
    requires other != id
    ensures Find(Edited(xs, id, name, params), other) == Find(xs, other)
  {
    if xs != [] {
      var r := Edited(xs, id, name, params);
      assert r[1..] == Edited(xs[1..], id, name, params);
      EditKeepsOthersFind(xs[1..], id, name, params, other);
    }
  }

  lemma {:induction false} EditedWithout(xs: seq<Indicator>, id: string, name: string, params: string)
    ensures Without(Edited(xs, id, name, params), id) == Without(xs, id)
  {
    if xs != [] {
      var r := Edited(xs, id, name, params);
      assert r[1..] == Edited(xs[1..], id, name, params);
      EditedWithout(xs[1..], id, name, params);
    }
  }
}
