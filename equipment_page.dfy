/** src/components/EquipmentPage.tsx: the page that owns the unit's equipment
    list. The list and the department filter are its state. Each operation is
    split at its `await`: the server call is a parameter (whether it succeeded,
    and the record it sent back), and the list changes only after a success. */
module EquipmentPage {
  import opened Types
  import opened Seqs

  /** `prev.map(e => e.id === id ? updated : e)`. */
  function Replaced(s: seq<Equipment>, id: string, updated: Equipment): (r: seq<Equipment>)
    ensures |r| == |s|
  {
    seq(|s|, i requires 0 <= i < |s| => if s[i].id == id then updated else s[i])
  }

  function IdIsNot(id: string): Equipment -> bool
  {
    (e: Equipment) => e.id != id
  }

  /** `prev.filter(e => e.id !== id)`. */
  function Without(s: seq<Equipment>, id: string): seq<Equipment>
  {
    Filter(s, IdIsNot(id))
  }

  /** The update replaces exactly the items with the edited id, in place: the
      length, the order and every other item stay. */
  lemma {:induction false} ReplacedSpec(s: seq<Equipment>, id: string, updated: Equipment)
    ensures |Replaced(s, id, updated)| == |s|
    ensures forall i :: 0 <= i < |s| && s[i].id == id ==> Replaced(s, id, updated)[i] == updated
    ensures forall i :: 0 <= i < |s| && s[i].id != id ==> Replaced(s, id, updated)[i] == s[i]
    ensures (forall i :: 0 <= i < |s| ==> s[i].id != id) ==> Replaced(s, id, updated) == s
  {
    if forall i :: 0 <= i < |s| ==> s[i].id != id {
      assert Replaced(s, id, updated) == s;
    }
  }

  /** The delete keeps, in their order and as often as before, exactly the items
      with another id. */
  lemma {:induction false} WithoutSpec(s: seq<Equipment>, id: string)
    ensures IsSubsequence(Without(s, id), s)
    ensures forall e :: e in Without(s, id) <==> e in s && e.id != id
    ensures forall e :: multiset(Without(s, id))[e] == if e.id != id then multiset(s)[e] else 0
  {
    FilterSpec(s, IdIsNot(id));
  }

  /** A record the server sends back under the edited id is gone again once that
      id is deleted: deleting after an update is deleting. */
  lemma {:induction false} DeleteAfterUpdate(s: seq<Equipment>, id: string, updated: Equipment)
    requires updated.id == id
    ensures Without(Replaced(s, id, updated), id) == Without(s, id)
    decreases |s|
  {
    if s != [] {
      var r := Replaced(s, id, updated);
      DeleteAfterUpdate(s[1..], id, updated);
      assert r == [r[0]] + Replaced(s[1..], id, updated);
      assert s == [s[0]] + s[1..];
      FilterAppend([r[0]], Replaced(s[1..], id, updated), IdIsNot(id));
      FilterAppend([s[0]], s[1..], IdIsNot(id));
    }
  }

  /** Deleting the record just added gives the list before the add, less any
      other item with that id. */
  lemma {:induction false} DeleteAfterAdd(s: seq<Equipment>, added: Equipment)
    ensures Without([added] + s, added.id) == Without(s, added.id)
  {
    FilterAppend([added], s, IdIsNot(added.id));
  }

  /** What the fetch effect does. */
  datatype Fetch = NoFetch | FetchFor(unitId: string)

  class EquipmentPageState {
    var equipments: seq<Equipment>
    var departmentFilter: Option<string>
    var loading: bool

    constructor ()
      ensures equipments == [] && departmentFilter.None? && !loading
    {
      equipments := [];
      departmentFilter := None;
      loading := false;
    }

    /** The fetch effect up to its `await`: nothing without a unit id, otherwise
        loading starts and the unit's list is requested. */
    method BeginFetch(unitId: Option<string>) returns (f: Fetch)
      modifies this
      ensures !Present(unitId) ==> f == NoFetch && loading == old(loading)
      ensures Present(unitId) ==> f == FetchFor(unitId.value) && loading
      ensures equipments == old(equipments) && departmentFilter == old(departmentFilter)
    {
      if !Present(unitId) {
        return NoFetch;
      }
      loading := true;
      f := FetchFor(unitId.value);
    }

    /** The rest of the fetch: on success the server's list (or `[]` when it sent
        none) replaces the state; a failure keeps the list; loading ends either way. */
    method EndFetch(ok: bool, fetched: Option<seq<Equipment>>)
      modifies this
      ensures ok ==> equipments == (if fetched.Some? then fetched.value else [])
      ensures !ok ==> equipments == old(equipments)
      ensures !loading && departmentFilter == old(departmentFilter)
    {
      if ok {
        equipments := if fetched.Some? then fetched.value else [];
      }
      loading := false;
    }

    /** `handleAddEquipment`: the record the server returns goes first. */
    method Add(ok: bool, created: Equipment)
      modifies this
      ensures ok ==> equipments == [created] + old(equipments)
      ensures !ok ==> equipments == old(equipments)
      ensures departmentFilter == old(departmentFilter) && loading == old(loading)
    {
      if ok {
        equipments := [created] + equipments;
      }
    }

    /** `handleUpdateEquipment`: items with the edited id become the server's record. */
    method Update(edited: Equipment, ok: bool, updated: Equipment)
      modifies this
      ensures ok ==> equipments == Replaced(old(equipments), edited.id, updated)
      ensures !ok ==> equipments == old(equipments)
      ensures departmentFilter == old(departmentFilter) && loading == old(loading)
    {
      if ok {
        equipments := Replaced(equipments, edited.id, updated);
      }
    }

    /** `handleDeleteEquipment`. */
    method Delete(id: string, ok: bool)
      modifies this
      ensures ok ==> equipments == Without(old(equipments), id)
      ensures !ok ==> equipments == old(equipments)
      ensures departmentFilter == old(departmentFilter) && loading == old(loading)
    {
      if ok {
        equipments := Without(equipments, id);
      }
    }

    /** `handleClearDepartmentFilter`. */
    method ClearDepartmentFilter()
      modifies this
      ensures departmentFilter.None?
      ensures equipments == old(equipments) && loading == old(loading)
    {
      departmentFilter := None;
    }
  }

  /** After a successful add the new record is listed first and the old list
      follows it unchanged. */
  method AddPrepends(page: EquipmentPageState, created: Equipment)
    modifies page
    ensures |page.equipments| == |old(page.equipments)| + 1
    ensures page.equipments[0] == created && page.equipments[1..] == old(page.equipments)
  {
    page.Add(true, created);
  }
}
