/** src/components/EquipmentManagement.tsx: the equipment list page. The list
    shown is a filter over the equipment by search text, status, category and
    an optional department (with four department aliases); the category choices
    are the distinct categories in first-occurrence order. The modal handlers
    live in a class: editing opens the form on an item, submitting routes the
    record to the update or the add callback and closes the form. */
module EquipmentManagement {
  import opened Types
  import opened Strings
  import opened Seqs

  const All := "all"

  /** The page's filters; the department comes from the parent and may be absent. */
  datatype EquipmentCriteria = EquipmentCriteria(
    search: string,
    status: string,
    category: string,
    department: Option<string>)

  const NoEquipmentCriteria := EquipmentCriteria("", All, All, None)

  /** Search looks at the name, the serial number and the manufacturer. */
  predicate MatchesSearch(e: Equipment, term: string)
  {
    ContainsIgnoreCase(e.name, term) || ContainsIgnoreCase(e.serialNumber, term)
    || ContainsIgnoreCase(e.manufacturer, term)
  }

  /** The department filter: a case-sensitive `includes` on the location, or one
      of the four aliases. An absent or empty department constrains nothing. */
  predicate MatchesDepartment(e: Equipment, department: Option<string>)
  {
    !Present(department)
    || Contains(e.location, department.value)
    || (department.value == "Emergency Medicine" && Contains(e.location, "Emergency"))
    || (department.value == "Intensive Care Unit" && Contains(e.location, "ICU"))
    || (department.value == "Operating Theater" && Contains(e.location, "Operating"))
    || (department.value == "Blood Bank" && Contains(e.location, "Blood"))
  }

  predicate Matches(c: EquipmentCriteria, e: Equipment)
  {
    MatchesSearch(e, c.search)
    && (c.status == All || EquipmentStatusLabel(e.status) == c.status)
    && (c.category == All || e.category == c.category)
    && MatchesDepartment(e, c.department)
  }

  /** `filteredEquipments`: every item shown meets the criteria, and every item
      meeting them is shown. */
  function FilteredEquipments(equipments: seq<Equipment>, c: EquipmentCriteria): (r: seq<Equipment>)
    ensures |r| <= |equipments|
    ensures forall i :: 0 <= i < |r| ==> Matches(c, r[i])
    ensures forall i :: 0 <= i < |equipments| && Matches(c, equipments[i]) ==> equipments[i] in r
  {
    FilterSpec(equipments, e => Matches(c, e));
    Filter(equipments, e => Matches(c, e))
  }

  /** The list shown is the order-preserving subsequence of the equipment meeting
      all four criteria, each item as often as it occurs. */
  lemma FilteredEquipmentsSpec(equipments: seq<Equipment>, c: EquipmentCriteria)
    ensures var r := FilteredEquipments(equipments, c);
      && IsSubsequence(r, equipments)
      && (forall i :: 0 <= i < |r| ==> Matches(c, r[i]))
      && (forall e :: e in r <==> e in equipments && Matches(c, e))
      && (forall e :: multiset(r)[e] == if Matches(c, e) then multiset(equipments)[e] else 0)
  {
    FilterSpec(equipments, e => Matches(c, e));
  }

  /** With no search, both selections at 'all' and no (or an empty) department,
      every item is listed in its order. */
  lemma {:induction false} DefaultsShowAll(equipments: seq<Equipment>, department: Option<string>)
    requires !Present(department)
    ensures FilteredEquipments(equipments, NoEquipmentCriteria.(department := department)) == equipments
  {
    var c := NoEquipmentCriteria.(department := department);
    forall i | 0 <= i < |equipments| ensures Matches(c, equipments[i]) {
      ContainsIgnoreCaseEmpty(equipments[i].name);
    }
    FilterAll(equipments, e => Matches(c, e));
  }

  predicate IsAlias(d: string)
  {
    d == "Emergency Medicine" || d == "Intensive Care Unit" || d == "Operating Theater" || d == "Blood Bank"
  }

  /** The four aliases widen the department match: "Emergency Medicine",
      "Operating Theater" and "Blood Bank" match any location containing their
      first word, and "Intensive Care Unit" also matches "ICU". Any other
      department matches by inclusion of its own name only. */
  lemma {:induction false} DepartmentAliases(e: Equipment, d: string)
    ensures MatchesDepartment(e, Some("Emergency Medicine")) <==> Contains(e.location, "Emergency")
    ensures MatchesDepartment(e, Some("Intensive Care Unit")) <==>
      Contains(e.location, "Intensive Care Unit") || Contains(e.location, "ICU")
    ensures MatchesDepartment(e, Some("Operating Theater")) <==> Contains(e.location, "Operating")
    ensures MatchesDepartment(e, Some("Blood Bank")) <==> Contains(e.location, "Blood")
    ensures !IsAlias(d) && d != "" ==> (MatchesDepartment(e, Some(d)) <==> Contains(e.location, d))
  {
    WordOfName(e.location, "Emergency Medicine", "Emergency");
    WordOfName(e.location, "Operating Theater", "Operating");
    WordOfName(e.location, "Blood Bank", "Blood");
  }

  /** A location including a department's name includes that name's first word. */
  lemma {:induction false} WordOfName(location: string, name: string, word: string)
    requires IsPrefix(word, name)
    ensures Contains(location, name) ==> Contains(location, word)
  {
    assert Contains(name, word);
    if Contains(location, name) {
      ContainsTransitive(location, name, word);
    }
  }

  /** `Array.from(new Set(equipments.map(eq => eq.category)))`. */
  function Categories(equipments: seq<Equipment>): (r: seq<string>)
    ensures NoDuplicates(r)
    ensures forall i :: 0 <= i < |equipments| ==> equipments[i].category in r
  {
    var cats := seq(|equipments|, i requires 0 <= i < |equipments| => equipments[i].category);
    assert forall i :: 0 <= i < |equipments| ==> cats[i] == equipments[i].category;
    Distinct(cats)
  }

  /** The category choices are exactly the categories in use, each once, in the
      order they first occur. */
  lemma {:induction false} CategoriesSpec(equipments: seq<Equipment>)
    ensures NoDuplicates(Categories(equipments))
    ensures forall c :: c in Categories(equipments) <==> exists i :: 0 <= i < |equipments| && equipments[i].category == c
    ensures forall k :: 0 <= k < |Categories(equipments)| ==> exists i :: 0 <= i < |equipments| && equipments[i].category == Categories(equipments)[k]
    ensures var cats := seq(|equipments|, i requires 0 <= i < |equipments| => equipments[i].category);
      forall i, j :: 0 <= i < j < |Categories(equipments)| ==>
        FirstIndex(cats, Categories(equipments)[i]) < FirstIndex(cats, Categories(equipments)[j])
  {
    var cats := seq(|equipments|, i requires 0 <= i < |equipments| => equipments[i].category);
    assert Categories(equipments) == Distinct(cats);
    forall c ensures c in cats <==> exists i :: 0 <= i < |equipments| && equipments[i].category == c {
      if c in cats {
        var i :| 0 <= i < |cats| && cats[i] == c;
        assert equipments[i].category == c;
      } else {
        forall i | 0 <= i < |equipments| ensures equipments[i].category != c {
          assert cats[i] == equipments[i].category;
        }
      }
    }
    forall k | 0 <= k < |Categories(equipments)|
      ensures exists i :: 0 <= i < |equipments| && equipments[i].category == Categories(equipments)[k]
    {
      assert Categories(equipments)[k] in Categories(equipments);
    }
  }

  // ---------------------------------------------------------------------------
  // The page's state

  /** What a modal submission calls on the parent. */
  datatype Callback = AddCall(added: Equipment) | UpdateCall(updated: Equipment)

  class EquipmentPageState {
    var searchTerm: string
    var statusFilter: string
    var categoryFilter: string
    var showAddModal: bool
    var editingEquipment: Option<Equipment>
    var showEquipmentModal: bool
    var showEquipment: Option<Equipment>

    /** The effect on `showAddModal`: a closed form holds no item being edited. */
    predicate Valid()
      reads this
    {
      !showAddModal ==> editingEquipment.None?
    }

    constructor ()
      ensures Valid() && searchTerm == "" && statusFilter == All && categoryFilter == All
      ensures !showAddModal && editingEquipment.None? && !showEquipmentModal && showEquipment.None?
    {
      searchTerm := "";
      statusFilter := All;
      categoryFilter := All;
      showAddModal := false;
      editingEquipment := None;
      showEquipmentModal := false;
      showEquipment := None;
    }

    function Current(department: Option<string>): EquipmentCriteria
      reads this
    {
      EquipmentCriteria(searchTerm, statusFilter, categoryFilter, department)
    }

    method TypeSearch(text: string)
      modifies this
      ensures searchTerm == text && statusFilter == old(statusFilter) && categoryFilter == old(categoryFilter)
      ensures showAddModal == old(showAddModal) && editingEquipment == old(editingEquipment)
      ensures showEquipmentModal == old(showEquipmentModal) && showEquipment == old(showEquipment)
    {
      searchTerm := text;
    }

    method SelectStatus(option: string)
      modifies this
      ensures statusFilter == option && searchTerm == old(searchTerm) && categoryFilter == old(categoryFilter)
      ensures showAddModal == old(showAddModal) && editingEquipment == old(editingEquipment)
      ensures showEquipmentModal == old(showEquipmentModal) && showEquipment == old(showEquipment)
    {
      statusFilter := option;
    }

    method SelectCategory(option: string)
      modifies this
      ensures categoryFilter == option && searchTerm == old(searchTerm) && statusFilter == old(statusFilter)
      ensures showAddModal == old(showAddModal) && editingEquipment == old(editingEquipment)
      ensures showEquipmentModal == old(showEquipmentModal) && showEquipment == old(showEquipment)
    {
      categoryFilter := option;
    }

    /** The Add Equipment button: opens the form with nothing being edited. */
    method OpenAdd()
      requires Valid()
      modifies this
      ensures Valid() && showAddModal && editingEquipment == old(editingEquipment)
      ensures searchTerm == old(searchTerm) && statusFilter == old(statusFilter) && categoryFilter == old(categoryFilter)
      ensures showEquipmentModal == old(showEquipmentModal) && showEquipment == old(showEquipment)
    {
      showAddModal := true;
    }

    /** `handleEdit`. */
    method Edit(e: Equipment)
      modifies this
      ensures Valid() && showAddModal && editingEquipment == Some(e)
      ensures searchTerm == old(searchTerm) && statusFilter == old(statusFilter) && categoryFilter == old(categoryFilter)
      ensures showEquipmentModal == old(showEquipmentModal) && showEquipment == old(showEquipment)
    {
      editingEquipment := Some(e);
      showAddModal := true;
    }

    /** `handleShow`. */
    method Show(e: Equipment)
      modifies this
      ensures showEquipmentModal && showEquipment == Some(e)
      ensures showAddModal == old(showAddModal) && editingEquipment == old(editingEquipment)
      ensures searchTerm == old(searchTerm) && statusFilter == old(statusFilter) && categoryFilter == old(categoryFilter)
    {
      showEquipment := Some(e);
      showEquipmentModal := true;
    }

    /** `handleShowClose`. */
    method ShowClose()
      modifies this
      ensures !showEquipmentModal && showEquipment.None?
      ensures showAddModal == old(showAddModal) && editingEquipment == old(editingEquipment)
      ensures searchTerm == old(searchTerm) && statusFilter == old(statusFilter) && categoryFilter == old(categoryFilter)
    {
      showEquipment := None;
      showEquipmentModal := false;
    }

    /** `handleModalClose`. */
    method ModalClose()
      modifies this
      ensures Valid() && !showAddModal && editingEquipment.None?
      ensures searchTerm == old(searchTerm) && statusFilter == old(statusFilter) && categoryFilter == old(categoryFilter)
      ensures showEquipmentModal == old(showEquipmentModal) && showEquipment == old(showEquipment)
    {
      showAddModal := false;
      editingEquipment := None;
    }

    /** `handleModalSubmit`: an item being edited is updated, otherwise the record
        is added; either way the form closes and nothing is being edited. */
    method ModalSubmit(e: Equipment) returns (call: Callback)
      modifies this
      ensures old(editingEquipment).Some? ==> call == UpdateCall(e)
      ensures old(editingEquipment).None? ==> call == AddCall(e)
      ensures Valid() && !showAddModal && editingEquipment.None?
      ensures searchTerm == old(searchTerm) && statusFilter == old(statusFilter) && categoryFilter == old(categoryFilter)
      ensures showEquipmentModal == old(showEquipmentModal) && showEquipment == old(showEquipment)
    {
      if editingEquipment.Some? {
        call := UpdateCall(e);
      } else {
        call := AddCall(e);
      }
      ModalClose();
    }
  }

  /** Editing an item and submitting the form updates; the next submission after
      Add Equipment adds. */
  method EditThenAdd(page: EquipmentPageState, item: Equipment, edited: Equipment, added: Equipment)
    returns (first: Callback, second: Callback)
    modifies page
    ensures first == UpdateCall(edited) && second == AddCall(added)
    ensures page.Valid() && !page.showAddModal
  {
    page.Edit(item);
    first := page.ModalSubmit(edited);
    page.OpenAdd();
    second := page.ModalSubmit(added);
  }
}
