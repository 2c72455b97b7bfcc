/** src/components/ManagementTemplate.tsx: a generic list editor. The items, the
    text input, the search text and the id of the item being edited are the
    state; each handler rewrites some of them. `Date.now()` ids are a parameter. */
module ManagementTemplate {
  import opened Types
  import opened Strings
  import opened Seqs

  datatype Item = Item(id: int, name: string, active: bool)

  /** `items.find(i => i.id === id)`: the first item with that id. */
  function FindItem(items: seq<Item>, id: int): (r: Option<Item>)
    ensures r.Some? ==> r.value in items && r.value.id == id
    ensures r.None? ==> forall i :: 0 <= i < |items| ==> items[i].id != id
    ensures r.Some? ==> exists k :: (0 <= k < |items| && items[k] == r.value
      && forall j :: 0 <= j < k ==> items[j].id != id)
  {
    if items == [] then None
    else if items[0].id == id then Some(items[0])
    else
      var r := FindItem(items[1..], id);
      if r.Some? then
        var k :| 0 <= k < |items[1..]| && items[1..][k] == r.value
          && forall j :: 0 <= j < k ==> items[1..][j].id != id;
        assert items[k + 1] == r.value;
        r
      else r
  }

  /** `items.map(item => item.id === editId ? { ...item, name: input } : item)`. */
  function Renamed(items: seq<Item>, id: int, name: string): (r: seq<Item>)
    ensures |r| == |items|
  {
    seq(|items|, i requires 0 <= i < |items| => if items[i].id == id then items[i].(name := name) else items[i])
  }

  /** `items.map(i => i.id === id ? { ...i, active: !i.active } : i)`. */
  function Toggled(items: seq<Item>, id: int): (r: seq<Item>)
    ensures |r| == |items|
  {
    seq(|items|, i requires 0 <= i < |items| => if items[i].id == id then items[i].(active := !items[i].active) else items[i])
  }

  function IdIsNot(id: int): Item -> bool
  {
    (i: Item) => i.id != id
  }

  /** `items.filter(i => i.id !== id)`. */
  function WithoutItem(items: seq<Item>, id: int): seq<Item>
  {
    Filter(items, IdIsNot(id))
  }

  /** `filteredItems`. */
  function FilteredItems(items: seq<Item>, search: string): seq<Item>
  {
    Filter(items, (i: Item) => ContainsIgnoreCase(i.name, search))
  }

  /** A rename touches only the names of the items with that id: ids, flags and
      every other item stay. */
  lemma {:induction false} RenamedSpec(items: seq<Item>, id: int, name: string)
    ensures forall i :: 0 <= i < |items| ==>
      Renamed(items, id, name)[i].id == items[i].id && Renamed(items, id, name)[i].active == items[i].active
    ensures forall i :: 0 <= i < |items| && items[i].id == id ==> Renamed(items, id, name)[i].name == name
    ensures forall i :: 0 <= i < |items| && items[i].id != id ==> Renamed(items, id, name)[i] == items[i]
  {
  }

  /** A toggle flips only the flag of the items with that id, and toggling twice
      gives the list back. */
  lemma {:induction false} ToggledSpec(items: seq<Item>, id: int)
    ensures forall i :: 0 <= i < |items| && items[i].id == id ==>
      Toggled(items, id)[i] == items[i].(active := !items[i].active)
    ensures forall i :: 0 <= i < |items| && items[i].id != id ==> Toggled(items, id)[i] == items[i]
    ensures Toggled(Toggled(items, id), id) == items
  {
    var t := Toggled(Toggled(items, id), id);
    forall i | 0 <= i < |items| ensures t[i] == items[i] {
    }
  }

  /** A delete keeps, in order, exactly the items with another id. */
  lemma {:induction false} WithoutItemSpec(items: seq<Item>, id: int)
    ensures IsSubsequence(WithoutItem(items, id), items)
    ensures forall it :: it in WithoutItem(items, id) <==> it in items && it.id != id
    ensures (forall it :: it in items ==> it.id != id) ==> WithoutItem(items, id) == items
  {
    FilterSpec(items, IdIsNot(id));
    if forall it :: it in items ==> it.id != id {
      forall k | 0 <= k < |items| ensures IdIsNot(id)(items[k]) {
        assert items[k] in items;
      }
      FilterAll(items, IdIsNot(id));
    }
  }

  /** The shown list is the order-preserving subsequence of the items whose name
      contains the search text, ignoring case; an empty search shows them all. */
  lemma {:induction false} FilteredItemsSpec(items: seq<Item>, search: string)
    ensures IsSubsequence(FilteredItems(items, search), items)
    ensures forall it :: it in FilteredItems(items, search) <==> it in items && ContainsIgnoreCase(it.name, search)
    ensures FilteredItems(items, "") == items
  {
    FilterSpec(items, (i: Item) => ContainsIgnoreCase(i.name, search));
    forall k | 0 <= k < |items| ensures ContainsIgnoreCase(items[k].name, "") {
      ContainsIgnoreCaseEmpty(items[k].name);
    }
    FilterAll(items, (i: Item) => ContainsIgnoreCase(i.name, ""));
  }

  class ItemEditor {
    var items: seq<Item>
    var input: string
    var search: string
    var editId: Option<int>

    constructor ()
      ensures items == [] && input == "" && search == "" && editId.None?
    {
      items := [];
      input := "";
      search := "";
      editId := None;
    }

    method SetInput(text: string)
      modifies this
      ensures input == text
      ensures items == old(items) && search == old(search) && editId == old(editId)
    {
      input := text;
    }

    method SetSearch(text: string)
      modifies this
      ensures search == text
      ensures items == old(items) && input == old(input) && editId == old(editId)
    {
      search := text;
    }

    /** `handleAdd`: a blank input does nothing; in edit mode the edited item
        takes the input as typed (untrimmed) and edit mode ends; otherwise a new
        active item is appended. Any add that happens empties the input. */
    method Add(freshId: int)
      modifies this
      ensures IsBlank(old(input)) ==>
        items == old(items) && input == old(input) && editId == old(editId)
      ensures !IsBlank(old(input)) && old(editId).Some? ==>
        items == Renamed(old(items), old(editId).value, old(input))
      ensures !IsBlank(old(input)) && old(editId).None? ==>
        items == old(items) + [Item(freshId, old(input), true)]
      ensures !IsBlank(old(input)) ==> input == "" && editId.None?
      ensures search == old(search)
    {
      if IsBlank(input) {
        return;
      }
      if editId.Some? {
        items := Renamed(items, editId.value, input);
        editId := None;
      } else {
        items := items + [Item(freshId, input, true)];
      }
      input := "";
    }

    /** `handleEdit`: only an id that is listed enters edit mode, with the input
        set to that item's name. */
    method Edit(id: int)
      modifies this
      ensures FindItem(old(items), id).Some? ==>
        input == FindItem(old(items), id).value.name && editId == Some(id)
      ensures FindItem(old(items), id).None? ==> input == old(input) && editId == old(editId)
      ensures items == old(items) && search == old(search)
    {
      var item := FindItem(items, id);
      if item.Some? {
        input := item.value.name;
        editId := Some(id);
      }
    }

    /** `handleDelete`. */
    method Delete(id: int)
      modifies this
      ensures items == WithoutItem(old(items), id)
      ensures input == old(input) && search == old(search) && editId == old(editId)
    {
      items := WithoutItem(items, id);
    }

    /** `handleToggle`. */
    method Toggle(id: int)
      modifies this
      ensures items == Toggled(old(items), id)
      ensures input == old(input) && search == old(search) && editId == old(editId)
    {
      items := Toggled(items, id);
    }

    /** `handleReset`: leaves edit mode and empties the input; the items stay. */
    method Reset()
      modifies this
      ensures input == "" && editId.None?
      ensures items == old(items) && search == old(search)
    {
      input := "";
      editId := None;
    }

    function Shown(): seq<Item>
      reads this
    {
      FilteredItems(items, search)
    }
  }

  /** Adding a new item keeps every existing one in place and puts the new one,
      active, at the end. */
  method AddAppends(editor: ItemEditor, freshId: int)
    requires !IsBlank(editor.input) && editor.editId.None?
    modifies editor
    ensures |editor.items| == |old(editor.items)| + 1
    ensures editor.items[..|old(editor.items)|] == old(editor.items)
    ensures editor.items[|old(editor.items)|] == Item(freshId, old(editor.input), true)
    ensures editor.input == ""
  {
    editor.Add(freshId);
  }

  /** Editing an item and adding again renames that item and nothing else: the
      list keeps its length and ids. */
  method EditThenAdd(editor: ItemEditor, id: int, text: string, freshId: int)
    requires FindItem(editor.items, id).Some? && !IsBlank(text)
    modifies editor
    ensures editor.items == Renamed(old(editor.items), id, text)
    ensures |editor.items| == |old(editor.items)|
    ensures forall i :: 0 <= i < |editor.items| ==> editor.items[i].id == old(editor.items)[i].id
    ensures editor.editId.None? && editor.input == ""
  {
    editor.Edit(id);
    editor.SetInput(text);
    editor.Add(freshId);
    RenamedSpec(old(editor.items), id, text);
  }
}
