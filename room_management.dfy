/** src/components/AddRoomManagement.tsx: the room and bed editor. The rooms
    (each with its beds), the room input, the id of the room being edited, the
    search text and the per-room bed inputs are the state; every handler rewrites
    the nested room -> beds list. `Date.now()` ids are a parameter. */
module RoomManagement {
  import opened Types
  import opened Strings
  import opened Seqs

  /** `isEditing?` is read only for its truthiness, so an absent flag is `false`. */
  datatype Bed = Bed(id: int, name: string, isEditing: bool)

  datatype Room = Room(id: int, name: string, beds: seq<Bed>, active: bool, isEditing: bool)

  /** `rooms.find(r => r.id === id)`: the first room with the id. */
  function FindRoom(rooms: seq<Room>, id: int): (r: Option<Room>)
    ensures r.Some? ==> r.value in rooms && r.value.id == id
    ensures r.None? ==> forall i :: 0 <= i < |rooms| ==> rooms[i].id != id
    ensures r.Some? ==> exists k :: (0 <= k < |rooms| && rooms[k] == r.value
      && forall j :: 0 <= j < k ==> rooms[j].id != id)
  {
    if rooms == [] then None
    else if rooms[0].id == id then Some(rooms[0])
    else
      var r := FindRoom(rooms[1..], id);
      if r.Some? then
        var k :| 0 <= k < |rooms[1..]| && rooms[1..][k] == r.value
          && forall j :: 0 <= j < k ==> rooms[1..][j].id != id;
        assert rooms[k + 1] == r.value;
        r
      else r
  }

  /** `room.beds.find(b => b.id === bedId)`: the first bed with the id. */
  function FindBed(beds: seq<Bed>, id: int): (r: Option<Bed>)
    ensures r.Some? ==> r.value in beds && r.value.id == id
    ensures r.None? ==> forall i :: 0 <= i < |beds| ==> beds[i].id != id
    ensures r.Some? ==> exists k :: (0 <= k < |beds| && beds[k] == r.value
      && forall j :: 0 <= j < k ==> beds[j].id != id)
  {
    if beds == [] then None
    else if beds[0].id == id then Some(beds[0])
    else
      var r := FindBed(beds[1..], id);
      if r.Some? then
        var k :| 0 <= k < |beds[1..]| && beds[1..][k] == r.value
          && forall j :: 0 <= j < k ==> beds[1..][j].id != id;
        assert beds[k + 1] == r.value;
        r
      else r
  }

  // ---------------------------------------------------------------------------
  // Room-level rewrites

  /** The rename in `handleAddRoom` (edit mode) and `handleSaveRoomEdit`. */
  function RoomRenamed(rooms: seq<Room>, id: int, name: string): (r: seq<Room>)
    ensures |r| == |rooms|
  {
    seq(|rooms|, i requires 0 <= i < |rooms| =>
      if rooms[i].id == id then rooms[i].(name := name, isEditing := false) else rooms[i])
  }

  /** The rewrite in `handleEditRoom`. */
  function EditingMarked(rooms: seq<Room>, id: int): (r: seq<Room>)
    ensures |r| == |rooms|
  {
    seq(|rooms|, i requires 0 <= i < |rooms| => rooms[i].(isEditing := rooms[i].id == id))
  }

  /** The rewrite in `handleCancelRoomEdit`. */
  function EditingCleared(rooms: seq<Room>): (r: seq<Room>)
    ensures |r| == |rooms|
  {
    seq(|rooms|, i requires 0 <= i < |rooms| => rooms[i].(isEditing := false))
  }

  function RoomToggled(rooms: seq<Room>, id: int): (r: seq<Room>)
    ensures |r| == |rooms|
  {
    seq(|rooms|, i requires 0 <= i < |rooms| =>
      if rooms[i].id == id then rooms[i].(active := !rooms[i].active) else rooms[i])
  }

  function RoomIdIsNot(id: int): Room -> bool
  {
    (r: Room) => r.id != id
  }

  /** `rooms.filter(r => r.id !== id)`. */
  function WithoutRoom(rooms: seq<Room>, id: int): seq<Room>
  {
    Filter(rooms, RoomIdIsNot(id))
  }

  /** `filteredRooms`. */
  function FilteredRooms(rooms: seq<Room>, search: string): seq<Room>
  {
    Filter(rooms, (r: Room) => ContainsIgnoreCase(r.name, search))
  }

  /** A rename changes only the rooms with that id, and of them only the name
      (and the editing flag, which it clears); beds and flags stay. */
  lemma {:induction false} RoomRenamedSpec(rooms: seq<Room>, id: int, name: string)
    ensures forall i :: 0 <= i < |rooms| && rooms[i].id != id ==> RoomRenamed(rooms, id, name)[i] == rooms[i]
    ensures forall i :: 0 <= i < |rooms| && rooms[i].id == id ==>
      var r := RoomRenamed(rooms, id, name)[i];
      r.name == name && !r.isEditing && r.id == id && r.beds == rooms[i].beds && r.active == rooms[i].active
  {
  }

  /** After an edit starts, exactly the rooms with that id are marked as editing,
      and nothing else of any room changes. */
  lemma {:induction false} EditingMarkedSpec(rooms: seq<Room>, id: int)
    ensures forall i :: 0 <= i < |rooms| ==> (EditingMarked(rooms, id)[i].isEditing <==> rooms[i].id == id)
    ensures forall i :: 0 <= i < |rooms| ==>
      EditingMarked(rooms, id)[i].(isEditing := rooms[i].isEditing) == rooms[i]
  {
  }

  /** Cancel leaves no room marked, and changes nothing else. */
  lemma {:induction false} EditingClearedSpec(rooms: seq<Room>)
    ensures forall i :: 0 <= i < |rooms| ==> !EditingCleared(rooms)[i].isEditing
    ensures forall i :: 0 <= i < |rooms| ==>
      EditingCleared(rooms)[i].(isEditing := rooms[i].isEditing) == rooms[i]
  {
  }

  /** A toggle flips only the flag of the rooms with that id; toggling twice
      gives the list back. */
  lemma {:induction false} RoomToggledSpec(rooms: seq<Room>, id: int)
    ensures forall i :: 0 <= i < |rooms| && rooms[i].id != id ==> RoomToggled(rooms, id)[i] == rooms[i]
    ensures forall i :: 0 <= i < |rooms| && rooms[i].id == id ==>
      RoomToggled(rooms, id)[i] == rooms[i].(active := !rooms[i].active)
    ensures RoomToggled(RoomToggled(rooms, id), id) == rooms
  {
    var t := RoomToggled(RoomToggled(rooms, id), id);
    forall i | 0 <= i < |rooms| ensures t[i] == rooms[i] {
    }
  }

  /** Deleting a room takes it out with all its beds: no room with that id is
      left, and the rest keep their order. */
  lemma {:induction false} WithoutRoomSpec(rooms: seq<Room>, id: int)
    ensures IsSubsequence(WithoutRoom(rooms, id), rooms)
    ensures forall r :: r in WithoutRoom(rooms, id) <==> r in rooms && r.id != id
  {
    FilterSpec(rooms, RoomIdIsNot(id));
  }

  /** The shown rooms are those whose name contains the search text, ignoring
      case, in their order; an empty search shows them all. */
  lemma {:induction false} FilteredRoomsSpec(rooms: seq<Room>, search: string)
    ensures IsSubsequence(FilteredRooms(rooms, search), rooms)
    ensures forall r :: r in FilteredRooms(rooms, search) <==> r in rooms && ContainsIgnoreCase(r.name, search)
    ensures FilteredRooms(rooms, "") == rooms
  {
    FilterSpec(rooms, (r: Room) => ContainsIgnoreCase(r.name, search));
    forall k | 0 <= k < |rooms| ensures ContainsIgnoreCase(rooms[k].name, "") {
      ContainsIgnoreCaseEmpty(rooms[k].name);
    }
    FilterAll(rooms, (r: Room) => ContainsIgnoreCase(r.name, ""));
  }

  // ---------------------------------------------------------------------------
  // Bed-level rewrites: each bed handler maps one change over the beds of the
  // rooms with the given id.

  datatype BedChange =
    | AppendBed(bed: Bed)                  // handleAddBed
    | MarkBed(bedId: int)                  // handleEditBed
    | RenameBed(bedId: int, name: string)  // handleSaveBedEdit
    | EndBedEdit(bedId: int)               // handleCancelBedEdit
    | DropBed(bedId: int)                  // handleDeleteBed

  function BedIdIsNot(id: int): Bed -> bool
  {
    (b: Bed) => b.id != id
  }

  function ChangedBeds(beds: seq<Bed>, c: BedChange): seq<Bed>
  {
    match c
    case AppendBed(bed) => beds + [bed]
    case MarkBed(bedId) => seq(|beds|, i requires 0 <= i < |beds| => beds[i].(isEditing := beds[i].id == bedId))
    case RenameBed(bedId, name) =>
      seq(|beds|, i requires 0 <= i < |beds| =>
        if beds[i].id == bedId then beds[i].(name := name, isEditing := false) else beds[i])
    case EndBedEdit(bedId) =>
      seq(|beds|, i requires 0 <= i < |beds| => if beds[i].id == bedId then beds[i].(isEditing := false) else beds[i])
    case DropBed(bedId) => Filter(beds, BedIdIsNot(bedId))
  }

  function WithBedChange(rooms: seq<Room>, roomId: int, c: BedChange): (r: seq<Room>)
    ensures |r| == |rooms|
  {
    seq(|rooms|, i requires 0 <= i < |rooms| =>
      if rooms[i].id == roomId then rooms[i].(beds := ChangedBeds(rooms[i].beds, c)) else rooms[i])
  }

  /** A bed change stays inside its own room: other rooms are untouched, and the
      room itself keeps its id, name and flags. */
  lemma {:induction false} BedChangeStaysInRoom(rooms: seq<Room>, roomId: int, c: BedChange)
    ensures forall i :: 0 <= i < |rooms| && rooms[i].id != roomId ==> WithBedChange(rooms, roomId, c)[i] == rooms[i]
    ensures forall i :: 0 <= i < |rooms| ==> WithBedChange(rooms, roomId, c)[i].(beds := rooms[i].beds) == rooms[i]
  {
  }

  /** What each change does to the beds of its room. */
  lemma {:induction false} ChangedBedsSpec(beds: seq<Bed>, c: BedChange)
    ensures c.AppendBed? ==> ChangedBeds(beds, c) == beds + [c.bed]
    ensures c.RenameBed? ==> (
      && |ChangedBeds(beds, c)| == |beds|
      && (forall i :: 0 <= i < |beds| && beds[i].id != c.bedId ==> ChangedBeds(beds, c)[i] == beds[i])
      && (forall i :: 0 <= i < |beds| && beds[i].id == c.bedId ==>
            ChangedBeds(beds, c)[i] == Bed(c.bedId, c.name, false)))
    ensures c.MarkBed? ==> (
      && |ChangedBeds(beds, c)| == |beds|
      && (forall i :: 0 <= i < |beds| ==> (ChangedBeds(beds, c)[i].isEditing <==> beds[i].id == c.bedId))
      && (forall i :: 0 <= i < |beds| ==> ChangedBeds(beds, c)[i].(isEditing := beds[i].isEditing) == beds[i]))
    ensures c.EndBedEdit? ==> (
      && |ChangedBeds(beds, c)| == |beds|
      && (forall i :: 0 <= i < |beds| && beds[i].id == c.bedId ==> !ChangedBeds(beds, c)[i].isEditing)
      && (forall i :: 0 <= i < |beds| ==> ChangedBeds(beds, c)[i].(isEditing := beds[i].isEditing) == beds[i]))
    ensures c.DropBed? ==> (
      && IsSubsequence(ChangedBeds(beds, c), beds)
      && forall b :: b in ChangedBeds(beds, c) <==> b in beds && b.id != c.bedId)
  {
    if c.DropBed? {
      FilterSpec(beds, BedIdIsNot(c.bedId));
    }
  }

  /** Deleting a bed just added under an unused id gives the beds back. */
  lemma {:induction false} DropAfterAppend(beds: seq<Bed>, bed: Bed)
    requires forall b :: b in beds ==> b.id != bed.id
    ensures ChangedBeds(ChangedBeds(beds, AppendBed(bed)), DropBed(bed.id)) == beds
  {
    forall k | 0 <= k < |beds| ensures BedIdIsNot(bed.id)(beds[k]) {
      assert beds[k] in beds;
    }
    FilterAppend(beds, [bed], BedIdIsNot(bed.id));
    FilterAll(beds, BedIdIsNot(bed.id));
    assert Filter([bed], BedIdIsNot(bed.id)) == [];
  }

  // ---------------------------------------------------------------------------
  // The inputs

  /** `{ ...(editBedInputs[roomId] || {}), [bedId]: value }` put back under roomId. */
  function WithBedText(m: map<int, map<int, string>>, roomId: int, bedId: int, value: string): map<int, map<int, string>>
  {
    m[roomId := (if roomId in m then m[roomId] else map[])[bedId := value]]
  }

  /** `editBedInputs[roomId]?.[bedId]?.trim()` is truthy. */
  predicate HasBedText(m: map<int, map<int, string>>, roomId: int, bedId: int)
  {
    roomId in m && bedId in m[roomId] && !IsBlank(m[roomId][bedId])
  }

  /** Setting one bed's text keeps every other room's and every other bed's text. */
  lemma {:induction false} WithBedTextSpec(m: map<int, map<int, string>>, roomId: int, bedId: int, value: string)
    ensures roomId in WithBedText(m, roomId, bedId, value)
    ensures WithBedText(m, roomId, bedId, value)[roomId][bedId] == value
    ensures forall r :: r in m && r != roomId ==>
      r in WithBedText(m, roomId, bedId, value) && WithBedText(m, roomId, bedId, value)[r] == m[r]
    ensures forall b :: roomId in m && b in m[roomId] && b != bedId ==>
      b in WithBedText(m, roomId, bedId, value)[roomId] && WithBedText(m, roomId, bedId, value)[roomId][b] == m[roomId][b]
  {
  }

  class RoomEditor {
    var rooms: seq<Room>
    var roomInput: string
    var editRoomId: Option<int>
    var search: string
    var bedInputs: map<int, string>
    var editBedInputs: map<int, map<int, string>>

    constructor ()
      ensures rooms == [] && roomInput == "" && editRoomId.None? && search == ""
      ensures bedInputs == map[] && editBedInputs == map[]
    {
      rooms := [];
      roomInput := "";
      editRoomId := None;
      search := "";
      bedInputs := map[];
      editBedInputs := map[];
    }

    method SetRoomInput(text: string)
      modifies this
      ensures roomInput == text
      ensures rooms == old(rooms) && editRoomId == old(editRoomId) && search == old(search)
      ensures bedInputs == old(bedInputs) && editBedInputs == old(editBedInputs)
    {
      roomInput := text;
    }

    method SetSearch(text: string)
      modifies this
      ensures search == text
      ensures rooms == old(rooms) && roomInput == old(roomInput) && editRoomId == old(editRoomId)
      ensures bedInputs == old(bedInputs) && editBedInputs == old(editBedInputs)
    {
      search := text;
    }

    /** `handleAddRoom`: a blank input does nothing; in edit mode the edited room
        is renamed and edit mode ends; otherwise an active room with no beds is
        appended. Any add that happens empties the input. */
    method AddRoom(freshId: int)
      modifies this
      ensures IsBlank(old(roomInput)) ==>
        rooms == old(rooms) && roomInput == old(roomInput) && editRoomId == old(editRoomId)
      ensures !IsBlank(old(roomInput)) && old(editRoomId).Some? ==>
        rooms == RoomRenamed(old(rooms), old(editRoomId).value, old(roomInput))
      ensures !IsBlank(old(roomInput)) && old(editRoomId).None? ==>
        rooms == old(rooms) + [Room(freshId, old(roomInput), [], true, false)]
      ensures !IsBlank(old(roomInput)) ==> roomInput == "" && editRoomId.None?
      ensures search == old(search) && bedInputs == old(bedInputs) && editBedInputs == old(editBedInputs)
    {
      if IsBlank(roomInput) {
        return;
      }
      if editRoomId.Some? {
        rooms := RoomRenamed(rooms, editRoomId.value, roomInput);
        editRoomId := None;
      } else {
        rooms := rooms + [Room(freshId, roomInput, [], true, false)];
      }
      roomInput := "";
    }

    /** `handleEditRoom`: only a listed room enters edit mode; its name goes to
        the input and it alone is marked. */
    method EditRoom(id: int)
      modifies this
      ensures FindRoom(old(rooms), id).Some? ==>
        roomInput == FindRoom(old(rooms), id).value.name && editRoomId == Some(id)
        && rooms == EditingMarked(old(rooms), id)
      ensures FindRoom(old(rooms), id).None? ==>
        roomInput == old(roomInput) && editRoomId == old(editRoomId) && rooms == old(rooms)
      ensures search == old(search) && bedInputs == old(bedInputs) && editBedInputs == old(editBedInputs)
    {
      var room := FindRoom(rooms, id);
      if room.Some? {
        roomInput := room.value.name;
        editRoomId := Some(id);
        rooms := EditingMarked(rooms, id);
      }
    }

    /** `handleSaveRoomEdit`: renames with the input as it stands, with no
        blank check. */
    method SaveRoomEdit(id: int)
      modifies this
      ensures rooms == RoomRenamed(old(rooms), id, old(roomInput))
      ensures editRoomId.None? && roomInput == ""
      ensures search == old(search) && bedInputs == old(bedInputs) && editBedInputs == old(editBedInputs)
    {
      rooms := RoomRenamed(rooms, id, roomInput);
      editRoomId := None;
      roomInput := "";
    }

    /** `handleCancelRoomEdit`. */
    method CancelRoomEdit()
      modifies this
      ensures editRoomId.None? && roomInput == "" && rooms == EditingCleared(old(rooms))
      ensures search == old(search) && bedInputs == old(bedInputs) && editBedInputs == old(editBedInputs)
    {
      editRoomId := None;
      roomInput := "";
      rooms := EditingCleared(rooms);
    }

    /** `handleDeleteRoom`. */
    method DeleteRoom(id: int)
      modifies this
      ensures rooms == WithoutRoom(old(rooms), id)
      ensures roomInput == old(roomInput) && editRoomId == old(editRoomId) && search == old(search)
      ensures bedInputs == old(bedInputs) && editBedInputs == old(editBedInputs)
    {
      rooms := WithoutRoom(rooms, id);
    }

    /** `handleToggleRoom`. */
    method ToggleRoom(id: int)
      modifies this
      ensures rooms == RoomToggled(old(rooms), id)
      ensures roomInput == old(roomInput) && editRoomId == old(editRoomId) && search == old(search)
      ensures bedInputs == old(bedInputs) && editBedInputs == old(editBedInputs)
    {
      rooms := RoomToggled(rooms, id);
    }

    /** `handleBedInputChange`. */
    method BedInputChange(roomId: int, value: string)
      modifies this
      ensures bedInputs == old(bedInputs)[roomId := value]
      ensures rooms == old(rooms) && roomInput == old(roomInput) && editRoomId == old(editRoomId)
      ensures search == old(search) && editBedInputs == old(editBedInputs)
    {
      bedInputs := bedInputs[roomId := value];
    }

    /** `handleAddBed`: needs a room input that is not blank; the trimmed name is
        appended to that room's beds and the room's input is emptied. */
    method AddBed(roomId: int, freshId: int)
      modifies this
      ensures !(roomId in old(bedInputs) && !IsBlank(old(bedInputs)[roomId])) ==>
        rooms == old(rooms) && bedInputs == old(bedInputs)
      ensures roomId in old(bedInputs) && !IsBlank(old(bedInputs)[roomId]) ==>
        rooms == WithBedChange(old(rooms), roomId, AppendBed(Bed(freshId, Trim(old(bedInputs)[roomId]), false)))
        && bedInputs == old(bedInputs)[roomId := ""]
      ensures roomInput == old(roomInput) && editRoomId == old(editRoomId)
      ensures search == old(search) && editBedInputs == old(editBedInputs)
    {
      if !(roomId in bedInputs && !IsBlank(bedInputs[roomId])) {
        return;
      }
      var bedName := Trim(bedInputs[roomId]);
      rooms := WithBedChange(rooms, roomId, AppendBed(Bed(freshId, bedName, false)));
      bedInputs := bedInputs[roomId := ""];
    }

    /** `handleEditBed`: only a listed bed of a listed room; its name goes to the
        bed's edit text and it alone, in that room, is marked. */
    method EditBed(roomId: int, bedId: int)
      modifies this
      ensures var room := FindRoom(old(rooms), roomId);
        var bed := if room.Some? then FindBed(room.value.beds, bedId) else None;
        && (bed.Some? ==> (
              && editBedInputs == WithBedText(old(editBedInputs), roomId, bedId, bed.value.name)
              && rooms == WithBedChange(old(rooms), roomId, MarkBed(bedId))))
        && (bed.None? ==> editBedInputs == old(editBedInputs) && rooms == old(rooms))
      ensures roomInput == old(roomInput) && editRoomId == old(editRoomId)
      ensures search == old(search) && bedInputs == old(bedInputs)
    {
      var room := FindRoom(rooms, roomId);
      if room.None? {
        return;
      }
      var bed := FindBed(room.value.beds, bedId);
      if bed.None? {
        return;
      }
      editBedInputs := WithBedText(editBedInputs, roomId, bedId, bed.value.name);
      rooms := WithBedChange(rooms, roomId, MarkBed(bedId));
    }

    /** `handleSaveBedEdit`: needs edit text that is not blank; the bed takes the
        trimmed text and its edit text is emptied. */
    method SaveBedEdit(roomId: int, bedId: int)
      modifies this
      ensures !HasBedText(old(editBedInputs), roomId, bedId) ==>
        rooms == old(rooms) && editBedInputs == old(editBedInputs)
      ensures HasBedText(old(editBedInputs), roomId, bedId) ==>
        rooms == WithBedChange(old(rooms), roomId, RenameBed(bedId, Trim(old(editBedInputs)[roomId][bedId])))
        && editBedInputs == WithBedText(old(editBedInputs), roomId, bedId, "")
      ensures roomInput == old(roomInput) && editRoomId == old(editRoomId)
      ensures search == old(search) && bedInputs == old(bedInputs)
    {
      if !HasBedText(editBedInputs, roomId, bedId) {
        return;
      }
      var newName := Trim(editBedInputs[roomId][bedId]);
      rooms := WithBedChange(rooms, roomId, RenameBed(bedId, newName));
      editBedInputs := WithBedText(editBedInputs, roomId, bedId, "");
    }

    /** `handleCancelBedEdit`. */
    method CancelBedEdit(roomId: int, bedId: int)
      modifies this
      ensures rooms == WithBedChange(old(rooms), roomId, EndBedEdit(bedId))
      ensures editBedInputs == WithBedText(old(editBedInputs), roomId, bedId, "")
      ensures roomInput == old(roomInput) && editRoomId == old(editRoomId)
      ensures search == old(search) && bedInputs == old(bedInputs)
    {
      rooms := WithBedChange(rooms, roomId, EndBedEdit(bedId));
      editBedInputs := WithBedText(editBedInputs, roomId, bedId, "");
    }

    /** `handleDeleteBed`. */
    method DeleteBed(roomId: int, bedId: int)
      modifies this
      ensures rooms == WithBedChange(old(rooms), roomId, DropBed(bedId))
      ensures roomInput == old(roomInput) && editRoomId == old(editRoomId) && search == old(search)
      ensures bedInputs == old(bedInputs) && editBedInputs == old(editBedInputs)
    {
      rooms := WithBedChange(rooms, roomId, DropBed(bedId));
    }

    function Shown(): seq<Room>
      reads this
    {
      FilteredRooms(rooms, search)
    }
  }

  /** A bed typed for one room lands, trimmed, at the end of that room's beds;
      every other room is left as it was. */
  method AddBedOnlyThere(editor: RoomEditor, roomId: int, text: string, freshId: int)
    requires !IsBlank(text)
    modifies editor
    ensures |editor.rooms| == |old(editor.rooms)|
    ensures forall i :: 0 <= i < |editor.rooms| && old(editor.rooms)[i].id != roomId ==>
      editor.rooms[i] == old(editor.rooms)[i]
    ensures forall i :: 0 <= i < |editor.rooms| && old(editor.rooms)[i].id == roomId ==>
      editor.rooms[i].beds == old(editor.rooms)[i].beds + [Bed(freshId, Trim(text), false)]
    ensures roomId in editor.bedInputs && editor.bedInputs[roomId] == ""
  {
    editor.BedInputChange(roomId, text);
    editor.AddBed(roomId, freshId);
    BedChangeStaysInRoom(old(editor.rooms), roomId, AppendBed(Bed(freshId, Trim(text), false)));
  }
}
