/** src/components/AddTicketModal.tsx: the "Raise New Ticket" form. The form
    values and the error dictionary are the fields of a class; validation fills
    a fresh error map one check at a time, submission builds the new ticket from
    the form, and editing a field clears that field's error. */
module AddTicket {
  import opened Types
  import opened Strings
  import opened Forms

  /** The keys of the form (and of its error dictionary). */
  datatype Field = Title | Description | CategoryField | PriorityField | CreatedBy
                 | Department | EquipmentField | AssignedToField

  datatype FormData = FormData(
    title: string,
    description: string,
    category: Category,
    priority: Priority,
    status: TicketStatus,
    createdBy: string,
    department: string,
    equipmentId: string,
    assignedTo: string)

  /** The form's initial values. */
  const DefaultForm := FormData("", "", OtherCategory, Medium, Open, "", "", "", "")

  /** A field's value as the form holds it. */
  function FieldValue(d: FormData, f: Field): string
  {
    match f
    case Title => d.title
    case Description => d.description
    case CategoryField => CategoryLabel(d.category)
    case PriorityField => PriorityLabel(d.priority)
    case CreatedBy => d.createdBy
    case Department => d.department
    case EquipmentField => d.equipmentId
    case AssignedToField => d.assignedTo
  }

  // ---------------------------------------------------------------------------
  // Validation

  function Message(f: Field): string
  {
    match f
    case Title => "Title is required"
    case Description => "Description is required"
    case CreatedBy => "Reporter name is required"
    case Department => "Department is required"
    case _ => ""
  }

  /** Whether a field's check fails; only four fields are checked. */
  predicate Fails(d: FormData, f: Field)
  {
    match f
    case Title => IsBlank(d.title)
    case Description => IsBlank(d.description)
    case CreatedBy => IsBlank(d.createdBy)
    case Department => d.department == ""
    case _ => false
  }

  const Checked := {Title, Description, CreatedBy, Department}

  /** The messages of the failing checks among `fields`. */
  function ErrorsAmong(d: FormData, fields: set<Field>): map<Field, string>
  {
    map f | f in fields && Fails(d, f) :: Message(f)
  }

  /** A check run after those of `fields` gives the dictionary of `fields` and
      its own field. */
  lemma {:induction false} AddedGrows(d: FormData, fields: set<Field>, f: Field)
    ensures Added(ErrorsAmong(d, fields), Fails(d, f), f, Message(f)) == ErrorsAmong(d, fields + {f})
  {
  }

  /** The reference error dictionary: one message for each failing field. */
  function FormErrors(d: FormData): map<Field, string>
  {
    ErrorsAmong(d, Checked)
  }

  /** The dictionary `validateForm` builds: title, description, reporter and
      department checked in turn. */
  function InOrder(d: FormData): map<Field, string>
  {
    var m := Added(map[], IsBlank(d.title), Title, Message(Title));
    var m := Added(m, IsBlank(d.description), Description, Message(Description));
    var m := Added(m, IsBlank(d.createdBy), CreatedBy, Message(CreatedBy));
    Added(m, d.department == "", Department, Message(Department))
  }

  /** The checks run one after another give the reference dictionary. */
  lemma {:induction false} InOrderGivesFormErrors(d: FormData)
    ensures InOrder(d) == FormErrors(d)
  {
    var s0: set<Field> := {};
    assert ErrorsAmong(d, s0) == map[];
    var s1 := s0 + {Title};
    AddedGrows(d, s0, Title);
    var s2 := s1 + {Description};
    AddedGrows(d, s1, Description);
    var s3 := s2 + {CreatedBy};
    AddedGrows(d, s2, CreatedBy);
    var s4 := s3 + {Department};
    AddedGrows(d, s3, Department);
    assert s4 == Checked;
  }

  /** The form is valid exactly when title, description and reporter are non-blank
      and a department is chosen; each failing field has its own message, and no
      other field ever has one. */
  lemma {:induction false} FormErrorsSpec(d: FormData)
    ensures FormErrors(d) == map[] <==>
      !IsBlank(d.title) && !IsBlank(d.description) && !IsBlank(d.createdBy) && d.department != ""
    ensures Title in FormErrors(d) <==> IsBlank(d.title)
    ensures Description in FormErrors(d) <==> IsBlank(d.description)
    ensures CreatedBy in FormErrors(d) <==> IsBlank(d.createdBy)
    ensures Department in FormErrors(d) <==> d.department == ""
    ensures FormErrors(d).Keys <= Checked
    ensures forall f :: f in FormErrors(d) ==> FormErrors(d)[f] == Message(f) && Message(f) != ""
  {
    var e := FormErrors(d);
    assert Title in e <==> Fails(d, Title);
    assert Description in e <==> Fails(d, Description);
    assert CreatedBy in e <==> Fails(d, CreatedBy);
    assert Department in e <==> Fails(d, Department);
    if e != map[] {
      var f :| f in e;
    }
  }

  /** The body of `validateForm`: each failing check adds its message to a
      dictionary that starts empty. */
  method CollectErrors(d: FormData) returns (newErrors: map<Field, string>)
    ensures newErrors == FormErrors(d)
  {
    newErrors := map[];
    newErrors := AddIfFailing(newErrors, IsBlank(d.title), Title, Message(Title));
    newErrors := AddIfFailing(newErrors, IsBlank(d.description), Description, Message(Description));
    newErrors := AddIfFailing(newErrors, IsBlank(d.createdBy), CreatedBy, Message(CreatedBy));
    newErrors := AddIfFailing(newErrors, d.department == "", Department, Message(Department));
    InOrderGivesFormErrors(d);
  }

  // ---------------------------------------------------------------------------
  // The new ticket

  /** `{...formData, id, createdAt: now, updatedAt: now, comments: []}`. */
  function NewTicket(d: FormData, id: string, now: int): (t: Ticket)
    ensures t.id == id && t.createdAt == now && t.updatedAt == now && t.comments == []
    ensures t.resolvedAt.None? && t.attachments.None?
  {
    Ticket(id, d.title, d.description, d.category, d.priority, d.status, Some(d.assignedTo),
           d.createdBy, now, now, None, d.department, None, [], None, Some(d.equipmentId),
           None, None, None)
  }

  function OrEmpty(s: Option<string>): string
  {
    if s.Some? then s.value else ""
  }

  /** The form a ticket would be edited from. */
  function FormOf(t: Ticket): FormData
  {
    FormData(t.title, t.description, t.category, t.priority, t.status, t.createdBy,
             t.department, OrEmpty(t.equipmentId), OrEmpty(t.assignedTo))
  }

  /** The ticket carries every value of the form: reading the form back from it
      gives the same form. */
  lemma NewTicketKeepsForm(d: FormData, id: string, now: int)
    ensures FormOf(NewTicket(d, id, now)) == d
  {
  }

  // ---------------------------------------------------------------------------
  // Editing a field

  datatype FieldEdit =
    | SetTitle(text: string)
    | SetDescription(text: string)
    | SetCategory(c: Category)
    | SetPriority(p: Priority)
    | SetCreatedBy(text: string)
    | SetDepartment(text: string)
    | SetEquipment(text: string)
    | SetAssignedTo(text: string)

  function EditedField(e: FieldEdit): Field
  {
    match e
    case SetTitle(_) => Title
    case SetDescription(_) => Description
    case SetCategory(_) => CategoryField
    case SetPriority(_) => PriorityField
    case SetCreatedBy(_) => CreatedBy
    case SetDepartment(_) => Department
    case SetEquipment(_) => EquipmentField
    case SetAssignedTo(_) => AssignedToField
  }

  function EditedValue(e: FieldEdit): string
  {
    match e
    case SetCategory(c) => CategoryLabel(c)
    case SetPriority(p) => PriorityLabel(p)
    case SetTitle(x) => x
    case SetDescription(x) => x
    case SetCreatedBy(x) => x
    case SetDepartment(x) => x
    case SetEquipment(x) => x
    case SetAssignedTo(x) => x
  }

  /** `{ ...prev, [field]: value }`. */
  function Applied(d: FormData, e: FieldEdit): FormData
  {
    match e
    case SetTitle(x) => d.(title := x)
    case SetDescription(x) => d.(description := x)
    case SetCategory(c) => d.(category := c)
    case SetPriority(p) => d.(priority := p)
    case SetCreatedBy(x) => d.(createdBy := x)
    case SetDepartment(x) => d.(department := x)
    case SetEquipment(x) => d.(equipmentId := x)
    case SetAssignedTo(x) => d.(assignedTo := x)
  }

  /** A field edit sets that field to the new value and leaves every other field
      (and the status, which no input edits) as it was. */
  lemma {:induction false} EditOnlyThatField(d: FormData, e: FieldEdit)
    ensures FieldValue(Applied(d, e), EditedField(e)) == EditedValue(e)
    ensures forall f :: f != EditedField(e) ==> FieldValue(Applied(d, e), f) == FieldValue(d, f)
    ensures Applied(d, e).status == d.status
  {
  }

  // ---------------------------------------------------------------------------
  // The modal's state

  class AddTicketModal {
    var formData: FormData
    var errors: map<Field, string>

    /** No input edits the status, so the form always raises Open tickets. */
    predicate Valid()
      reads this
    {
      formData.status == Open
    }

    constructor ()
      ensures formData == DefaultForm && errors == map[] && Valid()
    {
      formData := DefaultForm;
      errors := map[];
    }

    /** `validateForm`: the checks run in turn, each adding its message to a fresh
        dictionary, which then replaces the shown errors. */
    method ValidateForm() returns (ok: bool)
      modifies this
      ensures errors == FormErrors(formData) && formData == old(formData)
      ensures ok <==> errors == map[]
    {
      var newErrors := CollectErrors(formData);
      errors := newErrors;
      ok := |newErrors| == 0;
      assert ok <==> newErrors == map[] by {
        if |newErrors| == 0 { assert newErrors.Keys == {}; }
      }
    }

    /** `handleSubmit`: an invalid form emits nothing; a valid one emits the new
        ticket, Open, created and updated at `now`, with no comments. */
    method Submit(id: string, now: int) returns (emitted: Option<Ticket>)
      requires Valid()
      modifies this
      ensures Valid() && formData == old(formData) && errors == FormErrors(formData)
      ensures emitted.None? <==> FormErrors(formData) != map[]
      ensures emitted.Some? ==> emitted.value == NewTicket(formData, id, now)
      ensures emitted.Some? ==> emitted.value.status == Open
    {
      var ok := ValidateForm();
      if !ok {
        return None;
      }
      emitted := Some(NewTicket(formData, id, now));
    }

    /** `handleChange`. */
    method Change(e: FieldEdit)
      requires Valid()
      modifies this
      ensures Valid()
      ensures formData == Applied(old(formData), e)
      ensures errors == ClearedError(old(errors), EditedField(e))
    {
      formData := Applied(formData, e);
      if Shown(errors, EditedField(e)) {
        errors := errors[EditedField(e) := ""];
      }
    }
  }
}
