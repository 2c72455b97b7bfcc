/** src/components/AddEquipmentModal.tsx: the add/edit equipment form. The
    form values and the error dictionary are the fields of a class. Opening the
    form loads it from the item being edited or resets it to the defaults;
    validation fills a fresh error map one check at a time; submission keeps the
    edited item's id or takes a fresh one; editing a field clears its error. */
module AddEquipment {
  import opened Types
  import opened Strings
  import opened Forms

  /** The form: every field of an equipment record but its id. */
  datatype EquipmentForm = EquipmentForm(
    name: string,
    category: string,
    serialNumber: string,
    manufacturer: string,
    model: string,
    purchaseDate: string,
    warrantyExpiry: string,
    location: string,
    status: EquipmentStatus,
    lastMaintenance: string,
    nextMaintenance: string,
    cost: int)

  /** The values a new form starts from. */
  const DefaultForm := EquipmentForm("", "", "", "", "", "", "", "", Active, "", "", 0)

  /** `{ ...formData, id }`: every form field is copied and the id is added. */
  function Record(d: EquipmentForm, id: string): (e: Equipment)
    ensures e.id == id
    ensures e.name == d.name && e.category == d.category && e.serialNumber == d.serialNumber
    ensures e.manufacturer == d.manufacturer && e.model == d.model
    ensures e.purchaseDate == d.purchaseDate && e.warrantyExpiry == d.warrantyExpiry
    ensures e.location == d.location && e.status == d.status
    ensures e.lastMaintenance == d.lastMaintenance && e.nextMaintenance == d.nextMaintenance
    ensures e.cost == d.cost
  {
    Equipment(id, d.name, d.category, d.serialNumber, d.manufacturer, d.model, d.purchaseDate,
              d.warrantyExpiry, d.location, d.status, d.lastMaintenance, d.nextMaintenance, d.cost)
  }

  /** The effect on `[equipment, isOpen]`: the edited item's values, or the
      defaults when there is none. */
  function FormFor(equipment: Option<Equipment>): (d: EquipmentForm)
    ensures equipment.None? ==> d == DefaultForm
    ensures equipment.Some? ==> Record(d, equipment.value.id) == equipment.value
  {
    match equipment
    case None => DefaultForm
    case Some(e) =>
      EquipmentForm(e.name, e.category, e.serialNumber, e.manufacturer, e.model, e.purchaseDate,
                    e.warrantyExpiry, e.location, e.status, e.lastMaintenance, e.nextMaintenance, e.cost)
  }

  /** Loading a submitted record back into the form gives the form that made it. */
  lemma RecordKeepsForm(d: EquipmentForm, id: string)
    ensures FormFor(Some(Record(d, id))) == d
  {
  }

  /** `equipment?.id || Date.now().toString()`; the fresh id is a parameter. */
  function SubmittedId(equipment: Option<Equipment>, freshId: string): (id: string)
    ensures equipment.Some? && equipment.value.id != "" ==> id == equipment.value.id
    ensures !(equipment.Some? && equipment.value.id != "") ==> id == freshId
  {
    if equipment.Some? && equipment.value.id != "" then equipment.value.id else freshId
  }

  /** Submitting an untouched edit form gives the edited item back, id included;
      a new item carries the fresh id. */
  lemma {:induction false} UntouchedEditRoundTrip(e: Equipment, freshId: string)
    requires e.id != ""
    ensures Record(FormFor(Some(e)), SubmittedId(Some(e), freshId)) == e
    ensures Record(FormFor(None), SubmittedId(None, freshId)) == Record(DefaultForm, freshId)
  {
  }

  // ---------------------------------------------------------------------------
  // Validation

  datatype Field =
    | Name | CategoryField | SerialNumber | Manufacturer | ModelField | PurchaseDate
    | WarrantyExpiry | Location | StatusField | LastMaintenance | NextMaintenance | Cost

  function Message(f: Field): string
  {
    match f
    case Name => "Equipment name is required"
    case CategoryField => "Category is required"
    case SerialNumber => "Serial number is required"
    case Manufacturer => "Manufacturer is required"
    case ModelField => "Model is required"
    case PurchaseDate => "Purchase date is required"
    case Location => "Location is required"
    case Cost => "Cost must be greater than 0"
    case _ => ""
  }

  /** The fields a check exists for. */
  const Checked := {Name, CategoryField, SerialNumber, Manufacturer, ModelField, PurchaseDate, Location, Cost}

  /** The outcome of each check: true when it fails. */
  datatype Checks = Checks(
    name: bool, category: bool, serialNumber: bool, manufacturer: bool,
    model: bool, purchaseDate: bool, location: bool, cost: bool)

  function ChecksOf(d: EquipmentForm): Checks
  {
    Checks(IsBlank(d.name), d.category == "", IsBlank(d.serialNumber), IsBlank(d.manufacturer),
           IsBlank(d.model), d.purchaseDate == "", d.location == "", d.cost <= 0)
  }

  predicate Fails(c: Checks, f: Field)
  {
    match f
    case Name => c.name
    case CategoryField => c.category
    case SerialNumber => c.serialNumber
    case Manufacturer => c.manufacturer
    case ModelField => c.model
    case PurchaseDate => c.purchaseDate
    case Location => c.location
    case Cost => c.cost
    case _ => false
  }

  /** The messages of the failing checks among `fields`. */
  function ErrorsAmong(c: Checks, fields: set<Field>): map<Field, string>
  {
    map f | f in fields && Fails(c, f) :: Message(f)
  }

  /** A check run after those of `fields` gives the dictionary of `fields` and
      its own field. */
  lemma {:induction false} AddedGrows(c: Checks, fields: set<Field>, f: Field)
    ensures Added(ErrorsAmong(c, fields), Fails(c, f), f, Message(f)) == ErrorsAmong(c, fields + {f})
  {
  }

  /** The reference dictionary: one message per failing check. */
  function FormErrors(d: EquipmentForm): map<Field, string>
  {
    ErrorsAmong(ChecksOf(d), Checked)
  }

  /** The dictionary `validateForm` builds: the checks in their order, each
      failing one adding its message. */
  function InOrder(c: Checks): map<Field, string>
  {
    var m := Added(map[], c.name, Name, Message(Name));
    var m := Added(m, c.category, CategoryField, Message(CategoryField));
    var m := Added(m, c.serialNumber, SerialNumber, Message(SerialNumber));
    var m := Added(m, c.manufacturer, Manufacturer, Message(Manufacturer));
    var m := Added(m, c.model, ModelField, Message(ModelField));
    var m := Added(m, c.purchaseDate, PurchaseDate, Message(PurchaseDate));
    var m := Added(m, c.location, Location, Message(Location));
    Added(m, c.cost, Cost, Message(Cost))
  }

  /** The checks run one after another give the reference dictionary. */
  lemma {:induction false} InOrderGivesFormErrors(c: Checks)
    ensures InOrder(c) == ErrorsAmong(c, Checked)
  {
    var s0: set<Field> := {};
    assert ErrorsAmong(c, s0) == map[];
    var s1 := s0 + {Name};
    AddedGrows(c, s0, Name);
    var s2 := s1 + {CategoryField};
    AddedGrows(c, s1, CategoryField);
    var s3 := s2 + {SerialNumber};
    AddedGrows(c, s2, SerialNumber);
    var s4 := s3 + {Manufacturer};
    AddedGrows(c, s3, Manufacturer);
    var s5 := s4 + {ModelField};
    AddedGrows(c, s4, ModelField);
    var s6 := s5 + {PurchaseDate};
    AddedGrows(c, s5, PurchaseDate);
    var s7 := s6 + {Location};
    AddedGrows(c, s6, Location);
    var s8 := s7 + {Cost};
    AddedGrows(c, s7, Cost);
    assert s8 == Checked;
  }

  /** No check fails exactly when the dictionary is empty. */
  lemma {:induction false} ErrorsSpec(c: Checks)
    ensures ErrorsAmong(c, Checked) == map[] <==>
      !c.name && !c.category && !c.serialNumber && !c.manufacturer && !c.model && !c.purchaseDate
      && !c.location && !c.cost
  {
    var e := ErrorsAmong(c, Checked);
    if e == map[] {
      assert Name !in e && CategoryField !in e && SerialNumber !in e && Manufacturer !in e;
      assert ModelField !in e && PurchaseDate !in e && Location !in e && Cost !in e;
    } else {
      var f :| f in e;
      assert Fails(c, f);
    }
  }

  /** Every error carries its field's own non-empty message, and the warranty,
      maintenance and status fields never carry one. */
  lemma {:induction false} FormErrorMessages(d: EquipmentForm)
    ensures forall f :: f in FormErrors(d) ==> FormErrors(d)[f] == Message(f) && Message(f) != ""
    ensures WarrantyExpiry !in FormErrors(d) && LastMaintenance !in FormErrors(d)
    ensures NextMaintenance !in FormErrors(d) && StatusField !in FormErrors(d)
  {
    CheckedMessages();
  }

  /** The form is valid exactly when name, serial number, manufacturer and model
      are non-blank, a category, a purchase date and a location are chosen and the
      cost is positive. */
  lemma {:induction false} FormValidity(d: EquipmentForm)
    ensures FormErrors(d) == map[] <==>
      !IsBlank(d.name) && d.category != "" && !IsBlank(d.serialNumber) && !IsBlank(d.manufacturer)
      && !IsBlank(d.model) && d.purchaseDate != "" && d.location != "" && d.cost > 0
  {
    ErrorsSpec(ChecksOf(d));
  }

  /** The message of every checked field is non-empty. */
  lemma CheckedMessages()
    ensures forall f :: f in Checked ==> Message(f) != ""
  {
  }

  /** The body of `validateForm`: the checks run in order, each failing one adding
      its message to a dictionary that starts empty. */
  method CollectErrors(d: EquipmentForm) returns (newErrors: map<Field, string>)
    ensures newErrors == FormErrors(d)
  {
    newErrors := map[];
    newErrors := AddIfFailing(newErrors, IsBlank(d.name), Name, Message(Name));
    newErrors := AddIfFailing(newErrors, d.category == "", CategoryField, Message(CategoryField));
    newErrors := AddIfFailing(newErrors, IsBlank(d.serialNumber), SerialNumber, Message(SerialNumber));
    newErrors := AddIfFailing(newErrors, IsBlank(d.manufacturer), Manufacturer, Message(Manufacturer));
    newErrors := AddIfFailing(newErrors, IsBlank(d.model), ModelField, Message(ModelField));
    newErrors := AddIfFailing(newErrors, d.purchaseDate == "", PurchaseDate, Message(PurchaseDate));
    newErrors := AddIfFailing(newErrors, d.location == "", Location, Message(Location));
    newErrors := AddIfFailing(newErrors, d.cost <= 0, Cost, Message(Cost));
    assert newErrors == InOrder(ChecksOf(d));
    InOrderGivesFormErrors(ChecksOf(d));
  }

  // ---------------------------------------------------------------------------
  // Editing a field

  /** `handleChange(field, value)`; the cost input sends `parseFloat(value) || 0`,
      whose parsed number is the parameter here. */
  datatype FieldEdit =
    | SetName(text: string)
    | SetCategory(text: string)
    | SetSerialNumber(text: string)
    | SetManufacturer(text: string)
    | SetModel(text: string)
    | SetPurchaseDate(text: string)
    | SetWarrantyExpiry(text: string)
    | SetLocation(text: string)
    | SetStatus(s: EquipmentStatus)
    | SetLastMaintenance(text: string)
    | SetNextMaintenance(text: string)
    | SetCost(parsed: JsNumber)

  function EditedField(e: FieldEdit): Field
  {
    match e
    case SetName(_) => Name
    case SetCategory(_) => CategoryField
    case SetSerialNumber(_) => SerialNumber
    case SetManufacturer(_) => Manufacturer
    case SetModel(_) => ModelField
    case SetPurchaseDate(_) => PurchaseDate
    case SetWarrantyExpiry(_) => WarrantyExpiry
    case SetLocation(_) => Location
    case SetStatus(_) => StatusField
    case SetLastMaintenance(_) => LastMaintenance
    case SetNextMaintenance(_) => NextMaintenance
    case SetCost(_) => Cost
  }

  function Applied(d: EquipmentForm, e: FieldEdit): EquipmentForm
  {
    match e
    case SetName(x) => d.(name := x)
    case SetCategory(x) => d.(category := x)
    case SetSerialNumber(x) => d.(serialNumber := x)
    case SetManufacturer(x) => d.(manufacturer := x)
    case SetModel(x) => d.(model := x)
    case SetPurchaseDate(x) => d.(purchaseDate := x)
    case SetWarrantyExpiry(x) => d.(warrantyExpiry := x)
    case SetLocation(x) => d.(location := x)
    case SetStatus(s) => d.(status := s)
    case SetLastMaintenance(x) => d.(lastMaintenance := x)
    case SetNextMaintenance(x) => d.(nextMaintenance := x)
    case SetCost(n) => d.(cost := OrZero(n))
  }

  /** A field's value, rendered as the form shows it. */
  function FieldValue(d: EquipmentForm, f: Field): string
  {
    match f
    case Name => d.name
    case CategoryField => d.category
    case SerialNumber => d.serialNumber
    case Manufacturer => d.manufacturer
    case ModelField => d.model
    case PurchaseDate => d.purchaseDate
    case WarrantyExpiry => d.warrantyExpiry
    case Location => d.location
    case StatusField => EquipmentStatusLabel(d.status)
    case LastMaintenance => d.lastMaintenance
    case NextMaintenance => d.nextMaintenance
    case Cost => IntToString(d.cost)
  }

  /** The value an edit carries, rendered as the form shows it; the cost input
      carries `parsed || 0`. */
  function EditedValue(e: FieldEdit): string
  {
    match e
    case SetStatus(s) => EquipmentStatusLabel(s)
    case SetCost(n) => IntToString(OrZero(n))
    case SetName(x) => x
    case SetCategory(x) => x
    case SetSerialNumber(x) => x
    case SetManufacturer(x) => x
    case SetModel(x) => x
    case SetPurchaseDate(x) => x
    case SetWarrantyExpiry(x) => x
    case SetLocation(x) => x
    case SetLastMaintenance(x) => x
    case SetNextMaintenance(x) => x
  }

  /** An edit stores its value in its own field and changes no other; an
      unparsable or zero cost is stored as 0. */
  lemma {:induction false} EditOnlyThatField(d: EquipmentForm, e: FieldEdit)
    ensures FieldValue(Applied(d, e), EditedField(e)) == EditedValue(e)
    ensures forall f :: f != EditedField(e) ==> FieldValue(Applied(d, e), f) == FieldValue(d, f)
    ensures e.SetCost? ==> Applied(d, e).cost == (if TruthyNumber(e.parsed) then e.parsed.value else 0)
    ensures e.SetCost? && !TruthyNumber(e.parsed) ==> ChecksOf(Applied(d, e)).cost
  {
  }

  // ---------------------------------------------------------------------------
  // The modal's state

  class AddEquipmentModal {
    var formData: EquipmentForm
    var errors: map<Field, string>

    constructor ()
      ensures formData == DefaultForm && errors == map[]
    {
      formData := DefaultForm;
      errors := map[];
    }

    /** The effect run when the edited item or the open flag changes. */
    method Load(equipment: Option<Equipment>)
      modifies this
      ensures formData == FormFor(equipment) && errors == map[]
    {
      formData := FormFor(equipment);
      errors := map[];
    }

    /** `validateForm`. */
    method ValidateForm() returns (ok: bool)
      modifies this
      ensures errors == FormErrors(formData) && formData == old(formData)
      ensures ok <==> errors == map[]
    {
      var newErrors := CollectErrors(formData);
      errors := newErrors;
      ok := |newErrors| == 0;
      assert ok <==> newErrors == map[] by {
        if |newErrors| == 0 { assert newErrors.Keys == {}; }
      }
    }

    /** `handleSubmit`: nothing when invalid, otherwise the form as a record with
        the edited item's id or the fresh one. */
    method Submit(equipment: Option<Equipment>, freshId: string) returns (emitted: Option<Equipment>)
      modifies this
      ensures formData == old(formData) && errors == FormErrors(formData)
      ensures emitted.None? <==> FormErrors(formData) != map[]
      ensures emitted.Some? ==> emitted.value == Record(formData, SubmittedId(equipment, freshId))
    {
      var ok := ValidateForm();
      if !ok {
        return None;
      }
      emitted := Some(Record(formData, SubmittedId(equipment, freshId)));
    }

    /** `handleChange`. */
    method Change(e: FieldEdit)
      modifies this
      ensures formData == Applied(old(formData), e)
      ensures errors == ClearedError(old(errors), EditedField(e))
    {
      formData := Applied(formData, e);
      if Shown(errors, EditedField(e)) {
        errors := errors[EditedField(e) := ""];
      }
    }
  }
}
