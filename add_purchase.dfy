/** src/components/AddPurchaseModal.tsx: the new-purchase form. The form values
    and the error dictionary are the fields of a class whose invariant is that
    the shown total is quantity times unit price; validation fills a fresh error
    map one check at a time; submission recomputes the total; the bill number
    generator fills in "NH-<year>-<three digits>". Money is in integer minor
    units. */
module AddPurchase {
  import opened Types
  import opened Strings
  import opened Forms

  /** The form: every field of a purchase but its id. */
  datatype PurchaseForm = PurchaseForm(
    equipmentId: string,
    equipmentName: string,
    quantity: int,
    unitPrice: int,
    totalAmount: int,
    purchaseDate: string,
    vendorName: string,
    vendorContact: string,
    billNumber: string,
    paymentMethod: PaymentMethod,
    paymentStatus: PaymentStatus,
    notes: string)

  /** `calculateTotal`. */
  function Total(quantity: int, unitPrice: int): int
  {
    quantity * unitPrice
  }

  /** The initial values; the purchase date is today's date, a parameter. */
  function DefaultForm(today: string): (d: PurchaseForm)
    ensures d.quantity == 1 && d.unitPrice == 0 && d.totalAmount == 0
    ensures d.paymentMethod == BankTransfer && d.paymentStatus == PaymentPending
  {
    PurchaseForm("", "", 1, 0, 0, today, "", "", "", BankTransfer, PaymentPending, "")
  }

  /** The shown total is the product of the shown quantity and unit price. */
  predicate TotalIsProduct(d: PurchaseForm)
  {
    d.totalAmount == Total(d.quantity, d.unitPrice)
  }

  // ---------------------------------------------------------------------------
  // Validation

  datatype Field =
    | EquipmentId | EquipmentName | Quantity | UnitPrice | TotalAmount | PurchaseDate
    | VendorName | VendorContact | BillNumber | PaymentMethodField | PaymentStatusField | Notes

  function Message(f: Field): string
  {
    match f
    case EquipmentName => "Equipment name is required"
    case VendorName => "Vendor name is required"
    case VendorContact => "Vendor contact is required"
    case BillNumber => "Bill number is required"
    case PurchaseDate => "Purchase date is required"
    case Quantity => "Quantity must be greater than 0"
    case UnitPrice => "Unit price must be greater than 0"
    case _ => ""
  }

  /** The fields a check exists for. */
  const Checked := {EquipmentName, VendorName, VendorContact, BillNumber, PurchaseDate, Quantity, UnitPrice}

  /** The outcome of each check: true when it fails. */
  datatype Checks = Checks(
    equipmentName: bool, vendorName: bool, vendorContact: bool, billNumber: bool,
    purchaseDate: bool, quantity: bool, unitPrice: bool)

  function ChecksOf(d: PurchaseForm): Checks
  {
    Checks(IsBlank(d.equipmentName), IsBlank(d.vendorName), IsBlank(d.vendorContact), IsBlank(d.billNumber),
           d.purchaseDate == "", d.quantity <= 0, d.unitPrice <= 0)
  }

  predicate Fails(c: Checks, f: Field)
  {
    match f
    case EquipmentName => c.equipmentName
    case VendorName => c.vendorName
    case VendorContact => c.vendorContact
    case BillNumber => c.billNumber
    case PurchaseDate => c.purchaseDate
    case Quantity => c.quantity
    case UnitPrice => c.unitPrice
    case _ => false
  }

  /** The messages of the failing checks among `fields`. */
  function ErrorsAmong(c: Checks, fields: set<Field>): map<Field, string>
  {
    map f | f in fields && Fails(c, f) :: Message(f)
  }

  /** A check run after those of `fields` gives the dictionary of `fields` and
      its own field. */
  lemma {:induction false} AddedGrows(c: Checks, fields: set<Field>, f: Field)
    ensures Added(ErrorsAmong(c, fields), Fails(c, f), f, Message(f)) == ErrorsAmong(c, fields + {f})
  {
  }

  /** The reference dictionary: one message per failing check. */
  function FormErrors(d: PurchaseForm): map<Field, string>
  {
    ErrorsAmong(ChecksOf(d), Checked)
  }

  /** The dictionary `validateForm` builds: the checks in their order, each
      failing one adding its message. */
  function InOrder(c: Checks): map<Field, string>
  {
    var m := Added(map[], c.equipmentName, EquipmentName, Message(EquipmentName));
    var m := Added(m, c.vendorName, VendorName, Message(VendorName));
    var m := Added(m, c.vendorContact, VendorContact, Message(VendorContact));
    var m := Added(m, c.billNumber, BillNumber, Message(BillNumber));
    var m := Added(m, c.purchaseDate, PurchaseDate, Message(PurchaseDate));
    var m := Added(m, c.quantity, Quantity, Message(Quantity));
    Added(m, c.unitPrice, UnitPrice, Message(UnitPrice))
  }

  /** The checks run one after another give the reference dictionary. */
  lemma {:induction false} InOrderGivesFormErrors(c: Checks)
    ensures InOrder(c) == ErrorsAmong(c, Checked)
  {
    var s0: set<Field> := {};
    assert ErrorsAmong(c, s0) == map[];
    var s1 := s0 + {EquipmentName};
    AddedGrows(c, s0, EquipmentName);
    var s2 := s1 + {VendorName};
    AddedGrows(c, s1, VendorName);
    var s3 := s2 + {VendorContact};
    AddedGrows(c, s2, VendorContact);
    var s4 := s3 + {BillNumber};
    AddedGrows(c, s3, BillNumber);
    var s5 := s4 + {PurchaseDate};
    AddedGrows(c, s4, PurchaseDate);
    var s6 := s5 + {Quantity};
    AddedGrows(c, s5, Quantity);
    var s7 := s6 + {UnitPrice};
    AddedGrows(c, s6, UnitPrice);
    assert s7 == Checked;
  }

  /** No check fails exactly when the dictionary is empty. */
  lemma {:induction false} ErrorsSpec(c: Checks)
    ensures ErrorsAmong(c, Checked) == map[] <==>
      !c.equipmentName && !c.vendorName && !c.vendorContact && !c.billNumber && !c.purchaseDate
      && !c.quantity && !c.unitPrice
  {
    var e := ErrorsAmong(c, Checked);
    if e == map[] {
      assert EquipmentName !in e && VendorName !in e && VendorContact !in e && BillNumber !in e;
      assert PurchaseDate !in e && Quantity !in e && UnitPrice !in e;
    } else {
      var f :| f in e;
      assert Fails(c, f);
    }
  }

  /** The form is valid exactly when equipment name, vendor name, vendor contact
      and bill number are non-blank, a date is given and quantity and unit price
      are positive. */
  lemma {:induction false} FormValidity(d: PurchaseForm)
    ensures FormErrors(d) == map[] <==>
      !IsBlank(d.equipmentName) && !IsBlank(d.vendorName) && !IsBlank(d.vendorContact)
      && !IsBlank(d.billNumber) && d.purchaseDate != "" && d.quantity > 0 && d.unitPrice > 0
  {
    ErrorsSpec(ChecksOf(d));
  }

  /** Every error carries its field's own non-empty message; the payment fields,
      the notes, the equipment id and the total never carry one. */
  lemma {:induction false} FormErrorMessages(d: PurchaseForm)
    ensures forall f :: f in FormErrors(d) ==> FormErrors(d)[f] == Message(f) && Message(f) != ""
    ensures EquipmentId !in FormErrors(d) && TotalAmount !in FormErrors(d) && Notes !in FormErrors(d)
    ensures PaymentMethodField !in FormErrors(d) && PaymentStatusField !in FormErrors(d)
  {
    CheckedMessages();
  }

  /** The message of every checked field is non-empty. */
  lemma CheckedMessages()
    ensures forall f :: f in Checked ==> Message(f) != ""
  {
  }

  /** The body of `validateForm`. */
  method CollectErrors(d: PurchaseForm) returns (newErrors: map<Field, string>)
    ensures newErrors == FormErrors(d)
  {
    newErrors := map[];
    newErrors := AddIfFailing(newErrors, IsBlank(d.equipmentName), EquipmentName, Message(EquipmentName));
    newErrors := AddIfFailing(newErrors, IsBlank(d.vendorName), VendorName, Message(VendorName));
    newErrors := AddIfFailing(newErrors, IsBlank(d.vendorContact), VendorContact, Message(VendorContact));
    newErrors := AddIfFailing(newErrors, IsBlank(d.billNumber), BillNumber, Message(BillNumber));
    newErrors := AddIfFailing(newErrors, d.purchaseDate == "", PurchaseDate, Message(PurchaseDate));
    newErrors := AddIfFailing(newErrors, d.quantity <= 0, Quantity, Message(Quantity));
    newErrors := AddIfFailing(newErrors, d.unitPrice <= 0, UnitPrice, Message(UnitPrice));
    assert newErrors == InOrder(ChecksOf(d));
    InOrderGivesFormErrors(ChecksOf(d));
  }

  // ---------------------------------------------------------------------------
  // The submitted record

  /** `{ ...formData, id, totalAmount: calculateTotal(quantity, unitPrice) }`. */
  function Record(d: PurchaseForm, id: string): (p: Purchase)
    ensures p.id == id && p.totalAmount == Total(d.quantity, d.unitPrice)
  {
    Purchase(id, d.equipmentId, d.equipmentName, d.quantity, d.unitPrice, Total(d.quantity, d.unitPrice),
             d.purchaseDate, d.vendorName, d.vendorContact, d.billNumber, d.paymentMethod, d.paymentStatus,
             Some(d.notes))
  }

  /** The record carries every value of the form; its total is recomputed, so it
      agrees with the shown total exactly when the form's invariant holds. */
  lemma {:induction false} RecordSpec(d: PurchaseForm, id: string)
    ensures var p := Record(d, id);
      && p.equipmentId == d.equipmentId && p.equipmentName == d.equipmentName
      && p.quantity == d.quantity && p.unitPrice == d.unitPrice && p.purchaseDate == d.purchaseDate
      && p.vendorName == d.vendorName && p.vendorContact == d.vendorContact && p.billNumber == d.billNumber
      && p.paymentMethod == d.paymentMethod && p.paymentStatus == d.paymentStatus && p.notes == Some(d.notes)
      && (p.totalAmount == d.totalAmount <==> TotalIsProduct(d))
  {
  }

  // ---------------------------------------------------------------------------
  // Editing a field

  /** `handleChange(field, value)` as the inputs call it; the quantity input
      sends `parseInt(value) || 0` and the unit price input `parseFloat(value) || 0`,
      whose parsed numbers are the parameters here. */
  datatype FieldEdit =
    | SetEquipmentName(text: string)
    | SetVendorName(text: string)
    | SetVendorContact(text: string)
    | SetBillNumber(text: string)
    | SetPurchaseDate(text: string)
    | SetQuantity(parsed: JsNumber)
    | SetUnitPrice(parsed: JsNumber)
    | SetPaymentMethod(m: PaymentMethod)
    | SetPaymentStatus(s: PaymentStatus)
    | SetNotes(text: string)

  function EditedField(e: FieldEdit): Field
  {
    match e
    case SetEquipmentName(_) => EquipmentName
    case SetVendorName(_) => VendorName
    case SetVendorContact(_) => VendorContact
    case SetBillNumber(_) => BillNumber
    case SetPurchaseDate(_) => PurchaseDate
    case SetQuantity(_) => Quantity
    case SetUnitPrice(_) => UnitPrice
    case SetPaymentMethod(_) => PaymentMethodField
    case SetPaymentStatus(_) => PaymentStatusField
    case SetNotes(_) => Notes
  }

  /** `{ ...formData, [field]: value }`. */
  function Overlaid(d: PurchaseForm, e: FieldEdit): PurchaseForm
  {
    match e
    case SetEquipmentName(x) => d.(equipmentName := x)
    case SetVendorName(x) => d.(vendorName := x)
    case SetVendorContact(x) => d.(vendorContact := x)
    case SetBillNumber(x) => d.(billNumber := x)
    case SetPurchaseDate(x) => d.(purchaseDate := x)
    case SetQuantity(n) => d.(quantity := OrZero(n))
    case SetUnitPrice(n) => d.(unitPrice := OrZero(n))
    case SetPaymentMethod(m) => d.(paymentMethod := m)
    case SetPaymentStatus(s) => d.(paymentStatus := s)
    case SetNotes(x) => d.(notes := x)
  }

  /** Whether the edit is one of the two that recompute the total. */
  predicate EditsAmount(e: FieldEdit)
  {
    e.SetQuantity? || e.SetUnitPrice?
  }

  /** The new form `handleChange` stores: the overlay, with the total recomputed
      from the new amounts after a quantity or unit price edit. */
  function Applied(d: PurchaseForm, e: FieldEdit): PurchaseForm
  {
    var u := Overlaid(d, e);
    if EditsAmount(e) then u.(totalAmount := Total(u.quantity, u.unitPrice)) else u
  }

  /** An amount edit leaves the total equal to the product; any other edit keeps
      the amounts and the total as they were. So every edit keeps the invariant. */
  lemma {:induction false} AppliedKeepsTotal(d: PurchaseForm, e: FieldEdit)
    ensures EditsAmount(e) ==> TotalIsProduct(Applied(d, e))
    ensures !EditsAmount(e) ==>
      Applied(d, e).totalAmount == d.totalAmount
      && Applied(d, e).quantity == d.quantity && Applied(d, e).unitPrice == d.unitPrice
    ensures TotalIsProduct(d) ==> TotalIsProduct(Applied(d, e))
  {
  }

  /** An unparsable or zero amount is stored as 0 and then fails its check. */
  lemma {:induction false} FalsyAmountIsZero(d: PurchaseForm, e: FieldEdit)
    requires EditsAmount(e) && !TruthyNumber(e.parsed)
    ensures e.SetQuantity? ==> Applied(d, e).quantity == 0 && Applied(d, e).totalAmount == 0
    ensures e.SetUnitPrice? ==> Applied(d, e).unitPrice == 0 && Applied(d, e).totalAmount == 0
    ensures ChecksOf(Applied(d, e)).quantity || ChecksOf(Applied(d, e)).unitPrice
  {
  }

  // ---------------------------------------------------------------------------
  // The bill number

  /** `Math.floor(Math.random() * 1000).toString().padStart(3, '0')`; the floored
      draw is the parameter. */
  function BillSuffix(draw: nat): string
  {
    PadStart(NatToString(draw), 3, '0')
  }

  /** `${prefix}-${year}-${random}`. */
  function BillNumberFor(year: int, draw: nat): string
  {
    "NH-" + IntToString(year) + "-" + BillSuffix(draw)
  }

  /** A draw in [0, 999] gives exactly three digits with the draw as their value. */
  lemma {:induction false} BillSuffixSpec(draw: nat)
    requires draw < 1000
    ensures |BillSuffix(draw)| == 3 && AllDigits(BillSuffix(draw))
    ensures DigitsValue(BillSuffix(draw)) == draw
  {
    var n := NatToString(draw);
    ShortRendering(draw);
    NatToStringRoundTrip(draw);
    var z := 3 - |n|;
    assert BillSuffix(draw) == seq(z, _ => '0') + n;
    LeadingZerosValue(z, n);
  }

  /** The bill number starts with "NH-" and ends with "-" and the three digits of
      the draw, so the draw can be read back from it. */
  lemma {:induction false} BillNumberSpec(year: int, draw: nat)
    requires draw < 1000
    ensures var b := BillNumberFor(year, draw);
      && |b| >= 8 && b[..3] == "NH-" && b[|b| - 4] == '-'
      && AllDigits(b[|b| - 3..]) && DigitsValue(b[|b| - 3..]) == draw
  {
    BillSuffixSpec(draw);
    var b := BillNumberFor(year, draw);
    var head := "NH-" + IntToString(year) + "-";
    assert b == head + BillSuffix(draw);
    assert b[|b| - 3..] == BillSuffix(draw);
    assert |IntToString(year)| >= 1;
    assert b[..3] == head[..3];
  }

  // ---------------------------------------------------------------------------
  // The modal's state

  class AddPurchaseModal {
    var formData: PurchaseForm
    var errors: map<Field, string>

    /** The shown total is always quantity times unit price. */
    predicate Valid()
      reads this
    {
      TotalIsProduct(formData)
    }

    constructor (today: string)
      ensures formData == DefaultForm(today) && errors == map[] && Valid()
    {
      formData := DefaultForm(today);
      errors := map[];
    }

    /** `validateForm`. */
    method ValidateForm() returns (ok: bool)
      modifies this
      ensures errors == FormErrors(formData) && formData == old(formData)
      ensures ok <==> errors == map[]
    {
      var newErrors := CollectErrors(formData);
      errors := newErrors;
      ok := |newErrors| == 0;
      assert ok <==> newErrors == map[] by {
        if |newErrors| == 0 { assert newErrors.Keys == {}; }
      }
    }

    /** `handleSubmit`: nothing when invalid, otherwise the purchase with the
        fresh id and the total recomputed. */
    method Submit(freshId: string) returns (emitted: Option<Purchase>)
      modifies this
      ensures formData == old(formData) && errors == FormErrors(formData)
      ensures emitted.None? <==> FormErrors(formData) != map[]
      ensures emitted.Some? ==> emitted.value == Record(formData, freshId)
    {
      var ok := ValidateForm();
      if !ok {
        return None;
      }
      emitted := Some(Record(formData, freshId));
    }

    /** `handleChange`: the overlay is built, the total recomputed after an
        amount edit, and the field's shown error cleared. */
    method Change(e: FieldEdit)
      requires Valid()
      modifies this
      ensures Valid()
      ensures formData == Applied(old(formData), e)
      ensures errors == ClearedError(old(errors), EditedField(e))
    {
      var updatedData := Overlaid(formData, e);
      if e.SetQuantity? || e.SetUnitPrice? {
        var q := if e.SetQuantity? then OrZero(e.parsed) else formData.quantity;
        var p := if e.SetUnitPrice? then OrZero(e.parsed) else formData.unitPrice;
        updatedData := updatedData.(totalAmount := Total(q, p));
      }
      formData := updatedData;
      if Shown(errors, EditedField(e)) {
        errors := errors[EditedField(e) := ""];
      }
    }

    /** `generateBillNumber`: a bill number edit. */
    method GenerateBillNumber(year: int, draw: nat)
      requires Valid() && draw < 1000
      modifies this
      ensures Valid()
      ensures formData == old(formData).(billNumber := BillNumberFor(year, draw))
      ensures errors == ClearedError(old(errors), BillNumber)
    {
      Change(SetBillNumber(BillNumberFor(year, draw)));
    }
  }
}
