/** The records of src/types/index.ts. Dates a component computes with are
    integer millisecond timestamps; dates a form only tests for emptiness stay
    strings. Money is an integer amount. Fields that components read although
    the interface does not declare them (unitId, equipmentId, Floor, Room, Bed
    on a ticket; unitId on a user) are optional fields here. */
module Types {

  datatype Option<T> = None | Some(value: T)

  // ---------------------------------------------------------------------------
  // Closed vocabularies

  datatype TicketStatus = Open | InProgress | Pending | Resolved | Closed
  datatype Priority = Low | Medium | High | Critical
  datatype Category = TechnicalIssue | SoftwareRequest | AccessRequest | EquipmentIssue | OtherCategory
  datatype EquipmentStatus = Active | Maintenance | Retired | OutOfOrder
  datatype PaymentMethod = Cash | Card | BankTransfer | Cheque
  datatype PaymentStatus = Paid | PaymentPending | Partial

  /** The string each status has in the source. */
  function StatusLabel(s: TicketStatus): string
  {
    match s
    case Open => "Open"
    case InProgress => "In Progress"
    case Pending => "Pending"
    case Resolved => "Resolved"
    case Closed => "Closed"
  }

  /** Reads a status back from its string; `None` for any string outside the union type. */
  function ParseStatus(text: string): (r: Option<TicketStatus>)
    ensures r.Some? ==> StatusLabel(r.value) == text
  {
    if text == "Open" then Some(Open)
    else if text == "In Progress" then Some(InProgress)
    else if text == "Pending" then Some(Pending)
    else if text == "Resolved" then Some(Resolved)
    else if text == "Closed" then Some(Closed)
    else None
  }

  /** The status labels are distinct and each reads back as its status. */
  lemma StatusLabelRoundTrip(s: TicketStatus)
    ensures ParseStatus(StatusLabel(s)) == Some(s)
  {
  }

  /** A string is a status text exactly when it reads back as a status. */
  lemma {:induction false} ParseStatusComplete(text: string)
    ensures ParseStatus(text).None? <==> forall s: TicketStatus :: StatusLabel(s) != text
  {
    if ParseStatus(text).None? {
      forall s: TicketStatus ensures StatusLabel(s) != text {
        StatusLabelRoundTrip(s);
      }
    }
  }

  function PriorityLabel(p: Priority): string
  {
    match p
    case Low => "Low"
    case Medium => "Medium"
    case High => "High"
    case Critical => "Critical"
  }

  function ParsePriority(text: string): (r: Option<Priority>)
    ensures r.Some? ==> PriorityLabel(r.value) == text
  {
    if text == "Low" then Some(Low)
    else if text == "Medium" then Some(Medium)
    else if text == "High" then Some(High)
    else if text == "Critical" then Some(Critical)
    else None
  }

  lemma PriorityLabelRoundTrip(p: Priority)
    ensures ParsePriority(PriorityLabel(p)) == Some(p)
  {
  }

  function CategoryLabel(c: Category): string
  {
    match c
    case TechnicalIssue => "Technical Issue"
    case SoftwareRequest => "Software Request"
    case AccessRequest => "Access Request"
    case EquipmentIssue => "Equipment Issue"
    case OtherCategory => "Other"
  }

  function ParseCategory(text: string): (r: Option<Category>)
    ensures r.Some? ==> CategoryLabel(r.value) == text
  {
    if text == "Technical Issue" then Some(TechnicalIssue)
    else if text == "Software Request" then Some(SoftwareRequest)
    else if text == "Access Request" then Some(AccessRequest)
    else if text == "Equipment Issue" then Some(EquipmentIssue)
    else if text == "Other" then Some(OtherCategory)
    else None
  }

  lemma CategoryLabelRoundTrip(c: Category)
    ensures ParseCategory(CategoryLabel(c)) == Some(c)
  {
  }

  function EquipmentStatusLabel(s: EquipmentStatus): string
  {
    match s
    case Active => "Active"
    case Maintenance => "Maintenance"
    case Retired => "Retired"
    case OutOfOrder => "Out of Order"
  }

  function PaymentMethodLabel(m: PaymentMethod): string
  {
    match m
    case Cash => "Cash"
    case Card => "Card"
    case BankTransfer => "Bank Transfer"
    case Cheque => "Cheque"
  }

  function PaymentStatusLabel(s: PaymentStatus): string
  {
    match s
    case Paid => "Paid"
    case PaymentPending => "Pending"
    case Partial => "Partial"
  }

  /** Different members of each union type have different strings, so comparing
      the strings (as the filters do) is comparing the values. */
  lemma LabelsInjective()
    ensures forall a: TicketStatus, b: TicketStatus :: StatusLabel(a) == StatusLabel(b) ==> a == b
    ensures forall a: Priority, b: Priority :: PriorityLabel(a) == PriorityLabel(b) ==> a == b
    ensures forall a: Category, b: Category :: CategoryLabel(a) == CategoryLabel(b) ==> a == b
    ensures forall a: EquipmentStatus, b: EquipmentStatus ::
      EquipmentStatusLabel(a) == EquipmentStatusLabel(b) ==> a == b
    ensures forall a: PaymentMethod, b: PaymentMethod :: PaymentMethodLabel(a) == PaymentMethodLabel(b) ==> a == b
    ensures forall a: PaymentStatus, b: PaymentStatus :: PaymentStatusLabel(a) == PaymentStatusLabel(b) ==> a == b
  {
  }

  // ---------------------------------------------------------------------------
  // Records

  datatype TicketComment = TicketComment(
    id: string,
    ticketId: string,
    author: string,
    content: string,
    createdAt: int,
    isInternal: bool)

  datatype Ticket = Ticket(
    id: string,
    title: string,
    description: string,
    category: Category,
    priority: Priority,
    status: TicketStatus,
    assignedTo: Option<string>,
    createdBy: string,
    createdAt: int,
    updatedAt: int,
    resolvedAt: Option<int>,
    department: string,
    attachments: Option<seq<string>>,
    comments: seq<TicketComment>,
    unitId: Option<string>,
    equipmentId: Option<string>,
    floor: Option<string>,
    room: Option<string>,
    bed: Option<string>)

  datatype Equipment = Equipment(
    id: string,
    name: string,
    category: string,
    serialNumber: string,
    manufacturer: string,
    model: string,
    purchaseDate: string,
    warrantyExpiry: string,
    location: string,
    status: EquipmentStatus,
    lastMaintenance: string,
    nextMaintenance: string,
    cost: int)

  datatype Purchase = Purchase(
    id: string,
    equipmentId: string,
    equipmentName: string,
    quantity: int,
    unitPrice: int,
    totalAmount: int,
    purchaseDate: string,
    vendorName: string,
    vendorContact: string,
    billNumber: string,
    paymentMethod: PaymentMethod,
    paymentStatus: PaymentStatus,
    notes: Option<string>)

  datatype User = User(
    id: string,
    name: string,
    email: string,
    role: string,
    department: string,
    unitId: Option<string>)

  /** `b` is `a` with (at most) its status replaced: `{ ...a, status }`. */
  predicate SameExceptStatus(a: Ticket, b: Ticket)
  {
    a.(status := b.status) == b
  }

  /** `{ ...t, status: s }`. */
  function WithStatus(t: Ticket, s: TicketStatus): (r: Ticket)
    ensures r.status == s && SameExceptStatus(t, r)
  {
    t.(status := s)
  }

  /** JavaScript truthiness of an optional string: absent and "" are both false. */
  predicate Present(s: Option<string>)
  {
    s.Some? && s.value != ""
  }

  /** The `x || 'Unassigned'` rendering used for a ticket's assignee. */
  function AssigneeLabel(assignedTo: Option<string>): (r: string)
    ensures r == "Unassigned" <==> !Present(assignedTo) || assignedTo.value == "Unassigned"
    ensures Present(assignedTo) ==> r == assignedTo.value
  {
    if Present(assignedTo) then assignedTo.value else "Unassigned"
  }
}
