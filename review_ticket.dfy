/** src/components/Reviewticket.tsx: the review page for one ticket. Here the
    status, priority and category are plain strings: Approve and Reject write
    "Approved" and "Rejected", and the category select offers an externally
    defined list, so a reviewed ticket is a ticket whose three labels may lie
    outside the union types. `AsTicket` reads one back where it can. */
module ReviewTicket {
  import opened Types

  /** A ticket as this page emits it: `fields` supplies every other field, the
      four named ones override it. */
  datatype ReviewedTicket = ReviewedTicket(
    fields: Ticket,
    status: string,
    priority: string,
    category: string,
    assignedTo: Option<string>)

  /** A ticket seen through the page's string labels. */
  function Lift(t: Ticket): ReviewedTicket
  {
    ReviewedTicket(t, StatusLabel(t.status), PriorityLabel(t.priority), CategoryLabel(t.category), t.assignedTo)
  }

  /** Reads a reviewed ticket back; `None` when a label is outside its union type. */
  function AsTicket(r: ReviewedTicket): Option<Ticket>
  {
    match (ParseStatus(r.status), ParsePriority(r.priority), ParseCategory(r.category))
    case (Some(s), Some(p), Some(c)) =>
      Some(r.fields.(status := s, priority := p, category := c, assignedTo := r.assignedTo))
    case _ => None
  }

  /** Lifting loses nothing. */
  lemma {:induction false} LiftRoundTrip(t: Ticket)
    ensures AsTicket(Lift(t)) == Some(t)
  {
    StatusLabelRoundTrip(t.status);
    PriorityLabelRoundTrip(t.priority);
    CategoryLabelRoundTrip(t.category);
  }

  /** What Approve or Reject does: call the parent's handler when one is given,
      otherwise emit the ticket with the new status text. */
  datatype Decision = CallHandler | Emit(ticket: ReviewedTicket)

  function Approve(t: Ticket, hasOnApprove: bool): Decision
  {
    if hasOnApprove then CallHandler else Emit(Lift(t).(status := "Approved"))
  }

  function Reject(t: Ticket, hasOnReject: bool): Decision
  {
    if hasOnReject then CallHandler else Emit(Lift(t).(status := "Rejected"))
  }

  /** Without a parent handler, Approve and Reject emit statuses that no ticket
      status has: the emitted record cannot be read back as a ticket. With one,
      nothing is emitted. */
  lemma {:induction false} ApproveRejectOutsideEnum(t: Ticket)
    ensures Approve(t, true) == CallHandler && Reject(t, true) == CallHandler
    ensures Approve(t, false).Emit? && Approve(t, false).ticket.status == "Approved"
    ensures Reject(t, false).Emit? && Reject(t, false).ticket.status == "Rejected"
    ensures forall s: TicketStatus :: StatusLabel(s) != "Approved" && StatusLabel(s) != "Rejected"
    ensures AsTicket(Approve(t, false).ticket).None? && AsTicket(Reject(t, false).ticket).None?
  {
    ParseStatusComplete("Approved");
    ParseStatusComplete("Rejected");
  }

  /** The edit form: `{ priority, category, assignedTo: ticket.assignedTo || "" }`. */
  datatype EditData = EditData(priority: string, category: string, assignedTo: string)

  function InitialEditData(t: Ticket): (e: EditData)
    ensures e.priority == PriorityLabel(t.priority) && e.category == CategoryLabel(t.category)
    ensures e.assignedTo == "" <==> !Present(t.assignedTo)
    ensures Present(t.assignedTo) ==> e.assignedTo == t.assignedTo.value
  {
    EditData(PriorityLabel(t.priority), CategoryLabel(t.category),
             if Present(t.assignedTo) then t.assignedTo.value else "")
  }

  /** `{ ...ticket, ...editData }`. */
  function Saved(t: Ticket, e: EditData): ReviewedTicket
  {
    Lift(t).(priority := e.priority, category := e.category, assignedTo := Some(e.assignedTo))
  }

  /** Save overlays only priority, category and assignee: the status and every
      other field stay. It reads back as a ticket exactly when the chosen priority
      and category are members of their types, and then differs from the
      original in those three fields at most. */
  lemma {:induction false} SaveSpec(t: Ticket, e: EditData)
    ensures Saved(t, e).fields == t && Saved(t, e).status == StatusLabel(t.status)
    ensures AsTicket(Saved(t, e)).Some? <==> ParsePriority(e.priority).Some? && ParseCategory(e.category).Some?
    ensures AsTicket(Saved(t, e)).Some? ==>
      AsTicket(Saved(t, e)).value
        == t.(priority := ParsePriority(e.priority).value, category := ParseCategory(e.category).value,
              assignedTo := Some(e.assignedTo))
  {
    StatusLabelRoundTrip(t.status);
  }

  /** Saving the untouched form gives the ticket back, with "" for no assignee. */
  lemma {:induction false} SaveUntouched(t: Ticket)
    ensures AsTicket(Saved(t, InitialEditData(t)))
      == Some(t.(assignedTo := Some(if Present(t.assignedTo) then t.assignedTo.value else "")))
  {
    SaveSpec(t, InitialEditData(t));
    PriorityLabelRoundTrip(t.priority);
    CategoryLabelRoundTrip(t.category);
  }

  class ReviewTicketPage {
    var isEditing: bool
    var editData: EditData

    constructor (t: Ticket)
      ensures !isEditing && editData == InitialEditData(t)
    {
      isEditing := false;
      editData := InitialEditData(t);
    }

    /** The effect on a new ticket: leave edit mode and reload the form from it. */
    method TicketChanged(t: Ticket)
      modifies this
      ensures !isEditing && editData == InitialEditData(t)
    {
      isEditing := false;
      editData := InitialEditData(t);
    }

    method Edit()
      modifies this
      ensures isEditing && editData == old(editData)
    {
      isEditing := true;
    }

    method SelectPriority(p: string)
      modifies this
      ensures editData == old(editData).(priority := p) && isEditing == old(isEditing)
    {
      editData := editData.(priority := p);
    }

    method SelectCategory(c: string)
      modifies this
      ensures editData == old(editData).(category := c) && isEditing == old(isEditing)
    {
      editData := editData.(category := c);
    }

    /** The assignee select; "Unassigned" is the empty value. */
    method SelectAssignee(a: string)
      modifies this
      ensures editData == old(editData).(assignedTo := a) && isEditing == old(isEditing)
    {
      editData := editData.(assignedTo := a);
    }

    /** `handleSave`: emits the overlaid ticket and leaves edit mode. */
    method Save(t: Ticket) returns (emitted: ReviewedTicket)
      modifies this
      ensures emitted == Saved(t, old(editData))
      ensures !isEditing && editData == old(editData)
    {
      emitted := Saved(t, editData);
      isEditing := false;
    }
  }
}
