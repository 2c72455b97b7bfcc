/** src/components/TicketDetailsModal.tsx: the ticket detail modal. The modal
    keeps three pieces of state (`newComment`, `isEditing`, `editData`); its
    handlers build an updated ticket by object spread and hand it to `onUpdate`,
    which the model returns as the handler's result. `now` and the comment id
    (both read from the clock in the source) are parameters. */
module TicketDetails {
  import opened Types
  import opened Strings

  /** The edit form: the three fields the sidebar lets a user change. */
  datatype EditData = EditData(status: TicketStatus, priority: Priority, assignedTo: string)

  /** `{ status: ticket.status, priority: ticket.priority, assignedTo: ticket.assignedTo || '' }`. */
  function InitialEditData(t: Ticket): (e: EditData)
    ensures e.status == t.status && e.priority == t.priority
    ensures e.assignedTo == "" <==> !Present(t.assignedTo)
    ensures Present(t.assignedTo) ==> e.assignedTo == t.assignedTo.value
  {
    EditData(t.status, t.priority, if Present(t.assignedTo) then t.assignedTo.value else "")
  }

  /** The author every comment written here carries. */
  const CommentAuthor := "Current User"

  function NewComment(t: Ticket, content: string, commentId: string, now: int): TicketComment
  {
    TicketComment(commentId, t.id, CommentAuthor, content, now, false)
  }

  /** The ticket `handleAddComment` hands to `onUpdate`. */
  function WithComment(t: Ticket, content: string, commentId: string, now: int): Ticket
  {
    t.(comments := t.comments + [NewComment(t, content, commentId, now)], updatedAt := now)
  }

  /** The fields no save, comment or quick action may touch: everything except
      status, priority, assignedTo, updatedAt, resolvedAt and comments. */
  predicate SameDescriptive(a: Ticket, b: Ticket)
  {
    a.id == b.id && a.title == b.title && a.description == b.description
    && a.category == b.category && a.createdBy == b.createdBy && a.createdAt == b.createdAt
    && a.department == b.department && a.attachments == b.attachments
    && a.unitId == b.unitId && a.equipmentId == b.equipmentId
    && a.floor == b.floor && a.room == b.room && a.bed == b.bed
  }

  /** Adding a comment appends exactly one comment, written by this ticket's
      viewer, visible to everyone, carrying the typed text; earlier comments stay
      in order and nothing but `updatedAt` changes besides. */
  lemma AddCommentAppends(t: Ticket, content: string, commentId: string, now: int)
    ensures var r := WithComment(t, content, commentId, now);
      && |r.comments| == |t.comments| + 1
      && r.comments[..|t.comments|] == t.comments
      && r.comments[|t.comments|].ticketId == t.id
      && r.comments[|t.comments|].content == content
      && !r.comments[|t.comments|].isInternal
      && r.comments[|t.comments|].createdAt == now
      && SameDescriptive(t, r)
      && r.status == t.status && r.priority == t.priority && r.assignedTo == t.assignedTo
      && r.resolvedAt == t.resolvedAt && r.updatedAt == now
  {
    var r := WithComment(t, content, commentId, now);
    assert r.comments[..|t.comments|] == t.comments;
  }

  /** `resolvedAt` on save: stamped when the status becomes Resolved, kept otherwise. */
  function SavedResolvedAt(prior: Ticket, newStatus: TicketStatus, now: int): (r: Option<int>)
    ensures r == Some(now) || r == prior.resolvedAt
    ensures prior.resolvedAt.Some? ==> r.Some?
    ensures r != prior.resolvedAt ==> newStatus == Resolved && prior.status != Resolved
  {
    if newStatus == Resolved && prior.status != Resolved then Some(now) else prior.resolvedAt
  }

  /** The ticket `handleSaveChanges` hands to `onUpdate`: `{...ticket, ...editData, updatedAt, resolvedAt}`. */
  function SavedTicket(t: Ticket, e: EditData, now: int): (r: Ticket)
    ensures SameDescriptive(t, r) && r.comments == t.comments
    ensures r.status == e.status && r.priority == e.priority && r.assignedTo == Some(e.assignedTo)
    ensures r.updatedAt == now
  {
    t.(status := e.status, priority := e.priority, assignedTo := Some(e.assignedTo),
       updatedAt := now, resolvedAt := SavedResolvedAt(t, e.status, now))
  }

  /** Save stamps `resolvedAt` with `now` exactly when the new status is Resolved
      and the old one was not; otherwise it keeps the old stamp, so it never clears it. */
  lemma {:induction false} SaveResolvedAtRule(t: Ticket, e: EditData, now: int)
    ensures var r := SavedTicket(t, e, now);
      && (r.resolvedAt == Some(now) <== e.status == Resolved && t.status != Resolved)
      && (!(e.status == Resolved && t.status != Resolved) ==> r.resolvedAt == t.resolvedAt)
      && (t.resolvedAt.Some? ==> r.resolvedAt.Some?)
  {
  }

  /** Choosing "Unassigned" in the edit form saves the empty string, which every
      view then shows as "Unassigned". */
  lemma EmptyAssigneeIsUnassigned(t: Ticket, e: EditData, now: int)
    requires e.assignedTo == ""
    ensures AssigneeLabel(SavedTicket(t, e, now).assignedTo) == "Unassigned"
  {
  }

  // ---------------------------------------------------------------------------
  // Quick status updates

  datatype QuickAction = StartWorking | MarkAsResolved | CloseTicket

  /** The quick-action buttons shown for a status. */
  function QuickActions(s: TicketStatus): (r: seq<QuickAction>)
    ensures |r| <= 1
    ensures StartWorking in r <==> s == Open
    ensures MarkAsResolved in r <==> s == InProgress || s == Pending
    ensures CloseTicket in r <==> s == Resolved
  {
    match s
    case Open => [StartWorking]
    case InProgress => [MarkAsResolved]
    case Pending => [MarkAsResolved]
    case Resolved => [CloseTicket]
    case Closed => []
  }

  function ApplyQuickAction(t: Ticket, a: QuickAction, now: int): Ticket
  {
    match a
    case StartWorking => t.(status := InProgress, updatedAt := now)
    case MarkAsResolved => t.(status := Resolved, updatedAt := now, resolvedAt := Some(now))
    case CloseTicket => t.(status := Closed, updatedAt := now)
  }

  /** How far along the quick actions a status is. */
  function Stage(s: TicketStatus): nat
  {
    match s
    case Open => 0
    case InProgress => 1
    case Pending => 1
    case Resolved => 2
    case Closed => 3
  }

  /** Each offered quick action moves the ticket exactly one stage forward
      (Open → In Progress, In Progress/Pending → Resolved, Resolved → Closed),
      with `updatedAt` = now, and touches nothing else except `resolvedAt` on resolve. */
  lemma {:induction false} QuickActionAdvances(t: Ticket, a: QuickAction, now: int)
    requires a in QuickActions(t.status)
    ensures var r := ApplyQuickAction(t, a, now);
      && Stage(r.status) == Stage(t.status) + 1
      && r.updatedAt == now
      && SameDescriptive(t, r) && r.comments == t.comments
      && r.priority == t.priority && r.assignedTo == t.assignedTo
      && (r.resolvedAt != t.resolvedAt ==> r.status == Resolved)
  {
    match t.status
    case Open => assert a == StartWorking;
    case InProgress => assert a == MarkAsResolved;
    case Pending => assert a == MarkAsResolved;
    case Resolved => assert a == CloseTicket;
  }

  /** Mark as Resolved sets status Resolved and both stamps to now; unlike Save it
      overwrites an earlier `resolvedAt` (a ticket edited back to Pending keeps its
      old stamp and loses it here). */
  lemma {:induction false} QuickResolveStampsNow(t: Ticket, now: int)
    requires t.status == InProgress || t.status == Pending
    ensures QuickActions(t.status) == [MarkAsResolved]
    ensures var r := ApplyQuickAction(t, MarkAsResolved, now);
      r.status == Resolved && r.resolvedAt == Some(now) && r.updatedAt == now
  {
  }

  /** Closed is the end of the quick actions. */
  lemma ClosedHasNoQuickAction()
    ensures QuickActions(Closed) == []
    ensures forall s :: QuickActions(s) == [] <==> s == Closed
  {
  }

  // ---------------------------------------------------------------------------
  // The modal's state

  class TicketDetailsModal {
    var newComment: string
    var isEditing: bool
    var editData: EditData

    /** `useState` initialisers: the edit form starts from the ticket shown first. */
    constructor (t: Ticket)
      ensures newComment == "" && !isEditing && editData == InitialEditData(t)
    {
      newComment := "";
      isEditing := false;
      editData := InitialEditData(t);
    }

    method TypeComment(text: string)
      modifies this
      ensures newComment == text && isEditing == old(isEditing) && editData == old(editData)
    {
      newComment := text;
    }

    /** The edit icon toggles edit mode. */
    method ToggleEditing()
      modifies this
      ensures isEditing == !old(isEditing)
      ensures newComment == old(newComment) && editData == old(editData)
    {
      isEditing := !isEditing;
    }

    method CancelEditing()
      modifies this
      ensures !isEditing && newComment == old(newComment) && editData == old(editData)
    {
      isEditing := false;
    }

    method SelectStatus(s: TicketStatus)
      modifies this
      ensures editData == old(editData).(status := s)
      ensures newComment == old(newComment) && isEditing == old(isEditing)
    {
      editData := editData.(status := s);
    }

    method SelectPriority(p: Priority)
      modifies this
      ensures editData == old(editData).(priority := p)
      ensures newComment == old(newComment) && isEditing == old(isEditing)
    {
      editData := editData.(priority := p);
    }

    /** The assignee select; its "Unassigned" option has the value "". */
    method SelectAssignee(a: string)
      modifies this
      ensures editData == old(editData).(assignedTo := a)
      ensures newComment == old(newComment) && isEditing == old(isEditing)
    {
      editData := editData.(assignedTo := a);
    }

    /** `handleAddComment`: a blank comment is ignored; otherwise the ticket with the
        comment appended is emitted and the text box is cleared. */
    method AddComment(t: Ticket, commentId: string, now: int) returns (emitted: Option<Ticket>)
      modifies this
      ensures IsBlank(old(newComment)) ==> emitted == None && newComment == old(newComment)
      ensures !IsBlank(old(newComment)) ==>
        emitted == Some(WithComment(t, old(newComment), commentId, now)) && newComment == ""
      ensures isEditing == old(isEditing) && editData == old(editData)
    {
      if IsBlank(newComment) {
        return None;
      }
      emitted := Some(WithComment(t, newComment, commentId, now));
      newComment := "";
    }

    /** `handleSaveChanges`: emits the edited ticket and leaves edit mode. */
    method SaveChanges(t: Ticket, now: int) returns (emitted: Ticket)
      modifies this
      ensures emitted == SavedTicket(t, old(editData), now)
      ensures !isEditing && newComment == old(newComment) && editData == old(editData)
    {
      emitted := SavedTicket(t, editData, now);
      isEditing := false;
    }

    /** A quick-action button: shown only outside edit mode and only for the
        action the current status offers; a button that is not shown does nothing. */
    method Quick(t: Ticket, a: QuickAction, now: int) returns (emitted: Option<Ticket>)
      ensures emitted.Some? <==> !isEditing && a in QuickActions(t.status)
      ensures emitted.Some? ==> emitted.value == ApplyQuickAction(t, a, now)
    {
      if !isEditing && a in QuickActions(t.status) {
        emitted := Some(ApplyQuickAction(t, a, now));
      } else {
        emitted := None;
      }
    }
  }
}
