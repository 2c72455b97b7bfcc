/** The ticket status rules taken together. Each component changes a ticket's
    status by its own rule, and the rules do not agree; the members here stand
    the components' own definitions side by side. */
module Lifecycle {
  import opened Types
  import TicketDetails
  import MyTickets
  import ServiceSlip
  import ReviewList
  import ReviewTicket

  /** Declining disagrees: the service slip's Decline reports the ticket Closed,
      where the review list's Decline leaves it Pending (and still offered for an
      answer). The slip's Closed ticket has no quick action left. */
  method DeclinesDisagree(slip: ServiceSlip.ServiceSlipState) returns (slipReport: Option<Ticket>, listReport: Ticket)
    requires !slip.isAccepted
    ensures slipReport == Some(WithStatus(slip.ticket, Closed))
    ensures listReport == ReviewList.Answered(slip.ticket, slip.ticket.id, ReviewList.DeclineWork)
    ensures slipReport.Some? && slipReport.value.status == Closed && listReport.status == Pending
    ensures ReviewList.Offered("employee", listReport)
    ensures TicketDetails.QuickActions(slipReport.value.status) == []
  {
    var _, reported, _ := slip.Decline(true);
    slipReport := reported;
    listReport := ReviewList.Answered(slip.ticket, slip.ticket.id, ReviewList.DeclineWork);
    TicketDetails.ClosedHasNoQuickAction();
  }

  /** Accepting agrees: the slip's Accept and the review list's Accept both give
      In Progress, and change nothing else of the ticket. */
  lemma {:induction false} AcceptsAgree(t: Ticket)
    ensures ReviewList.Answered(t, t.id, ReviewList.AcceptWork) == WithStatus(t, InProgress)
    ensures TicketDetails.QuickActions(InProgress) == [TicketDetails.MarkAsResolved]
  {
  }

  /** Closing disagrees: an employee's card offers Close on a ticket in any
      status, where the detail modal's quick actions offer Close Ticket only on a
      Resolved one. */
  lemma {:induction false} ClosingDisagrees(t: MyTickets.AssignedTicket)
    requires t.status != Resolved
    ensures MyTickets.CloseButton in MyTickets.Buttons("employee", t.status)
    ensures MyTickets.Click(MyTickets.CloseButton, t) == Some(("close", MyTickets.NoData))
    ensures TicketDetails.CloseTicket !in TicketDetails.QuickActions(t.status)
  {
    MyTickets.EmployeeClosesAnyStatus(t);
  }

  /** The review page's Approve and Reject leave the status type altogether:
      without a parent handler they emit a record that is no ticket, whatever
      the ticket's status was. */
  lemma {:induction false} ReviewVerdictsLeaveTheEnum(t: Ticket)
    ensures ReviewTicket.Approve(t, false).Emit? && ReviewTicket.Reject(t, false).Emit?
    ensures ReviewTicket.AsTicket(ReviewTicket.Approve(t, false).ticket).None?
    ensures ReviewTicket.AsTicket(ReviewTicket.Reject(t, false).ticket).None?
  {
    ReviewTicket.ApproveRejectOutsideEnum(t);
  }

  /** The two ways of resolving disagree on `resolvedAt`: saving a Resolved
      ticket back to Pending keeps its stamp (a Pending ticket with a resolution
      time), and Mark as Resolved then overwrites that stamp with the new time. */
  lemma {:induction false} ResolvedAtDisagrees(t: Ticket, e: TicketDetails.EditData, now: int, later: int)
    requires t.status == Resolved && t.resolvedAt.Some? && e.status == Pending
    requires later != t.resolvedAt.value
    ensures var saved := TicketDetails.SavedTicket(t, e, now);
      && saved.status == Pending && saved.resolvedAt == t.resolvedAt
      && TicketDetails.QuickActions(saved.status) == [TicketDetails.MarkAsResolved]
      && TicketDetails.ApplyQuickAction(saved, TicketDetails.MarkAsResolved, later).resolvedAt == Some(later)
      && TicketDetails.ApplyQuickAction(saved, TicketDetails.MarkAsResolved, later).resolvedAt != t.resolvedAt
  {
    TicketDetails.SaveResolvedAtRule(t, e, now);
  }
}
