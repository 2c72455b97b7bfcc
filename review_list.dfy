/** src/components/Reviewlist.tsx: the list of tickets sent to the signed-in user
    for review. The ticket list is the state; `respond` patches the server and,
    once the patch succeeds, replaces the list by a copy in which the answered
    ticket has its new status. */
module ReviewList {
  import opened Types

  predicate IsReviewRole(role: string)
  {
    role == "admin" || role == "manager" || role == "employee"
  }

  /** The fetch effect: nothing without a user. The three role tests are
      independent `if`s; the roles are distinct, so at most one applies. */
  method ReviewUrl(user: Option<User>) returns (url: Option<string>)
    ensures user.None? ==> url.None?
    ensures user.Some? && IsReviewRole(user.value.role) ==> url == Some("/tickets/" + user.value.role + "/my")
    ensures user.Some? && !IsReviewRole(user.value.role) ==> url == Some("")
  {
    if user.None? {
      return None;
    }
    var role := user.value.role;
    var u := "";
    if role == "admin" {
      u := "/tickets/admin/my";
      assert u == "/tickets/" + role + "/my";
    }
    if role == "manager" {
      u := "/tickets/manager/my";
      assert u == "/tickets/" + role + "/my";
    }
    if role == "employee" {
      u := "/tickets/employee/my";
      assert u == "/tickets/" + role + "/my";
    }
    url := Some(u);
  }

  datatype Answer = AcceptWork | DeclineWork

  /** The status an answer gives: accept is In Progress, decline is Pending. */
  function AnsweredStatus(a: Answer): TicketStatus
  {
    if a == AcceptWork then InProgress else Pending
  }

  /** The per-ticket step of the `map`: only the answered ticket changes. */
  function Answered(t: Ticket, id: string, a: Answer): Ticket
  {
    if t.id == id then WithStatus(t, AnsweredStatus(a)) else t
  }

  /** What the local update does: the list keeps its length and order; each
      ticket with the answered id takes the answer's status and keeps all its
      other fields; every other ticket is untouched. */
  function AnswerAll(tickets: seq<Ticket>, id: string, a: Answer): (r: seq<Ticket>)
    ensures |r| == |tickets|
    ensures forall i :: 0 <= i < |r| && tickets[i].id == id ==>
      r[i].status == AnsweredStatus(a) && SameExceptStatus(tickets[i], r[i])
    ensures forall i :: 0 <= i < |r| && tickets[i].id != id ==> r[i] == tickets[i]
    ensures forall i :: 0 <= i < |r| ==> r[i].id == tickets[i].id
  {
    seq(|tickets|, i requires 0 <= i < |tickets| => Answered(tickets[i], id, a))
  }

  /** The Accept/Decline pair shows only to an employee on a Pending ticket. */
  predicate Offered(role: string, t: Ticket)
  {
    role == "employee" && t.status == Pending
  }

  /** Accepting takes the ticket off the employee's Accept/Decline list; declining
      leaves it Pending, so the same pair is offered again. */
  lemma {:induction false} AnswerAndOffer(tickets: seq<Ticket>, id: string, i: int)
    requires 0 <= i < |tickets| && tickets[i].id == id
    ensures !Offered("employee", AnswerAll(tickets, id, AcceptWork)[i])
    ensures Offered("employee", AnswerAll(tickets, id, DeclineWork)[i])
  {
    assert AnswerAll(tickets, id, AcceptWork)[i].status == InProgress;
    assert AnswerAll(tickets, id, DeclineWork)[i].status == Pending;
  }

  /** Answering twice the same way is the same as answering once. */
  lemma {:induction false} AnswerIdempotent(tickets: seq<Ticket>, id: string, a: Answer)
    ensures AnswerAll(AnswerAll(tickets, id, a), id, a) == AnswerAll(tickets, id, a)
  {
    var once := AnswerAll(tickets, id, a);
    var twice := AnswerAll(once, id, a);
    forall i | 0 <= i < |tickets| ensures twice[i] == once[i] {
      assert once[i].id == tickets[i].id;
    }
  }

  datatype RespondRequest = RespondRequest(path: string, answer: Answer)

  class ReviewListState {
    var tickets: seq<Ticket>

    constructor ()
      ensures tickets == []
    {
      tickets := [];
    }

    /** The fetched list replaces the state. */
    method Loaded(fetched: seq<Ticket>)
      modifies this
      ensures tickets == fetched
    {
      tickets := fetched;
    }

    /** `respond`: the PATCH is always sent; the list changes only if it succeeds. */
    method Respond(id: string, a: Answer, ok: bool) returns (request: RespondRequest)
      modifies this
      ensures request == RespondRequest("/tickets/" + id + "/respond", a)
      ensures ok ==> tickets == AnswerAll(old(tickets), id, a)
      ensures !ok ==> tickets == old(tickets)
    {
      request := RespondRequest("/tickets/" + id + "/respond", a);
      if ok {
        tickets := AnswerAll(tickets, id, a);
      }
    }
  }
}
