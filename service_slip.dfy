/** src/components/Serviceslip.tsx: the service slip shown for one ticket. It is
    a small state machine: Accept (guarded by `isAccepted` and the in-flight flag
    `isAccepting`), Decline (only before acceptance) and, once accepted, Assign
    with its form fields. Each HTTP call is split at its `await`: the method
    returns the request it sends, and its continuation receives whether the call
    succeeded (and, for Assign, the ticket the server sent back). */
module ServiceSlip {
  import opened Types
  import opened Strings

  /** The extra-cost input holds "" or a number. */
  datatype CostInput = Blank | Amount(n: JsNumber)

  /** `extraCost || 0`: every falsy value ("", 0, NaN) is sent as 0. */
  function SentCost(c: CostInput): (r: JsNumber)
    ensures r.Finite?
    ensures c.Blank? ==> r == Finite(0)
    ensures c.Amount? && TruthyNumber(c.n) ==> r == c.n
    ensures !(c.Amount? && TruthyNumber(c.n)) ==> r == Finite(0)
  {
    if c.Amount? && TruthyNumber(c.n) then c.n else Finite(0)
  }

  datatype AssignPayload = AssignPayload(
    assignedToId: JsNumber,
    requiredEquipmentIds: seq<int>,
    equipmentNote: string,
    deadline: string,
    extraCost: JsNumber)

  datatype SlipRequest =
    | StatusPatch(path: string, status: TicketStatus)
    | AssignPost(path: string, payload: AssignPayload)

  function StatusPath(t: Ticket): string
  {
    "/tickets/" + t.id + "/status"
  }

  function AssignPath(t: Ticket): string
  {
    "/tickets/" + t.id + "/assign"
  }

  /** What an Assign click leads to. */
  datatype AssignResult =
    | NotShown                                   // the section is hidden until accepted
    | Refused(alert: string)                     // no assignee or no deadline
    | Sent(request: SlipRequest)                 // the POST is on its way

  class ServiceSlipState {
    const ticket: Ticket
    var isAccepted: bool
    var isAccepting: bool
    var assignedToId: Option<JsNumber>
    const requiredEquipmentIds: seq<int>
    var equipmentNote: string
    var deadline: string
    var extraCost: CostInput

    /** `useState` initialisers: a ticket already In Progress counts as accepted. */
    constructor (t: Ticket)
      ensures ticket == t && (isAccepted <==> t.status == InProgress) && !isAccepting
      ensures assignedToId.None? && requiredEquipmentIds == [] && equipmentNote == ""
      ensures deadline == "" && extraCost == Blank
    {
      ticket := t;
      isAccepted := t.status == InProgress;
      isAccepting := false;
      assignedToId := None;
      requiredEquipmentIds := [];
      equipmentNote := "";
      deadline := "";
      extraCost := Blank;
    }

    /** The assignable users and equipment are fetched only once accepted, and the
        assign section is shown only then. */
    predicate AssignSectionShown()
      reads this
    {
      isAccepted
    }

    /** `!assignedToId || !deadline`: the Assign button is disabled. */
    predicate AssignBlocked()
      reads this
    {
      !(assignedToId.Some? && TruthyNumber(assignedToId.value)) || deadline == ""
    }

    /** The first half of `handleAccept`: refused while accepted or in flight;
        otherwise marks the call in flight and sends the status patch. */
    method BeginAccept() returns (request: Option<SlipRequest>)
      modifies this
      ensures old(isAccepted) || old(isAccepting) ==>
        request.None? && isAccepting == old(isAccepting)
      ensures !(old(isAccepted) || old(isAccepting)) ==>
        request == Some(StatusPatch(StatusPath(ticket), InProgress)) && isAccepting
      ensures isAccepted == old(isAccepted)
      ensures assignedToId == old(assignedToId) && equipmentNote == old(equipmentNote)
      ensures deadline == old(deadline) && extraCost == old(extraCost)
    {
      if isAccepted || isAccepting {
        return None;
      }
      isAccepting := true;
      request := Some(StatusPatch(StatusPath(ticket), InProgress));
    }

    /** The rest of `handleAccept`, once the patch has answered: on success the
        slip is accepted and reports the ticket moved to In Progress; in every
        case the call is no longer in flight. */
    method EndAccept(ok: bool) returns (reported: Option<Ticket>)
      requires isAccepting
      modifies this
      ensures !isAccepting
      ensures isAccepted == (old(isAccepted) || ok)
      ensures ok ==> reported == Some(WithStatus(ticket, InProgress))
      ensures !ok ==> reported.None?
      ensures assignedToId == old(assignedToId) && equipmentNote == old(equipmentNote)
      ensures deadline == old(deadline) && extraCost == old(extraCost)
    {
      if ok {
        isAccepted := true;
        reported := Some(WithStatus(ticket, InProgress));
      } else {
        reported := None;
      }
      isAccepting := false;
    }

    /** `handleDecline`: a no-op once accepted; otherwise sends the patch to Closed
        and, if it succeeds, reports the closed ticket and closes the slip. */
    method Decline(ok: bool) returns (request: Option<SlipRequest>, reported: Option<Ticket>, closes: bool)
      ensures isAccepted ==> request.None? && reported.None? && !closes
      ensures !isAccepted ==> request == Some(StatusPatch(StatusPath(ticket), Closed))
      ensures !isAccepted && ok ==> reported == Some(WithStatus(ticket, Closed)) && closes
      ensures !ok ==> reported.None? && !closes
    {
      if isAccepted {
        return None, None, false;
      }
      request := Some(StatusPatch(StatusPath(ticket), Closed));
      if ok {
        reported := Some(WithStatus(ticket, Closed));
        closes := true;
      } else {
        reported := None;
        closes := false;
      }
    }

    /** The assignee select: the empty option is null, any other value its number. */
    method SelectAssignee(val: string)
      modifies this
      ensures assignedToId == if val == "" then None else Some(ToNumber(val))
      ensures isAccepted == old(isAccepted) && isAccepting == old(isAccepting)
      ensures equipmentNote == old(equipmentNote) && deadline == old(deadline) && extraCost == old(extraCost)
    {
      assignedToId := if val == "" then None else Some(ToNumber(val));
    }

    method SetDeadline(val: string)
      modifies this
      ensures deadline == val
      ensures isAccepted == old(isAccepted) && isAccepting == old(isAccepting)
      ensures assignedToId == old(assignedToId) && equipmentNote == old(equipmentNote) && extraCost == old(extraCost)
    {
      deadline := val;
    }

    /** The extra-cost input keeps "" as "" and otherwise stores `Number(value)`. */
    method SetExtraCost(val: string)
      modifies this
      ensures extraCost == if val == "" then Blank else Amount(ToNumber(val))
      ensures isAccepted == old(isAccepted) && isAccepting == old(isAccepting)
      ensures assignedToId == old(assignedToId) && equipmentNote == old(equipmentNote) && deadline == old(deadline)
    {
      extraCost := if val == "" then Blank else Amount(ToNumber(val));
    }

    method SetEquipmentNote(val: string)
      modifies this
      ensures equipmentNote == val
      ensures isAccepted == old(isAccepted) && isAccepting == old(isAccepting)
      ensures assignedToId == old(assignedToId) && deadline == old(deadline) && extraCost == old(extraCost)
    {
      equipmentNote := val;
    }

    /** The payload `handleAssign` posts. */
    function Payload(): AssignPayload
      reads this
      requires assignedToId.Some?
    {
      AssignPayload(assignedToId.value, requiredEquipmentIds, equipmentNote, deadline, SentCost(extraCost))
    }

    /** `handleAssign`, up to the POST: refused (with its alert) exactly when the
        button is disabled; otherwise the form goes out with the empty extra cost
        sent as 0. Nothing happens while the section is hidden. */
    method Assign() returns (r: AssignResult)
      ensures !AssignSectionShown() ==> r == NotShown
      ensures AssignSectionShown() && AssignBlocked() ==> r == Refused("Employee and deadline are required")
      ensures AssignSectionShown() && !AssignBlocked() ==>
        r == Sent(AssignPost(AssignPath(ticket), Payload()))
      ensures r.Sent? ==> r.request.AssignPost? && r.request.payload.extraCost.Finite?
      ensures r.Sent? ==> r.request.AssignPost? && r.request.payload.deadline != ""
      ensures r.Sent? ==> r.request.AssignPost? && TruthyNumber(r.request.payload.assignedToId)
    {
      if !isAccepted {
        return NotShown;
      }
      if !(assignedToId.Some? && TruthyNumber(assignedToId.value)) || deadline == "" {
        return Refused("Employee and deadline are required");
      }
      r := Sent(AssignPost(AssignPath(ticket), Payload()));
    }
  }

  /** The alert shown after the POST, and the ticket reported upward: the
      server's record on success, nothing on failure. */
  function AfterAssign(ok: bool, serverTicket: Ticket): (r: (Option<Ticket>, string))
    ensures ok ==> r.0 == Some(serverTicket) && r.1 == "Work assigned & notification sent"
    ensures !ok ==> r.0.None? && r.1 == "Failed to assign work"
  {
    if ok then (Some(serverTicket), "Work assigned & notification sent") else (None, "Failed to assign work")
  }

  /** Once accepted, a slip can no longer be declined, and Accept is spent. */
  method AcceptedSlipIsFinal(slip: ServiceSlipState) returns (declined: Option<SlipRequest>, accept: Option<SlipRequest>)
    requires slip.isAccepted
    modifies slip
    ensures declined.None? && accept.None? && slip.isAccepted
  {
    var d, _, _ := slip.Decline(true);
    var a := slip.BeginAccept();
    declined, accept := d, a;
  }

  /** Accepting and declining report different statuses: In Progress and Closed,
      and nothing else of the ticket differs. */
  lemma {:induction false} AcceptAndDeclineReports(t: Ticket)
    ensures WithStatus(t, InProgress).status == InProgress && SameExceptStatus(t, WithStatus(t, InProgress))
    ensures WithStatus(t, Closed).status == Closed && SameExceptStatus(t, WithStatus(t, Closed))
    ensures WithStatus(t, InProgress) != WithStatus(t, Closed)
  {
  }
}
