/** src/components/MyTickets.tsx: the tickets assigned to the signed-in user.
    The fetch URL and the action endpoint are chosen by if-chains (methods
    here, each specified by a closed-form description); which buttons a ticket
    card shows is a function of the user's role and the ticket's status. The
    HTTP call itself is a parameter: whether it succeeded. */
module MyTickets {
  import opened Types
  import opened Strings

  /** The part of a server ticket this page branches on (its id is a number). */
  datatype AssignedTicket = AssignedTicket(id: int, status: TicketStatus, comment: Option<string>)

  datatype HttpMethod = Get | Post | Patch

  /** A request body: none, an assignee id, or a progress comment. */
  datatype Payload = NoData | AssigneeId(assignedToId: int) | ProgressComment(comment: string)

  datatype Request = Request(verb: HttpMethod, endpoint: string, data: Payload)

  /** The roles that have a list of assigned tickets. */
  predicate IsStaffRole(role: string)
  {
    role == "admin" || role == "manager" || role == "employee"
  }

  /** `/tickets/<role>/assigned`. */
  function ListUrl(role: string): string
  {
    "/tickets/" + role + "/assigned"
  }

  /** The fetch effect: nothing without a user; otherwise the role's list, or the
      empty URL for a role the chain does not name. */
  method AssignedUrl(user: Option<User>) returns (url: Option<string>)
    ensures user.None? ==> url.None?
    ensures user.Some? && IsStaffRole(user.value.role) ==>
      url == Some(ListUrl(user.value.role))
    ensures user.Some? && !IsStaffRole(user.value.role) ==> url == Some("")
  {
    if user.None? {
      return None;
    }
    var role := user.value.role;
    var u := "";
    if role == "admin" {
      u := ListUrl("admin");
    } else if role == "manager" {
      u := ListUrl("manager");
    } else if role == "employee" {
      u := ListUrl("employee");
    }
    url := Some(u);
  }

  /** The actions `handleAction` knows. */
  predicate IsKnownAction(action: string)
  {
    action == "assign" || action == "accept" || action == "update" || action == "close" || action == "verify"
  }

  /** `/tickets/${id}/<action>`. */
  function ActionPath(id: int, action: string): string
  {
    "/tickets/" + IntToString(id) + "/" + action
  }

  /** The request `handleAction` sends: a known action goes to its own path under
      the ticket, an unknown one to the empty endpoint; only "assign" posts. */
  method ActionRequest(id: int, action: string, data: Payload) returns (r: Request)
    ensures r.endpoint == if IsKnownAction(action) then ActionPath(id, action) else ""
    ensures r.verb == Post <==> action == "assign"
    ensures r.verb == Patch <==> action != "assign"
    ensures r.data == data
  {
    var endpoint := "";
    if action == "assign" {
      endpoint := ActionPath(id, "assign");
    } else if action == "accept" {
      endpoint := ActionPath(id, "accept");
    } else if action == "update" {
      endpoint := ActionPath(id, "update");
    } else if action == "close" {
      endpoint := ActionPath(id, "close");
    } else if action == "verify" {
      endpoint := ActionPath(id, "verify");
    }
    var m := if action == "assign" then Post else Patch;
    r := Request(m, endpoint, data);
  }

  /** Different actions on the same ticket reach different endpoints. */
  lemma {:induction false} ActionPathsDistinct(id: int, a: string, b: string)
    requires ActionPath(id, a) == ActionPath(id, b)
    ensures a == b
  {
    var p := "/tickets/" + IntToString(id) + "/";
    assert ActionPath(id, a) == p + a && ActionPath(id, b) == p + b;
    assert (p + a)[|p|..] == a;
    assert (p + b)[|p|..] == b;
  }

  datatype Outcome = Reload | ActionFailed(message: string)

  /** After the call: reload the page on success, alert on failure. */
  function AfterAction(ok: bool): (o: Outcome)
    ensures o.ActionFailed? <==> !ok
    ensures o.ActionFailed? ==> o.message == "Action failed"
  {
    if ok then Reload else ActionFailed("Action failed")
  }

  // ---------------------------------------------------------------------------
  // Buttons on a ticket card

  datatype Button = AssignManager | AssignEmployee | VerifyAndClose | Accept | Update | CloseButton

  /** The buttons of a card, in order. */
  function Buttons(role: string, status: TicketStatus): seq<Button>
  {
    (if role == "admin" && status == Pending then [AssignManager] else [])
    + (if role == "manager" then [AssignEmployee] else [])
    + (if role == "manager" && status == Resolved then [VerifyAndClose] else [])
    + (if role == "employee" then [Accept] else [])
    + (if role == "employee" then [Update, CloseButton] else [])
  }

  /** What a button does: the action and its body, or `None` for Update, which
      only opens the detail dialog. The assignee ids are fixed in the source. */
  function Click(b: Button, t: AssignedTicket): Option<(string, Payload)>
  {
    match b
    case AssignManager => Some(("assign", AssigneeId(2)))
    case AssignEmployee => Some(("assign", AssigneeId(3)))
    case VerifyAndClose => Some(("verify", NoData))
    case Accept => Some(("accept", NoData))
    case Update => None
    case CloseButton => Some(("close", NoData))
  }

  /** Who sees what: an admin sees Assign Manager exactly on Pending tickets; a
      manager always sees Assign Employee and sees Verify & Close exactly on
      Resolved tickets; an employee sees Accept, Update and Close whatever the
      status; any other role sees no button. */
  lemma {:induction false} ButtonsByRole(role: string, status: TicketStatus)
    ensures role == "admin" ==> Buttons(role, status) == if status == Pending then [AssignManager] else []
    ensures role == "manager" ==>
      Buttons(role, status) == if status == Resolved then [AssignEmployee, VerifyAndClose] else [AssignEmployee]
    ensures role == "employee" ==> Buttons(role, status) == [Accept, Update, CloseButton]
    ensures !IsStaffRole(role) ==> Buttons(role, status) == []
  {
  }

  /** An employee's Close button closes a ticket in any status, Open included. */
  lemma EmployeeClosesAnyStatus(t: AssignedTicket)
    ensures CloseButton in Buttons("employee", t.status)
    ensures Click(CloseButton, t) == Some(("close", NoData))
  {
    ButtonsByRole("employee", t.status);
  }

  /** Every button that sends something names a known action. */
  lemma ClicksAreKnownActions(role: string, t: AssignedTicket, b: Button)
    requires b in Buttons(role, t.status) && Click(b, t).Some?
    ensures IsKnownAction(Click(b, t).value.0)
  {
  }

  // ---------------------------------------------------------------------------
  // The detail dialog

  /** The progress panel: only an employee, only on a ticket In Progress. */
  predicate ShowsProgressPanel(role: string, t: AssignedTicket)
  {
    role == "employee" && t.status == InProgress
  }

  class TicketDialog {
    var selected: Option<AssignedTicket>
    var updateComment: string
    var showModal: bool

    constructor ()
      ensures selected.None? && updateComment == "" && !showModal
    {
      selected := None;
      updateComment := "";
      showModal := false;
    }

    /** `openModal`: the text box starts from the ticket's last comment, or empty. */
    method Open(t: AssignedTicket)
      modifies this
      ensures selected == Some(t) && showModal
      ensures updateComment == if t.comment.Some? && t.comment.value != "" then t.comment.value else ""
    {
      selected := Some(t);
      updateComment := if t.comment.Some? && t.comment.value != "" then t.comment.value else "";
      showModal := true;
    }

    method TypeComment(text: string)
      modifies this
      ensures updateComment == text && selected == old(selected) && showModal == old(showModal)
    {
      updateComment := text;
    }

    /** The dialog's close button: hides the dialog and keeps the selection. */
    method Close()
      modifies this
      ensures !showModal
      ensures selected == old(selected) && updateComment == old(updateComment)
    {
      showModal := false;
    }

    /** Update Progress: sends the comment as an "update" and closes the dialog;
        the button exists only while the dialog is open on a selected ticket and
        the panel is shown, so a closed dialog sends nothing. */
    method SubmitProgress(role: string) returns (r: Option<Request>)
      modifies this
      ensures old(showModal) && old(selected).Some? && ShowsProgressPanel(role, old(selected).value) ==>
        r.Some? && r.value.verb == Patch
        && r.value.endpoint == ActionPath(old(selected).value.id, "update")
        && r.value.data == ProgressComment(old(updateComment))
        && !showModal
      ensures !(old(showModal) && old(selected).Some? && ShowsProgressPanel(role, old(selected).value)) ==>
        r.None? && showModal == old(showModal)
      ensures !old(showModal) ==> r.None?
      ensures selected == old(selected) && updateComment == old(updateComment)
    {
      if showModal && selected.Some? && ShowsProgressPanel(role, selected.value) {
        var req := ActionRequest(selected.value.id, "update", ProgressComment(updateComment));
        r := Some(req);
        showModal := false;
      } else {
        r := None;
      }
    }
  }
}
