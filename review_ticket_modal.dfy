/** src/components/ReviewTicketModal.tsx: the work dialog. The user's role alone
    decides which buttons appear; each button sends one fixed PATCH, the two
    verification steps with the typed note. */
module ReviewTicketModal {
  import opened Types

  datatype WorkAction = StartWork | CompleteWork | VerifyWork | CloseTicket

  /** The buttons for a role, in order. The ticket is an argument only to make
      plain that it plays no part. */
  function WorkActions(role: string, t: Ticket): seq<WorkAction>
  {
    if role == "employee" then [StartWork, CompleteWork]
    else if role == "manager" then [VerifyWork]
    else if role == "admin" then [CloseTicket]
    else []
  }

  datatype WorkRequest = WorkRequest(path: string, note: Option<string>)

  /** The PATCH each button sends. */
  function WorkRequestFor(a: WorkAction, t: Ticket, note: string): WorkRequest
  {
    var base := "/tickets/" + t.id + "/";
    match a
    case StartWork => WorkRequest(base + "start", None)
    case CompleteWork => WorkRequest(base + "complete", None)
    case VerifyWork => WorkRequest(base + "manager-verify", Some(note))
    case CloseTicket => WorkRequest(base + "department-verify", Some(note))
  }

  /** The suffix each action adds to the ticket's path. */
  function Suffix(a: WorkAction): string
  {
    match a
    case StartWork => "start"
    case CompleteWork => "complete"
    case VerifyWork => "manager-verify"
    case CloseTicket => "department-verify"
  }

  /** Employees start and complete work, managers verify, admins close; other
      roles get no button, and the ticket (its status included) changes nothing. */
  lemma {:induction false} ActionsByRole(role: string, t: Ticket, u: Ticket)
    ensures WorkActions(role, t) == WorkActions(role, u)
    ensures role == "employee" ==> WorkActions(role, t) == [StartWork, CompleteWork]
    ensures role == "manager" ==> WorkActions(role, t) == [VerifyWork]
    ensures role == "admin" ==> WorkActions(role, t) == [CloseTicket]
    ensures !(role == "employee" || role == "manager" || role == "admin") ==> WorkActions(role, t) == []
  {
  }

  /** Each action patches its own path under the ticket, and the note goes
      exactly with the two verification steps. */
  lemma {:induction false} RequestsSpec(a: WorkAction, b: WorkAction, t: Ticket, note: string)
    ensures WorkRequestFor(a, t, note).path == "/tickets/" + t.id + "/" + Suffix(a)
    ensures WorkRequestFor(a, t, note).note.Some? <==> a == VerifyWork || a == CloseTicket
    ensures WorkRequestFor(a, t, note).note.Some? ==> WorkRequestFor(a, t, note).note.value == note
    ensures a != b ==> WorkRequestFor(a, t, note).path != WorkRequestFor(b, t, note).path
  {
    var base := "/tickets/" + t.id + "/";
    if a != b {
      var pa, pb := WorkRequestFor(a, t, note).path, WorkRequestFor(b, t, note).path;
      assert pa == base + Suffix(a) && pb == base + Suffix(b);
      assert pa[|base|..] == Suffix(a);
      assert pb[|base|..] == Suffix(b);
    }
  }

  /** The note the verification buttons send: the textarea's last value. */
  class WorkDialog {
    var note: string

    constructor ()
      ensures note == ""
    {
      note := "";
    }

    method TypeNote(text: string)
      modifies this
      ensures note == text
    {
      note := text;
    }

    /** A click: a button the role does not have is not there to be clicked. */
    method Click(role: string, t: Ticket, a: WorkAction) returns (r: Option<WorkRequest>)
      ensures r.Some? <==> a in WorkActions(role, t)
      ensures r.Some? ==> r.value == WorkRequestFor(a, t, note)
    {
      if a in WorkActions(role, t) {
        r := Some(WorkRequestFor(a, t, note));
      } else {
        r := None;
      }
    }
  }
}
