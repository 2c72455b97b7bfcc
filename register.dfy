/** src/components/Register.tsx (the live component, from line 219): the sign-up
    form. `handleSubmit` runs three checks in order and stops at the first that
    fails; a form that passes them is posted with the unit and the admin code
    shaped by the role. The POST is split at its `await`. */
module Register {
  import opened Types
  import opened Strings

  datatype RegisterForm = RegisterForm(
    name: string,
    email: string,
    password: string,
    phone: string,
    unitId: string,
    role: string,
    department: string,
    adminCode: string)

  /** The form's initial values: every text empty and the role `employee`. */
  const DefaultForm := RegisterForm("", "", "", "", "", "employee", "", "")

  predicate IsAdmin(f: RegisterForm)
  {
    f.role == "admin"
  }

  const CredentialsMissing := "Name, email and password are required"
  const DepartmentMissing := "Department is required"
  const UnitMissing := "Unit is required"

  /** The message of the first check that fails, in source order; the tests are
      truthiness tests, so only the empty string fails (no trimming). */
  function FirstError(f: RegisterForm): (r: Option<string>)
    ensures r.None? <==> (
      && f.name != "" && f.email != "" && f.password != "" && f.department != ""
      && (IsAdmin(f) || f.unitId != ""))
  {
    if f.name == "" || f.email == "" || f.password == "" then Some(CredentialsMissing)
    else if f.department == "" then Some(DepartmentMissing)
    else if !IsAdmin(f) && f.unitId == "" then Some(UnitMissing)
    else None
  }

  /** The first failure wins: a missing name, email or password is reported
      whatever the department and unit; a missing department whatever the unit. */
  lemma {:induction false} FirstFailureWins(f: RegisterForm, department: string, unitId: string, role: string)
    ensures (f.name == "" || f.email == "" || f.password == "") ==>
      FirstError(f.(department := department, unitId := unitId, role := role)) == Some(CredentialsMissing)
    ensures f.name != "" && f.email != "" && f.password != "" && f.department == "" ==>
      FirstError(f.(unitId := unitId, role := role)) == Some(DepartmentMissing)
    ensures FirstError(f) == Some(UnitMissing) <==>
      f.name != "" && f.email != "" && f.password != "" && f.department != "" && !IsAdmin(f) && f.unitId == ""
  {
  }

  /** Only an admin may leave the unit empty: with the other checks passing,
      an empty unit is an error for every other role and never for an admin. */
  lemma {:induction false} OnlyAdminsOmitUnit(f: RegisterForm)
    requires f.name != "" && f.email != "" && f.password != "" && f.department != "" && f.unitId == ""
    ensures FirstError(f).None? <==> IsAdmin(f)
    ensures FirstError(f.(role := "manager")) == Some(UnitMissing)
    ensures FirstError(f.(role := "employee")) == Some(UnitMissing)
    ensures FirstError(f.(role := "admin")).None?
  {
  }

  /** The admin code is never looked at by validation: whatever it holds, the
      outcome is the same, for admins and managers too. */
  lemma {:induction false} AdminCodeNeverChecked(f: RegisterForm, code: string)
    ensures FirstError(f.(adminCode := code)) == FirstError(f)
    ensures FirstError(f.(adminCode := "")).None? <==> FirstError(f).None?
  {
  }

  /** The body posted to `/auth/register`. */
  datatype RegisterPayload = RegisterPayload(
    name: string,
    email: string,
    password: string,
    phone: string,
    role: string,
    department: string,
    unitId: Option<JsNumber>,
    adminCode: Option<string>)

  predicate SendsAdminCode(role: string)
  {
    role == "admin" || role == "manager"
  }

  function Payload(f: RegisterForm): RegisterPayload
  {
    RegisterPayload(f.name, f.email, f.password, f.phone, f.role, f.department,
      if IsAdmin(f) then None else Some(ToNumber(f.unitId)),
      if SendsAdminCode(f.role) then Some(f.adminCode) else None)
  }

  /** The unit is null exactly for an admin and otherwise `Number(unitId)` (the
      selected unit's number); the admin code goes out exactly for an admin or a
      manager; the rest is copied. */
  lemma {:induction false} PayloadSpec(f: RegisterForm)
    ensures Payload(f).unitId.None? <==> IsAdmin(f)
    ensures !IsAdmin(f) && AllDigits(f.unitId) && f.unitId != "" ==>
      Payload(f).unitId == Some(Finite(DigitsValue(f.unitId)))
    ensures Payload(f).adminCode.Some? <==> f.role == "admin" || f.role == "manager"
    ensures Payload(f).adminCode.Some? ==> Payload(f).adminCode.value == f.adminCode
    ensures Payload(f).role == "employee" ==> Payload(f).adminCode.None? && Payload(f).unitId.Some?
    ensures Payload(f).name == f.name && Payload(f).email == f.email && Payload(f).password == f.password
      && Payload(f).phone == f.phone && Payload(f).department == f.department && Payload(f).role == f.role
  {
    if !IsAdmin(f) && AllDigits(f.unitId) && f.unitId != "" {
      AllDigitsIsNumber(f.unitId);
    }
  }

  /** A unit select value of digits reads as its number. */
  lemma {:induction false} AllDigitsIsNumber(s: string)
    requires AllDigits(s) && s != ""
    ensures ToNumber(s) == Finite(DigitsValue(s))
  {
    assert !IsWhitespace(s[0]) && !IsWhitespace(s[|s| - 1]);
    assert Trim(s) == s;
  }

  datatype Field = NameField | EmailField | PasswordField | PhoneField | UnitField
                 | RoleField | DepartmentField | AdminCodeField

  /** `{ ...prev, [name]: value }`. */
  function WithField(f: RegisterForm, field: Field, value: string): RegisterForm
  {
    match field
    case NameField => f.(name := value)
    case EmailField => f.(email := value)
    case PasswordField => f.(password := value)
    case PhoneField => f.(phone := value)
    case UnitField => f.(unitId := value)
    case RoleField => f.(role := value)
    case DepartmentField => f.(department := value)
    case AdminCodeField => f.(adminCode := value)
  }

  function FieldValue(f: RegisterForm, field: Field): string
  {
    match field
    case NameField => f.name
    case EmailField => f.email
    case PasswordField => f.password
    case PhoneField => f.phone
    case UnitField => f.unitId
    case RoleField => f.role
    case DepartmentField => f.department
    case AdminCodeField => f.adminCode
  }

  /** A change sets that field and leaves every other one. */
  lemma {:induction false} WithFieldSpec(f: RegisterForm, field: Field, value: string)
    ensures FieldValue(WithField(f, field, value), field) == value
    ensures forall g :: g != field ==> FieldValue(WithField(f, field, value), g) == FieldValue(f, g)
  {
  }

  class RegisterPage {
    var form: RegisterForm
    var loading: bool
    var error: Option<string>
    var success: Option<string>

    constructor ()
      ensures form == DefaultForm && !loading && error.None? && success.None?
    {
      form := DefaultForm;
      loading := false;
      error := None;
      success := None;
    }

    method Change(field: Field, value: string)
      modifies this
      ensures form == WithField(old(form), field, value)
      ensures loading == old(loading) && error == old(error) && success == old(success)
    {
      form := WithField(form, field, value);
    }

    /** `handleSubmit` up to the POST: both messages are cleared, then the
        checks run in order and the first failure is shown with nothing sent;
        a form that passes starts loading and posts its payload. */
    method BeginSubmit() returns (request: Option<RegisterPayload>)
      modifies this
      ensures FirstError(form).Some? ==> request.None? && error == FirstError(form) && loading == old(loading)
      ensures FirstError(form).None? ==> request == Some(Payload(form)) && error.None? && loading
      ensures success.None? && form == old(form)
    {
      error := None;
      success := None;
      if form.name == "" || form.email == "" || form.password == "" {
        error := Some(CredentialsMissing);
        return None;
      }
      if form.department == "" {
        error := Some(DepartmentMissing);
        return None;
      }
      if !IsAdmin(form) && form.unitId == "" {
        error := Some(UnitMissing);
        return None;
      }
      loading := true;
      request := Some(Payload(form));
    }

    /** The rest of `handleSubmit`: success shows the redirect notice (the
        timed navigation to "/" is left to the caller); failure shows the
        server's message or "Registration failed". Loading ends either way. */
    method EndSubmit(ok: bool, serverMessage: Option<string>) returns (redirectTo: Option<string>)
      modifies this
      ensures ok ==> success == Some("Registration successful! Redirecting...") && redirectTo == Some("/")
      ensures ok ==> error == old(error)
      ensures !ok ==> redirectTo.None? && success == old(success)
      ensures !ok ==> error == Some(if Present(serverMessage) then serverMessage.value else "Registration failed")
      ensures !loading && form == old(form)
    {
      if ok {
        success := Some("Registration successful! Redirecting...");
        redirectTo := Some("/");
      } else {
        error := Some(if Present(serverMessage) then serverMessage.value else "Registration failed");
        redirectTo := None;
      }
      loading := false;
    }
  }

  /** The untouched form is refused for its missing name, email and password. */
  lemma DefaultFormRefused()
    ensures FirstError(DefaultForm) == Some(CredentialsMissing)
    ensures !IsAdmin(DefaultForm) && Payload(DefaultForm).adminCode.None?
  {
  }
}
