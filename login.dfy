/** src/components/LoginPage.tsx: the sign-in form. The credentials and the
    error dictionary are the state; validation fills a fresh dictionary, submit
    posts only a valid form, and editing a field clears that field's error and
    the general one. The POST is split at its `await`. */
module Login {
  import opened Types
  import opened Strings
  import opened Forms

  datatype Field = Email | Password

  /** The error dictionary's keys: one per field, and `general` for the server. */
  datatype ErrorKey = FieldError(field: Field) | General

  datatype Credentials = Credentials(email: string, password: string)

  const MinPasswordLength := 6

  /** What the validator reports about a password, if anything: a blank one is
      missing, and any other one shorter than six characters is too short. */
  function PasswordError(password: string): Option<string>
  {
    if IsBlank(password) then Some("Password is required")
    else if |password| < MinPasswordLength then Some("Password must be at least 6 characters")
    else None
  }

  /** The dictionary `validateForm` builds, stated key by key. */
  function FormErrors(c: Credentials): map<ErrorKey, string>
  {
    var e := if IsBlank(c.email) then map[FieldError(Email) := "Email is required"] else map[];
    if PasswordError(c.password).Some? then e[FieldError(Password) := PasswordError(c.password).value] else e
  }

  /** The email has an error exactly when it is blank; the password has at most
      one, "required" exactly when it is blank and the length error exactly when
      it is not blank but shorter than six; no general error comes from
      validation. */
  lemma {:induction false} FormErrorsSpec(c: Credentials)
    ensures FieldError(Email) in FormErrors(c) <==> IsBlank(c.email)
    ensures FieldError(Password) in FormErrors(c) <==> IsBlank(c.password) || |c.password| < 6
    ensures FieldError(Password) in FormErrors(c) ==>
      (FormErrors(c)[FieldError(Password)] == "Password is required" <==> IsBlank(c.password))
    ensures General !in FormErrors(c)
    ensures FormErrors(c) == map[] <==> !IsBlank(c.email) && !IsBlank(c.password) && |c.password| >= 6
  {
    if FormErrors(c) == map[] {
      assert FieldError(Email) !in FormErrors(c);
      assert FieldError(Password) !in FormErrors(c);
    }
  }

  /** A whitespace-only password of six or more characters is reported as
      missing, not as short: the blank check runs before the length check. */
  lemma LongBlankPasswordIsMissing()
    ensures PasswordError("      ") == Some("Password is required")
    ensures PasswordError("  ab") == Some("Password must be at least 6 characters")
  {
    assert IsWhitespace(' ');
    assert AllWhitespace("      ");
    assert !IsWhitespace('a');
    assert !AllWhitespace("  ab") by {
      assert "  ab"[2] == 'a';
    }
  }

  /** The request `handleSubmit` posts. */
  datatype LoginRequest = LoginRequest(path: string, email: string, password: string)

  class LoginPage {
    var credentials: Credentials
    var errors: map<ErrorKey, string>
    var isLoading: bool

    constructor ()
      ensures credentials == Credentials("", "") && errors == map[] && !isLoading
    {
      credentials := Credentials("", "");
      errors := map[];
      isLoading := false;
    }

    /** `validateForm`: the checks run in source order on a fresh dictionary,
        which replaces the errors; valid when it has no key. */
    method ValidateForm() returns (valid: bool)
      modifies this
      ensures errors == FormErrors(credentials)
      ensures valid <==> errors == map[]
      ensures credentials == old(credentials) && isLoading == old(isLoading)
    {
      var newErrors: map<ErrorKey, string> := map[];
      if IsBlank(credentials.email) {
        newErrors := newErrors[FieldError(Email) := "Email is required"];
      }
      if IsBlank(credentials.password) {
        newErrors := newErrors[FieldError(Password) := "Password is required"];
      } else if |credentials.password| < MinPasswordLength {
        newErrors := newErrors[FieldError(Password) := "Password must be at least 6 characters"];
      }
      errors := newErrors;
      valid := |newErrors.Keys| == 0;
      if !valid {
        assert newErrors.Keys != {};
      }
    }

    /** `handleSubmit` up to the POST: an invalid form sends nothing; a valid one
        starts loading and sends the credentials as typed. */
    method BeginSubmit() returns (request: Option<LoginRequest>)
      modifies this
      ensures errors == FormErrors(credentials) && credentials == old(credentials)
      ensures errors != map[] ==> request.None? && isLoading == old(isLoading)
      ensures errors == map[] ==>
        request == Some(LoginRequest("/auth/login", credentials.email, credentials.password)) && isLoading
    {
      var valid := ValidateForm();
      if !valid {
        return None;
      }
      isLoading := true;
      request := Some(LoginRequest("/auth/login", credentials.email, credentials.password));
    }

    /** The rest of `handleSubmit`: the server's user goes to the parent; a
        failure shows the server's message, or "Login failed" without one, as
        the only error. Loading ends either way. */
    method EndSubmit(ok: bool, user: User, serverMessage: Option<string>) returns (loggedIn: Option<User>)
      modifies this
      ensures ok ==> loggedIn == Some(user) && errors == old(errors)
      ensures !ok ==> loggedIn.None?
      ensures !ok ==> errors == map[General := if Present(serverMessage) then serverMessage.value else "Login failed"]
      ensures !isLoading && credentials == old(credentials)
    {
      if ok {
        loggedIn := Some(user);
      } else {
        loggedIn := None;
        var message := "Login failed";
        if Present(serverMessage) {
          message := serverMessage.value;
        }
        errors := map[General := message];
      }
      isLoading := false;
    }

    /** `handleChange`: sets the field, then blanks its error and the general
        error where they are shown. */
    method Change(field: Field, value: string)
      modifies this
      ensures credentials == (match field
        case Email => old(credentials).(email := value)
        case Password => old(credentials).(password := value))
      ensures errors == ClearedError(ClearedError(old(errors), FieldError(field)), General)
      ensures isLoading == old(isLoading)
    {
      match field {
        case Email => credentials := credentials.(email := value);
        case Password => credentials := credentials.(password := value);
      }
      errors := ClearedError(errors, FieldError(field));
      errors := ClearedError(errors, General);
    }
  }

  /** Editing a field hides that field's error and the general one, keeps the
      other field's message, and removes no key. */
  lemma {:induction false} ChangeClearsErrors(errors: map<ErrorKey, string>, field: Field)
    ensures var e := ClearedError(ClearedError(errors, FieldError(field)), General);
      && !Shown(e, FieldError(field)) && !Shown(e, General)
      && e.Keys == errors.Keys
      && forall k :: k in errors && k != FieldError(field) && k != General ==> e[k] == errors[k]
  {
    var e1 := ClearedError(errors, FieldError(field));
    ClearedErrorSpec(errors, FieldError(field));
    ClearedErrorSpec(e1, General);
  }
}
