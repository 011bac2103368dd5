/** The login/registration form's logic: field validation, editing a field,
    switching between the two modes, the reset when the form opens, and the
    outcome of a submit. The simulated network delay is not modelled: a
    valid submit succeeds at once. */
module LoginForm {
  import opened Wrappers
  import opened Text
  import opened Items

  datatype Field = UsernameField | PasswordField

  /** The form's error messages. A message is displayed only when it is a
      non-empty string. */
  datatype Errors = Errors(general: Option<string>, username: Option<string>, password: Option<string>) {
    function Of(f: Field): Option<string> {
      match f
      case UsernameField => username
      case PasswordField => password
    }
  }

  const NoErrors: Errors := Errors(None, None, None)

  /** `mode` is the modal type, "login" or "register". */
  datatype Form = Form(username: string, password: string, errors: Errors, mode: string, isLoading: bool) {
    function Value(f: Field): string {
      match f
      case UsernameField => username
      case PasswordField => password
    }
  }

  function InitialForm(modaltype: string): Form {
    Form("", "", NoErrors, modaltype, false)
  }

  const UsernameRequired: string := "Username is required"
  const UsernameTooShort: string := "Username must be at least 2 characters"
  const PasswordRequired: string := "Password is required"
  const PasswordTooShort: string := "Password must be at least 6 characters"

  /** The username rule: judged on the trimmed name, whose length is
      counted in UTF-16 code units. */
  function UsernameError(name: string): (e: Option<string>)
    ensures e == Some(UsernameRequired) <==> Trim(name) == ""
    ensures e == Some(UsernameTooShort) <==> Trim(name) != "" && Utf16Length(Trim(name)) < 2
    ensures e.None? <==> Utf16Length(Trim(name)) >= 2
  {
    var t := Trim(name);
    if t == "" then Some(UsernameRequired)
    else if Utf16Length(t) < 2 then Some(UsernameTooShort)
    else None
  }

  /** A name is reported as missing exactly when it is blank, that is, made
      only of whitespace. */
  lemma UsernameRequiredIffBlank(name: string)
    ensures UsernameError(name) == Some(UsernameRequired) <==> AllWhitespace(name)
  {
    TrimEmptyIffAllWhitespace(name);
  }

  /** The password rule: the raw password, untrimmed. */
  function PasswordError(password: string): (e: Option<string>)
    ensures e == Some(PasswordRequired) <==> password == ""
    ensures e == Some(PasswordTooShort) <==> password != "" && Utf16Length(password) < 6
    ensures e.None? <==> Utf16Length(password) >= 6
  {
    if password == "" then Some(PasswordRequired)
    else if Utf16Length(password) < 6 then Some(PasswordTooShort)
    else None
  }

  datatype Validation = Validation(errors: Errors, valid: bool)

  /** `validateForm`: the new errors, and whether there are none. */
  function Validate(f: Form): (v: Validation)
    ensures v.errors.general.None?
    ensures v.valid <==> Utf16Length(Trim(f.username)) >= 2 && Utf16Length(f.password) >= 6
    ensures v.valid <==> v.errors == NoErrors
  {
    var errors := Errors(None, UsernameError(f.username), PasswordError(f.password));
    Validation(errors, errors.username.None? && errors.password.None?)
  }

  /** An empty form reports both fields as required. */
  lemma EmptyFormExample()
    ensures Validate(Form("", "", NoErrors, "login", false)).errors
      == Errors(None, Some(UsernameRequired), Some(PasswordRequired))
  {
  }

  /** A one-letter name is too short. */
  lemma ShortUsernameExample()
    ensures Validate(Form("a", "", NoErrors, "login", false)).errors.username == Some(UsernameTooShort)
  {
    assert !IsJsWhitespace("a"[0]);
    TrimOfTrimmed("a");
    assert Utf16Length("a") == 1 by { assert ("a"[0] as int) < 0x10000; }
    assert UsernameError("a") == Some(UsernameTooShort);
  }

  /** A three-character password is too short. */
  lemma ShortPasswordExample()
    ensures Validate(Form("", "123", NoErrors, "login", false)).errors.password == Some(PasswordTooShort)
  {
    assert Utf16Length("123") == 3 by {
      assert forall k | 0 <= k < 3 :: ("123"[k] as int) < 0x10000;
    }
  }

  /** "testuser" with "password123" passes. */
  lemma ValidFormExample()
    ensures Validate(Form("testuser", "password123", NoErrors, "login", false)).valid
  {
    TrimOfTrimmed("testuser");
  }

  /** `handleInputChange`: the edited field takes the new value, and its
      error, if one is displayed, is blanked to "". */
  function InputChange(f: Form, field: Field, value: string): (r: Form)
    ensures r.Value(field) == value
    ensures forall g: Field | g != field :: r.Value(g) == f.Value(g) && r.errors.Of(g) == f.errors.Of(g)
    ensures r.errors.Of(field) == (if Truthy(f.errors.Of(field)) then Some("") else f.errors.Of(field))
    ensures r.errors.general == f.errors.general
    ensures r.mode == f.mode && r.isLoading == f.isLoading
  {
    var edited := match field
      case UsernameField => f.(username := value)
      case PasswordField => f.(password := value);
    if Truthy(f.errors.Of(field)) then
      match field
      case UsernameField => edited.(errors := f.errors.(username := Some("")))
      case PasswordField => edited.(errors := f.errors.(password := Some("")))
    else edited
  }

  /** Typing into a field hides that field's error and no other. */
  lemma InputChangeHidesOnlyThatError(f: Form, field: Field, value: string)
    ensures !Truthy(InputChange(f, field, value).errors.Of(field))
    ensures forall g: Field | g != field :: Truthy(InputChange(f, field, value).errors.Of(g)) == Truthy(f.errors.Of(g))
  {
  }

  /** `toggleMode`: "login" becomes "register", anything else "login"; all
      errors are cleared. */
  function ToggleMode(f: Form): (r: Form)
    ensures r.mode == (if f.mode == "login" then "register" else "login")
    ensures r.errors == NoErrors
    ensures r.username == f.username && r.password == f.password && r.isLoading == f.isLoading
  {
    f.(mode := if f.mode == "login" then "register" else "login", errors := NoErrors)
  }

  /** Toggling twice returns to the mode started from, when that was one of
      the two modes. */
  lemma ToggleModeTwice(f: Form)
    requires f.mode == "login" || f.mode == "register"
    ensures ToggleMode(ToggleMode(f)) == f.(errors := NoErrors)
  {
  }

  /** The effect run when the form opens or its modal type changes. */
  function OpenReset(f: Form, isOpen: bool, modaltype: string): (r: Form)
    ensures isOpen ==> r.username == "" && r.password == "" && r.errors == NoErrors && r.mode == modaltype
    ensures !isOpen ==> r == f
    ensures r.isLoading == f.isLoading
  {
    if isOpen then f.(mode := modaltype, errors := NoErrors, username := "", password := "") else f
  }

  /** Opening the form brings it back to the state it had when first
      mounted with that mode, apart from the loading flag; a second open
      changes nothing more. */
  lemma OpenResetRestoresInitialForm(f: Form, modaltype: string)
    ensures OpenReset(f, true, modaltype) == InitialForm(modaltype).(isLoading := f.isLoading)
    ensures OpenReset(OpenReset(f, true, modaltype), true, modaltype) == OpenReset(f, true, modaltype)
  {
  }

  /** What a submit leads to: the form afterwards, the name passed to
      `onLogin` (if it was called) and whether `onClose` was called. */
  datatype SubmitOutcome = SubmitOutcome(form: Form, loggedInAs: Option<string>, closed: bool)

  /** `handleSubmit`, with the fake delay collapsed to an immediate success. */
  function Submit(f: Form, hasOnLogin: bool, hasOnClose: bool): (r: SubmitOutcome)
    ensures !Validate(f).valid ==>
      r == SubmitOutcome(f.(errors := Validate(f).errors), None, false)
    ensures Validate(f).valid ==>
      && r.loggedInAs == (if hasOnLogin then Some(f.username) else None)
      && r.closed == hasOnClose
      && r.form == f.(username := "", password := "", errors := NoErrors, isLoading := false)
  {
    var v := Validate(f);
    if !v.valid then SubmitOutcome(f.(errors := v.errors), None, false)
    else
      var cleared := f.(username := "", password := "", errors := NoErrors, isLoading := false);
      SubmitOutcome(cleared, if hasOnLogin then Some(f.username) else None, hasOnClose)
  }

  /** A login only ever happens with a name whose trimmed form is at least
      two code units long and a password at least six, and the name is
      passed on untrimmed. */
  lemma SubmitLogsInOnlyValidNames(f: Form, hasOnLogin: bool, hasOnClose: bool)
    ensures Submit(f, hasOnLogin, hasOnClose).loggedInAs.Some? ==>
      && Submit(f, hasOnLogin, hasOnClose).loggedInAs.value == f.username
      && Utf16Length(Trim(f.username)) >= 2
      && Utf16Length(f.password) >= 6
  {
  }
}
