/**
 * pages/Auth/Register/index.tsx: the sign-up form. `validateForm` gives
 * each of the four fields at most one message, checked in order (missing
 * first, then malformed); `handleRegister` calls `register` with the
 * whole form only when no message was set; `updateField` edits one field
 * and clears only that field's message; `passwordRequirements` drives the
 * two hints under the password.
 */
module RegisterScreen {
  import opened Wrappers
  import opened Text
  import opened EmailRule
  import MockServer

  const NameRequired := "Nome \U{00E9} obrigat\U{00F3}rio"
  const NameTooShort := "Nome deve ter no m\U{00ED}nimo 2 caracteres"
  const EmailRequired := "E-mail \U{00E9} obrigat\U{00F3}rio"
  const EmailInvalid := "E-mail inv\U{00E1}lido"
  const PasswordRequired := "Senha \U{00E9} obrigat\U{00F3}ria"
  const PasswordTooShort := "Senha deve ter no m\U{00ED}nimo 6 caracteres"
  const ConfirmRequired := "Confirme sua senha"
  const ConfirmMismatch := "As senhas n\U{00E3}o coincidem"

  /** `formData` */
  datatype Form = Form(name: string, email: string, password: string, confirmPassword: string)

  /** `errors`: at most one message per field. */
  datatype FormErrors = FormErrors(name: Option<string>, email: Option<string>, password: Option<string>, confirmPassword: Option<string>)

  const NoErrors := FormErrors(None, None, None, None)

  /** The keys `updateField` accepts. */
  datatype Field = Name | Email | Password | ConfirmPassword

  /** `formData[field]` */
  function FieldOf(f: Form, field: Field): string {
    match field
    case Name => f.name
    case Email => f.email
    case Password => f.password
    case ConfirmPassword => f.confirmPassword
  }

  /** `errors[field]` */
  function ErrorOf(e: FormErrors, field: Field): Option<string> {
    match field
    case Name => e.name
    case Email => e.email
    case Password => e.password
    case ConfirmPassword => e.confirmPassword
  }

  /** `{ ...prev, [field]: value }` on the form. */
  function WithField(f: Form, field: Field, value: string): Form {
    match field
    case Name => f.(name := value)
    case Email => f.(email := value)
    case Password => f.(password := value)
    case ConfirmPassword => f.(confirmPassword := value)
  }

  /** `{ ...prev, [field]: undefined }` on the errors. */
  function Cleared(e: FormErrors, field: Field): FormErrors {
    match field
    case Name => e.(name := None)
    case Email => e.(email := None)
    case Password => e.(password := None)
    case ConfirmPassword => e.(confirmPassword := None)
  }

  /** The message of each field, as `validateForm` chooses it. */
  function NameError(f: Form): Option<string> {
    if Trim(f.name) == "" then Some(NameRequired)
    else if |Trim(f.name)| < 2 then Some(NameTooShort)
    else None
  }

  function EmailError(f: Form): Option<string> {
    if Trim(f.email) == "" then Some(EmailRequired)
    else if !LooksLikeEmail(f.email) then Some(EmailInvalid)
    else None
  }

  function PasswordError(f: Form): Option<string> {
    if f.password == "" then Some(PasswordRequired)
    else if |f.password| < 6 then Some(PasswordTooShort)
    else None
  }

  function ConfirmError(f: Form): Option<string> {
    if f.confirmPassword == "" then Some(ConfirmRequired)
    else if f.password != f.confirmPassword then Some(ConfirmMismatch)
    else None
  }

  function ErrorsOf(f: Form): FormErrors {
    FormErrors(NameError(f), EmailError(f), PasswordError(f), ConfirmError(f))
  }

  /** The form passes `validateForm`. */
  predicate Valid(f: Form) {
    ErrorsOf(f) == NoErrors
  }

  /** `passwordRequirements`: the two hints shown under the password. */
  datatype Requirements = Requirements(length: bool, matches: bool)

  function RequirementsOf(f: Form): Requirements {
    Requirements(|f.password| >= 6, f.password == f.confirmPassword && |f.password| > 0)
  }

  /** The screen's state. */
  class Screen {
    var form: Form
    var errors: FormErrors
    var loading: bool

    /** Empty fields, no errors, not loading. */
    constructor ()
      ensures form == Form("", "", "", "") && errors == NoErrors && !loading
    {
      form, errors, loading := Form("", "", "", ""), NoErrors, false;
    }

    /** validateForm() */
    method ValidateForm() returns (ok: bool)
      modifies this
      ensures form == old(form) && loading == old(loading)
      ensures errors == ErrorsOf(form)
      ensures ok <==> Valid(form)
    {
      var newErrors := NoErrors;
      if Trim(form.name) == "" {
        newErrors := newErrors.(name := Some(NameRequired));
      } else if |Trim(form.name)| < 2 {
        newErrors := newErrors.(name := Some(NameTooShort));
      }
      if Trim(form.email) == "" {
        newErrors := newErrors.(email := Some(EmailRequired));
      } else if !LooksLikeEmail(form.email) {
        newErrors := newErrors.(email := Some(EmailInvalid));
      }
      if form.password == "" {
        newErrors := newErrors.(password := Some(PasswordRequired));
      } else if |form.password| < 6 {
        newErrors := newErrors.(password := Some(PasswordTooShort));
      }
      if form.confirmPassword == "" {
        newErrors := newErrors.(confirmPassword := Some(ConfirmRequired));
      } else if form.password != form.confirmPassword {
        newErrors := newErrors.(confirmPassword := Some(ConfirmMismatch));
      }
      errors := newErrors;
      ok := newErrors == NoErrors;
    }

    /**
     * handleRegister(). `outcome` is how `register` ends; the result is
     * the form passed to it, if it was called, and whether the screen
     * went back to the login screen.
     */
    method HandleRegister(outcome: Outcome) returns (sent: Option<Form>, wentBack: bool)
      modifies this
      ensures form == old(form) && errors == ErrorsOf(form)
      ensures loading == (old(loading) && !Valid(form))
      ensures sent.Some? <==> Valid(form)
      ensures sent.Some? ==> sent.value == form
      ensures wentBack <==> Valid(form) && outcome.Pass?
    {
      var ok := ValidateForm();
      if !ok {
        return None, false;
      }
      loading := true;
      sent := Some(form);
      wentBack := outcome.Pass?;
      loading := false;
    }

    /** updateField(field, value) */
    method UpdateField(field: Field, value: string)
      modifies this
      ensures form == WithField(old(form), field, value)
      ensures errors == Cleared(old(errors), field)
      ensures loading == old(loading)
    {
      form := WithField(form, field, value);
      errors := Cleared(errors, field);
    }
  }

  // ---------------------------------------------------------------------
  // Properties

  /**
   * The form is valid exactly when the trimmed name has two characters,
   * the trimmed address is not empty and the address matches the pattern,
   * the password has six characters and the confirmation repeats it.
   */
  lemma ValidIff(f: Form)
    ensures Valid(f) <==>
      |Trim(f.name)| >= 2 && Trim(f.email) != "" && LooksLikeEmail(f.email)
      && |f.password| >= 6 && f.confirmPassword == f.password
  {
    assert NameError(f).None? <==> |Trim(f.name)| >= 2;
    assert EmailError(f).None? <==> Trim(f.email) != "" && LooksLikeEmail(f.email);
    assert PasswordError(f).None? <==> |f.password| >= 6;
    assert ConfirmError(f).None? <==> f.confirmPassword != "" && f.confirmPassword == f.password;
  }

  /** Each field's message: "missing" exactly when it is empty, the second message exactly when it is present but malformed. */
  lemma FieldMessages(f: Form)
    ensures NameError(f) == Some(NameRequired) <==> Trim(f.name) == ""
    ensures NameError(f) == Some(NameTooShort) <==> Trim(f.name) != "" && |Trim(f.name)| < 2
    ensures EmailError(f) == Some(EmailRequired) <==> Trim(f.email) == ""
    ensures EmailError(f) == Some(EmailInvalid) <==> Trim(f.email) != "" && !LooksLikeEmail(f.email)
    ensures PasswordError(f) == Some(PasswordRequired) <==> f.password == ""
    ensures PasswordError(f) == Some(PasswordTooShort) <==> f.password != "" && |f.password| < 6
    ensures ConfirmError(f) == Some(ConfirmRequired) <==> f.confirmPassword == ""
    ensures ConfirmError(f) == Some(ConfirmMismatch) <==> f.confirmPassword != "" && f.password != f.confirmPassword
  {
  }

  /** Both hints are on exactly when neither password field has a message. */
  lemma RequirementsAgreeWithValidation(f: Form)
    ensures RequirementsOf(f).length && RequirementsOf(f).matches <==> PasswordError(f).None? && ConfirmError(f).None?
    ensures RequirementsOf(f).length <==> PasswordError(f).None?
  {
  }

  /** updateField changes only the named field and clears only that field's message. */
  lemma UpdateFieldOnlyTouchesField(f: Form, e: FormErrors, field: Field, value: string, other: Field)
    ensures FieldOf(WithField(f, field, value), field) == value
    ensures ErrorOf(Cleared(e, field), field) == None
    ensures other != field ==>
      FieldOf(WithField(f, field, value), other) == FieldOf(f, other) && ErrorOf(Cleared(e, field), other) == ErrorOf(e, other)
  {
  }

  /** The server's checks on a body whose name, address and password are long enough and whose address has an '@'. */
  lemma ServerChecksPass(us: seq<MockServer.User>, name: string, email: string, password: string)
    requires |name| >= 2 && Contains(email, "@") && |password| >= 6
    ensures var r := MockServer.RegisterError(us, MockServer.RegisterBody(Some(name), Some(email), Some(password)));
      r == (if MockServer.FindUser(us, email).Some? then Some(MockServer.EmailTaken) else None)
  {
  }

  /**
   * A form the screen sends passes the mock server's name, address and
   * password checks; the only rejection left is an address already taken.
   */
  lemma SentFormAccepted(us: seq<MockServer.User>, f: Form)
    requires Valid(f)
    ensures var r := MockServer.RegisterError(us, MockServer.RegisterBody(Some(f.name), Some(f.email), Some(f.password)));
      r == None || r == Some(MockServer.EmailTaken)
    ensures MockServer.FindUser(us, f.email).None? ==>
      MockServer.RegisterError(us, MockServer.RegisterBody(Some(f.name), Some(f.email), Some(f.password))) == None
  {
    ValidIff(f);
    assert |Trim(f.name)| <= |TrimStart(f.name)| <= |f.name|;
    MatchHasAtAndDot(f.email);
    ServerChecksPass(us, f.name, f.email, f.password);
  }
}
