/**
 * pages/Auth/Login/index.tsx: the sign-in form. `validateForm` gives the
 * address and the password at most one message each; `handleLogin` calls
 * `login` with the trimmed address, the password as typed and
 * `remember = true` only when neither has a message, and clears `loading`
 * however the call ends; typing in a field clears that field's message; the
 * biometric button needs the device's support and the user's setting.
 */
module LoginScreen {
  import opened Wrappers
  import opened Text
  import opened EmailRule
  import MockServer
  import JsValues

  const EmailRequired := "E-mail \U{00E9} obrigat\U{00F3}rio"
  const EmailInvalid := "E-mail inv\U{00E1}lido"
  const PasswordRequired := "Senha \U{00E9} obrigat\U{00F3}ria"
  const PasswordTooShort := "Senha deve ter no m\U{00ED}nimo 6 caracteres"

  /** `errors` */
  datatype FormErrors = FormErrors(email: Option<string>, password: Option<string>)

  const NoErrors := FormErrors(None, None)

  /** `login(credentials, remember)` as the screen calls it. */
  datatype LoginCall = LoginCall(email: string, password: string, remember: bool)

  function EmailError(email: string): Option<string> {
    if Trim(email) == "" then Some(EmailRequired)
    else if !LooksLikeEmail(email) then Some(EmailInvalid)
    else None
  }

  /** The password's blank test trims it; its length test does not. */
  function PasswordError(password: string): Option<string> {
    if Trim(password) == "" then Some(PasswordRequired)
    else if |password| < 6 then Some(PasswordTooShort)
    else None
  }

  function ErrorsOf(email: string, password: string): FormErrors {
    FormErrors(EmailError(email), PasswordError(password))
  }

  /** The inputs pass `validateForm`. */
  predicate Valid(email: string, password: string) {
    ErrorsOf(email, password) == NoErrors
  }

  /** `biometricAvailable && biometricEnabled`: whether the biometric button is shown. */
  predicate ShowsBiometric(available: bool, enabled: bool) {
    available && enabled
  }

  /** The screen's state. */
  class Screen {
    var email: string
    var password: string
    var errors: FormErrors
    var loading: bool

    /** Empty fields, no errors, not loading. */
    constructor ()
      ensures email == "" && password == "" && errors == NoErrors && !loading
    {
      email, password, errors, loading := "", "", NoErrors, false;
    }

    /** validateForm() */
    method ValidateForm() returns (ok: bool)
      modifies this
      ensures email == old(email) && password == old(password) && loading == old(loading)
      ensures errors == ErrorsOf(email, password)
      ensures ok <==> Valid(email, password)
    {
      var newErrors := NoErrors;
      if Trim(email) == "" {
        newErrors := newErrors.(email := Some(EmailRequired));
      } else if !LooksLikeEmail(email) {
        newErrors := newErrors.(email := Some(EmailInvalid));
      }
      if Trim(password) == "" {
        newErrors := newErrors.(password := Some(PasswordRequired));
      } else if |password| < 6 {
        newErrors := newErrors.(password := Some(PasswordTooShort));
      }
      errors := newErrors;
      ok := newErrors == NoErrors;
    }

    /** handleLogin(): the call made to `login`, if any; its outcome does not change the screen. */
    method HandleLogin() returns (sent: Option<LoginCall>)
      modifies this
      ensures email == old(email) && password == old(password)
      ensures errors == ErrorsOf(email, password)
      ensures loading == (old(loading) && !Valid(email, password))
      ensures sent.Some? <==> Valid(email, password)
      ensures sent.Some? ==> sent.value == LoginCall(Trim(email), password, true)
    {
      var ok := ValidateForm();
      if !ok {
        return None;
      }
      loading := true;
      sent := Some(LoginCall(Trim(email), password, true));
      loading := false;
    }

    /** The address field's onChangeText. */
    method EditEmail(text: string)
      modifies this
      ensures email == text && password == old(password) && loading == old(loading)
      ensures errors == old(errors).(email := None)
    {
      email := text;
      errors := errors.(email := None);
    }

    /** The password field's onChangeText. */
    method EditPassword(text: string)
      modifies this
      ensures password == text && email == old(email) && loading == old(loading)
      ensures errors == old(errors).(password := None)
    {
      password := text;
      errors := errors.(password := None);
    }
  }

  // ---------------------------------------------------------------------
  // Properties

  /**
   * The inputs are valid exactly when the trimmed address is not empty,
   * the address matches the pattern, the password is not blank and has six
   * characters as typed.
   */
  lemma ValidIff(email: string, password: string)
    ensures Valid(email, password) <==>
      Trim(email) != "" && LooksLikeEmail(email) && Trim(password) != "" && |password| >= 6
  {
  }

  /** Example: six spaces are long enough but blank, and the blank test wins. */
  lemma BlankPasswordRefused()
    ensures PasswordError("      ") == Some(PasswordRequired)
  {
    assert Trim("      ") == "";
  }

  /** The sent address is already trimmed, and it is never blank. */
  lemma SentAddressTrimmed(email: string, password: string)
    requires Valid(email, password)
    ensures Trim(email) != "" && Trim(Trim(email)) == Trim(email)
  {
    var t := Trim(email);
    TrimOfTrimmed(t);
  }

  /** The mock server never answers 400 to a call the screen makes: both credentials are present. */
  lemma SentCallNotRejectedAsMissing(us: seq<MockServer.User>, email: string, password: string, nowMs: nat)
    requires Valid(email, password)
    ensures MockServer.Login(us, MockServer.LoginBody(Some(Trim(email)), Some(password)), nowMs).status != 400
  {
    assert JsValues.Truthy(Some(Trim(email))) && JsValues.Truthy(Some(password));
  }
}
