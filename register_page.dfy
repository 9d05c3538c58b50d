/** The registration page (frontend/src/pages/Register.js): the client-side
    checks run before `register` is called, and how the error that comes
    back is turned into the text shown. */
module RegisterPage {
  import opened Wrappers
  import opened JsRuntime
  import opened Http
  import opened ApiSerializers
  import opened AuthContext

  const FillRequired := "Please fill in all required fields"
  const PasswordsDoNotMatch := "Passwords do not match"
  const PasswordTooShort := "Password must be at least 8 characters long"
  const PasswordMinLength: nat := 8

  /** One of the four required fields is empty. */
  predicate MissingRequired(form: RegistrationData) {
    form.username == "" || form.email == "" || form.password == "" || form.passwordConfirm == ""
  }

  /** The first failing check, in the order required fields, matching
      passwords, password length; None when all pass. */
  function RegisterValidation(form: RegistrationData): (r: Option<string>)
    ensures r == Some(FillRequired) <==> MissingRequired(form)
    ensures r == Some(PasswordsDoNotMatch) <==> !MissingRequired(form) && form.password != form.passwordConfirm
    ensures r == Some(PasswordTooShort) <==> (!MissingRequired(form) && form.password == form.passwordConfirm
      && |form.password| < PasswordMinLength)
    ensures r.None? <==> (!MissingRequired(form) && form.password == form.passwordConfirm
      && |form.password| >= PasswordMinLength)
  {
    if MissingRequired(form) then Some(FillRequired)
    else if form.password != form.passwordConfirm then Some(PasswordsDoNotMatch)
    else if |form.password| < PasswordMinLength then Some(PasswordTooShort)
    else None
  }

  /** First and last name are optional: they play no part in the checks. */
  lemma NamesNotChecked(form: RegistrationData, firstName: string, lastName: string)
    ensures RegisterValidation(form.(firstName := firstName, lastName := lastName)) == RegisterValidation(form)
  {
  }

  /** The text shown for the error `register` returned: for an object (or an
      array), all its values, arrays flattened one level, joined with ", ";
      anything else as it is. `null` is excluded: `Object.values(null)`
      throws, and `register` never reports `null`. */
  function ErrorText(e: Json): (r: Json)
    requires e != JNull
    ensures IsObject(e) ==> r == JString(JoinValues(Flat(Values(e)), ", "))
    ensures !IsObject(e) ==> r == e
  {
    if IsObject(e) then JString(JoinValues(Flat(Values(e)), ", ")) else e
  }

  class RegisterForm {
    var form: RegistrationData
    var error: Json
    var loading: bool
    var navigatedHome: bool

    constructor ()
      ensures form == RegistrationData("", "", "", "", "", "") && error == JString("") && !loading && !navigatedHome
    {
      form := RegistrationData("", "", "", "", "", "");
      error := JString("");
      loading := false;
      navigatedHome := false;
    }

    /** `handleSubmit`. A failed check shows its message and calls nothing;
        otherwise the whole form is sent through `auth.register`, whose
        answer is `outcome`. Success goes home, failure shows the error.
        `loading` is false when the handler ends, on every path. */
    method Submit(auth: AuthProvider, outcome: AuthOutcome) returns (request: Option<Request>)
      modifies this, auth
      ensures form == old(form) && !loading
      ensures RegisterValidation(form).Some? ==> (request == None && error == JString(RegisterValidation(form).value)
        && auth.State() == old(auth.State()) && navigatedHome == old(navigatedHome))
      ensures RegisterValidation(form).None? ==> (request == Some(Post(RegisterPath, Some(RegisterBody(form))))
        && auth.State() == AfterAuth(old(auth.State()), outcome, RegisterError).0)
      ensures RegisterValidation(form).None? && outcome.Accepted? ==> navigatedHome && error == JString("")
      ensures RegisterValidation(form).None? && outcome.Rejected? ==> (navigatedHome == old(navigatedHome)
        && error == ErrorText(RegisterError(outcome.data)))
    {
      error := JString("");
      loading := true;
      var check := RegisterValidation(form);
      if check.Some? {
        error := JString(check.value);
        loading := false;
        return None;
      }
      var result, sent := auth.Register(form, outcome);
      request := Some(sent);
      if result.success {
        navigatedHome := true;
      } else {
        error := ErrorText(result.error.value);
      }
      loading := false;
    }
  }
}
