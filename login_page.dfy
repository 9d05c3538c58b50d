/** The sign-in page (frontend/src/pages/Login.js): one check before `login`
    is called, then the outcome of the call. */
module LoginPage {
  import opened Wrappers
  import opened JsRuntime
  import opened Http
  import opened AuthContext

  const FillAll := "Please fill in all fields"

  /** Both fields must be non-empty. */
  function LoginValidation(username: string, password: string): (r: Option<string>)
    ensures r.Some? <==> username == "" || password == ""
    ensures r.Some? ==> r.value == FillAll
  {
    if username == "" || password == "" then Some(FillAll) else None
  }

  class LoginForm {
    var username: string
    var password: string
    var error: Json
    var loading: bool
    var navigatedHome: bool

    constructor ()
      ensures username == "" && password == "" && error == JString("") && !loading && !navigatedHome
    {
      username := "";
      password := "";
      error := JString("");
      loading := false;
      navigatedHome := false;
    }

    /** `handleSubmit`. An empty field shows the message and calls nothing;
        otherwise `auth.login` gets exactly the two fields, `outcome` is the
        server's answer, success goes home and failure shows `result.error`.
        `loading` is false when the handler ends, on every path. */
    method Submit(auth: AuthProvider, outcome: AuthOutcome) returns (request: Option<Request>)
      modifies this, auth
      ensures username == old(username) && password == old(password) && !loading
      ensures LoginValidation(username, password).Some? ==> (request == None && error == JString(FillAll)
        && auth.State() == old(auth.State()) && navigatedHome == old(navigatedHome))
      ensures LoginValidation(username, password).None? ==> (request == Some(Post(LoginPath, Some(LoginBody(username, password))))
        && auth.State() == AfterAuth(old(auth.State()), outcome, LoginError).0)
      ensures LoginValidation(username, password).None? && outcome.Accepted? ==> navigatedHome && error == JString("")
      ensures LoginValidation(username, password).None? && outcome.Rejected? ==> (navigatedHome == old(navigatedHome)
        && error == LoginError(outcome.data))
    {
      error := JString("");
      loading := true;
      if LoginValidation(username, password).Some? {
        error := JString(FillAll);
        loading := false;
        return None;
      }
      var result, sent := auth.Login(username, password, outcome);
      request := Some(sent);
      if result.success {
        navigatedHome := true;
      } else {
        error := result.error.value;
      }
      loading := false;
    }
  }
}
