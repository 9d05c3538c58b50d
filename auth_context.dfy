/** The client's session store (frontend/src/context/AuthContext.js): the
    `token` and `user` state of `AuthProvider`, the `'token'` entry of
    `localStorage`, the default `Authorization` header of axios, and the
    `login`, `register` and `logout` operations. The server's answer to each
    request is a parameter. */
module AuthContext {
  import opened Wrappers
  import opened JsRuntime
  import opened Http
  import opened ApiSerializers

  const TokenKey := "token"
  const AuthorizationHeader := "Authorization"
  const LoginPath := "/api/auth/login/"
  const RegisterPath := "/api/auth/register/"
  const LogoutPath := "/api/auth/logout/"
  const LoginFailed := "Login failed"
  const RegistrationFailed := "Registration failed"

  /** The header value for a token. */
  function Bearer(token: string): string {
    "Bearer " + token
  }

  /** `if (token)`: a token is present and not the empty string. */
  predicate Present(token: Option<string>) {
    token.Some? && token.value != ""
  }

  /** What the provider holds, with the two pieces of browser state it writes. */
  datatype Session = Session(
    token: Option<string>,
    user: Option<UserData>,
    storage: map<string, string>,
    headers: map<string, string>)
  {
    /** `isAuthenticated: !!user`. */
    predicate IsAuthenticated() {
      user.Some?
    }
  }

  /** The answer to a login or registration request: a 2xx response with
      `access` and `user`, or a failure with the response body, if there was
      a response at all. */
  datatype AuthOutcome =
    | Accepted(access: string, user: UserData)
    | Rejected(data: Option<Json>)

  /** What `login` and `register` return to their callers. */
  datatype AuthResult = AuthResult(success: bool, error: Option<Json>)

  /** The three pieces of state agree: the stored token is the state's
      token, a present token is the one the header carries, and a user is
      only known while there is a token. Without a token nothing is stored
      and no header is set. */
  predicate Coherent(s: Session) {
    && (s.token.Some? <==> TokenKey in s.storage)
    && (s.token.Some? ==> s.storage[TokenKey] == s.token.value)
    && (Present(s.token) ==> AuthorizationHeader in s.headers && s.headers[AuthorizationHeader] == Bearer(s.token.value))
    && (s.token.None? ==> AuthorizationHeader !in s.headers)
    && (s.user.Some? ==> s.token.Some?)
  }

  /** The header effect `useEffect(..., [token])`: a present token is put
      into the `Authorization` header; otherwise the header is left alone. */
  function TokenEffect(s: Session): (r: Session)
    ensures Present(s.token) ==> AuthorizationHeader in r.headers && r.headers[AuthorizationHeader] == Bearer(s.token.value)
    ensures !Present(s.token) ==> r == s
    ensures r.token == s.token && r.user == s.user && r.storage == s.storage
  {
    if Present(s.token) then s.(headers := s.headers[AuthorizationHeader := Bearer(s.token.value)]) else s
  }

  /** The state after start-up: the token is read back from storage, no user
      is known, and the effect has run. The token is not checked with the
      server, so a stored token never makes the session authenticated. */
  function Startup(storage: map<string, string>): (s: Session)
    ensures !s.IsAuthenticated()
    ensures s.token == (if TokenKey in storage then Some(storage[TokenKey]) else None)
    ensures Coherent(s)
    ensures s.storage == storage
  {
    TokenEffect(Session(if TokenKey in storage then Some(storage[TokenKey]) else None, None, storage, map[]))
  }

  /** A successful login or registration: `access` is stored and becomes the
      token and the header, and the returned user is the session's user. */
  function SignedIn(s: Session, access: string, user: UserData): (r: Session)
    ensures r.IsAuthenticated() && r.user == Some(user) && r.token == Some(access)
    ensures TokenKey in r.storage && r.storage[TokenKey] == access
    ensures AuthorizationHeader in r.headers && r.headers[AuthorizationHeader] == Bearer(access)
    ensures forall k :: k != TokenKey ==> (k in r.storage <==> k in s.storage) && (k in s.storage ==> r.storage[k] == s.storage[k])
    ensures Coherent(r)
  {
    TokenEffect(Session(Some(access), Some(user),
                        s.storage[TokenKey := access], s.headers[AuthorizationHeader := Bearer(access)]))
  }

  /** The error `login` reports: the response's `error` field, or "Login failed". */
  function LoginError(data: Option<Json>): (e: Json)
    ensures Truthy(e)
    ensures Member(data, "error").Some? && Truthy(Member(data, "error").value) ==> e == Member(data, "error").value
    ensures !(Member(data, "error").Some? && Truthy(Member(data, "error").value)) ==> e == JString(LoginFailed)
  {
    Or(Member(data, "error"), JString(LoginFailed))
  }

  /** The error `register` reports: the whole response body, or "Registration failed". */
  function RegisterError(data: Option<Json>): (e: Json)
    ensures Truthy(e) && e != JNull
    ensures data.Some? && Truthy(data.value) ==> e == data.value
    ensures !(data.Some? && Truthy(data.value)) ==> e == JString(RegistrationFailed)
  {
    Or(data, JString(RegistrationFailed))
  }

  /** `login(username, password)` and `register(userData)` share this shape:
      success changes the session as `SignedIn` says and reports success;
      failure changes nothing and reports the error. */
  function AfterAuth(s: Session, outcome: AuthOutcome, error: Option<Json> -> Json): (r: (Session, AuthResult))
    ensures outcome.Accepted? ==> r.0 == SignedIn(s, outcome.access, outcome.user) && r.1 == AuthResult(true, None)
    ensures outcome.Rejected? ==> r.0 == s && r.1 == AuthResult(false, Some(error(outcome.data)))
  {
    match outcome
    case Accepted(access, user) => (SignedIn(s, access, user), AuthResult(true, None))
    case Rejected(data) => (s, AuthResult(false, Some(error(data))))
  }

  /** The state after `logout`: storage entry, token, user and header are
      all gone, whatever the logout request did. */
  function SignedOut(s: Session): (r: Session)
    ensures !r.IsAuthenticated() && r.token.None?
    ensures TokenKey !in r.storage && AuthorizationHeader !in r.headers
    ensures forall k :: k != TokenKey ==> (k in r.storage <==> k in s.storage) && (k in s.storage ==> r.storage[k] == s.storage[k])
    ensures forall k :: k != AuthorizationHeader ==> (k in r.headers <==> k in s.headers) && (k in s.headers ==> r.headers[k] == s.headers[k])
    ensures Coherent(r)
  {
    Session(None, None, s.storage - {TokenKey}, s.headers - {AuthorizationHeader})
  }

  /** `logout` asks the server only when a token is present. */
  function LogoutRequest(s: Session): (r: Option<Request>)
    ensures r.Some? <==> Present(s.token)
  {
    if Present(s.token) then Some(Post(LogoutPath, None)) else None
  }

  /** Logging out twice is logging out once, and the second time no request
      is sent. */
  lemma LogoutIdempotent(s: Session)
    ensures SignedOut(SignedOut(s)) == SignedOut(s)
    ensures LogoutRequest(SignedOut(s)).None?
  {
  }

  /** Every operation keeps the session coherent. */
  lemma OperationsKeepCoherent(s: Session, outcome: AuthOutcome, error: Option<Json> -> Json)
    requires Coherent(s)
    ensures Coherent(AfterAuth(s, outcome, error).0)
    ensures Coherent(SignedOut(s))
    ensures Coherent(TokenEffect(s))
  {
  }

  /** The login request body `{username, password}`. */
  function LoginBody(username: string, password: string): Json {
    JObject([("username", JString(username)), ("password", JString(password))])
  }

  /** The registration request body: the six form fields. */
  function RegisterBody(data: RegistrationData): Json {
    JObject([("username", JString(data.username)), ("email", JString(data.email)),
             ("first_name", JString(data.firstName)), ("last_name", JString(data.lastName)),
             ("password", JString(data.password)), ("password_confirm", JString(data.passwordConfirm))])
  }

  /** `AuthProvider`: its state, the browser storage and the axios defaults. */
  class AuthProvider {
    var token: Option<string>
    var user: Option<UserData>
    var loading: bool
    var storage: map<string, string>
    var headers: map<string, string>

    function State(): Session
      reads this
    {
      Session(token, user, storage, headers)
    }

    /** `isAuthenticated`. */
    function IsAuthenticated(): (b: bool)
      reads this
      ensures b <==> State().IsAuthenticated()
    {
      user.Some?
    }

    /** Mounting the provider over the browser's storage: the initial state,
        then the effect, which also ends `loading`. */
    constructor (stored: map<string, string>)
      ensures State() == Startup(stored) && !loading
    {
      token := if TokenKey in stored then Some(stored[TokenKey]) else None;
      user := None;
      loading := true;
      storage := stored;
      headers := map[];
      new;
      RunTokenEffect();
    }

    /** The header effect, run after `token` changes. */
    method RunTokenEffect()
      modifies this
      ensures State() == TokenEffect(old(State())) && !loading
    {
      if token.Some? && token.value != "" {
        headers := headers[AuthorizationHeader := Bearer(token.value)];
      }
      loading := false;
    }

    /** `login(username, password)`: sends the credentials; `outcome` is the
        server's answer. */
    method Login(username: string, password: string, outcome: AuthOutcome) returns (result: AuthResult, request: Request)
      modifies this
      ensures request == Post(LoginPath, Some(LoginBody(username, password)))
      ensures (State(), result) == AfterAuth(old(State()), outcome, LoginError)
      ensures loading == (old(loading) && outcome.Rejected?)
    {
      request := Post(LoginPath, Some(LoginBody(username, password)));
      match outcome {
        case Accepted(access, userData) =>
          storage := storage[TokenKey := access];
          token := Some(access);
          user := Some(userData);
          headers := headers[AuthorizationHeader := Bearer(access)];
          RunTokenEffect();
          result := AuthResult(true, None);
        case Rejected(data) =>
          result := AuthResult(false, Some(LoginError(data)));
      }
    }

    /** `register(userData)`: sends the form; `outcome` is the server's answer. */
    method Register(data: RegistrationData, outcome: AuthOutcome) returns (result: AuthResult, request: Request)
      modifies this
      ensures request == Post(RegisterPath, Some(RegisterBody(data)))
      ensures (State(), result) == AfterAuth(old(State()), outcome, RegisterError)
      ensures loading == (old(loading) && outcome.Rejected?)
    {
      request := Post(RegisterPath, Some(RegisterBody(data)));
      match outcome {
        case Accepted(access, newUser) =>
          storage := storage[TokenKey := access];
          token := Some(access);
          user := Some(newUser);
          headers := headers[AuthorizationHeader := Bearer(access)];
          RunTokenEffect();
          result := AuthResult(true, None);
        case Rejected(body) =>
          result := AuthResult(false, Some(RegisterError(body)));
      }
    }

    /** `logout()`: the request is sent only with a token present; whether it
        fails (`requestFailed`) makes no difference to what is cleared. */
    method Logout(requestFailed: bool) returns (request: Option<Request>)
      modifies this
      ensures request == LogoutRequest(old(State()))
      ensures State() == SignedOut(old(State())) && !loading
    {
      request := None;
      if token.Some? && token.value != "" {
        request := Some(Post(LogoutPath, None));
      }
      storage := storage - {TokenKey};
      token := None;
      user := None;
      headers := headers - {AuthorizationHeader};
      RunTokenEffect();
    }
  }
}
