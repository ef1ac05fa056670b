/** The client's authentication slice (authSlice.ts): the signed-in user, the token and
    its `jwt` cookie, a loading flag and the last login error, driven by the setToken and
    removeToken reducers and by the events of the login, register and verify-token
    requests.

    `Next` is the reducer as a function of the state, the cookie and the event; `Draft`
    is the store's draft, whose reducers assign its fields in place and set or remove
    the cookie in a `CookieJar` it shares with the rest of the page. The cookie's
    five-day expiry is not modelled. */
module AuthSlice {
  import opened Wrappers

  /** APIError: the record the request helpers reject with. */
  datatype ApiError = ApiError(code: int, message: string, description: string)

  /** ILoginApiResponse. */
  datatype LoginResponse = LoginResponse(token: string, userId: string, username: string)

  /** The `data` of IVerifyJwtTokenResponse. */
  datatype VerifiedUser = VerifiedUser(userId: string, username: string)

  /** A `None` field is `null`. `error` holds the rejection payload of a failed login;
      `None` also stands for a rejection that carried no payload. */
  datatype AuthState = AuthState(
    userId: Option<string>,
    username: Option<string>,
    token: Option<string>,
    isLoading: bool,
    error: Option<ApiError>)

  /** The slice state together with the `jwt` cookie. */
  datatype AuthView = AuthView(state: AuthState, jwt: Option<string>)

  datatype AuthEvent =
    | SetToken(token: string)
    | RemoveToken
    | LoginPending
    | LoginFulfilled(response: LoginResponse)
    | LoginRejected(payload: Option<ApiError>)
    | RegisterPending
    | RegisterFulfilled
    | RegisterRejected
    | VerifyJwtFulfilled(user: VerifiedUser)

  const Initial := AuthState(None, None, None, false, None)

  /** The reducers of the slice, with their effect on the cookie. */
  function Next(v: AuthView, e: AuthEvent): (w: AuthView) {
    var s := v.state;
    match e
    case SetToken(t) => AuthView(s.(token := Some(t)), Some(t))
    case RemoveToken => AuthView(s.(token := None), None)
    case LoginPending => v.(state := s.(isLoading := true))
    case LoginFulfilled(r) =>
      AuthView(s.(isLoading := false, token := Some(r.token), userId := Some(r.userId),
                  username := Some(r.username)), Some(r.token))
    case LoginRejected(p) => v.(state := s.(isLoading := false, error := p))
    case RegisterPending => v.(state := s.(isLoading := true))
    case RegisterFulfilled => v.(state := s.(isLoading := false))
    case RegisterRejected => v.(state := s.(isLoading := false))
    case VerifyJwtFulfilled(u) => v.(state := s.(userId := Some(u.userId), username := Some(u.username)))
  }

  /** The state after the events, in order. */
  function Run(v: AuthView, events: seq<AuthEvent>): AuthView {
    if events == [] then v else Next(Run(v, events[..|events| - 1]), events[|events| - 1])
  }

  /** The token in the state and the `jwt` cookie agree. */
  predicate InSync(v: AuthView) {
    v.state.token == v.jwt
  }

  /** Every reducer that touches the token touches the cookie the same way, so the two
      stay in agreement, and a token event brings them back into agreement; only the token
      events change either of them. */
  lemma NextKeepsTokenInSync(v: AuthView, e: AuthEvent)
    ensures InSync(v) ==> InSync(Next(v, e))
    ensures (e.SetToken? || e.RemoveToken? || e.LoginFulfilled?) ==> InSync(Next(v, e))
    ensures !(e.SetToken? || e.RemoveToken? || e.LoginFulfilled?) ==>
      Next(v, e).state.token == v.state.token && Next(v, e).jwt == v.jwt
  {
  }

  lemma {:induction false} RunKeepsTokenInSync(v: AuthView, events: seq<AuthEvent>)
    requires InSync(v)
    ensures InSync(Run(v, events))
  {
    if events != [] {
      RunKeepsTokenInSync(v, events[..|events| - 1]);
      NextKeepsTokenInSync(Run(v, events[..|events| - 1]), events[|events| - 1]);
    }
  }

  /** Register events change nothing but the loading flag; pending events set it and
      settling events clear it. */
  lemma RegisterTouchesOnlyLoading(v: AuthView, e: AuthEvent)
    requires e.RegisterPending? || e.RegisterFulfilled? || e.RegisterRejected?
    ensures Next(v, e) == v.(state := v.state.(isLoading := e.RegisterPending?))
  {
  }

  /** A failed login keeps the signed-in user and the token; a successful one keeps the
      last error. */
  lemma LoginOutcomes(v: AuthView, r: LoginResponse, p: Option<ApiError>)
    ensures var w := Next(v, LoginRejected(p));
      w.state.token == v.state.token && w.state.userId == v.state.userId
      && w.state.username == v.state.username && w.jwt == v.jwt && w.state.error == p
    ensures Next(v, LoginFulfilled(r)).state.error == v.state.error
  {
  }

  /** The `jwt` cookie, shared by the page. */
  class CookieJar {
    var jwt: Option<string>

    constructor (jwt: Option<string>)
      ensures this.jwt == jwt
    {
      this.jwt := jwt;
    }
  }

  /** The slice's draft state and the cookie jar its reducers write. */
  class Draft {
    var userId: Option<string>
    var username: Option<string>
    var token: Option<string>
    var isLoading: bool
    var error: Option<ApiError>
    const cookies: CookieJar

    function View(): AuthView
      reads this, cookies
    {
      AuthView(AuthState(userId, username, token, isLoading, error), cookies.jwt)
    }

    /** initialState: everything null and not loading; the cookie is left as it is. */
    constructor (cookies: CookieJar)
      ensures this.cookies == cookies
      ensures View() == AuthView(Initial, old(cookies.jwt))
    {
      userId := None;
      username := None;
      token := None;
      isLoading := false;
      error := None;
      this.cookies := cookies;
    }

    method SetToken(t: string)
      modifies this, cookies
      ensures View() == Next(old(View()), AuthEvent.SetToken(t))
    {
      token := Some(t);
      cookies.jwt := Some(t);
    }

    method RemoveToken()
      modifies this, cookies
      ensures View() == Next(old(View()), AuthEvent.RemoveToken)
    {
      token := None;
      cookies.jwt := None;
    }

    method LoginPending()
      modifies this
      ensures View() == Next(old(View()), AuthEvent.LoginPending)
    {
      isLoading := true;
    }

    method LoginFulfilled(r: LoginResponse)
      modifies this, cookies
      ensures View() == Next(old(View()), AuthEvent.LoginFulfilled(r))
    {
      isLoading := false;
      token := Some(r.token);
      cookies.jwt := Some(r.token);
      userId := Some(r.userId);
      username := Some(r.username);
    }

    method LoginRejected(payload: Option<ApiError>)
      modifies this
      ensures View() == Next(old(View()), AuthEvent.LoginRejected(payload))
    {
      isLoading := false;
      error := payload;
    }

    method RegisterPending()
      modifies this
      ensures View() == Next(old(View()), AuthEvent.RegisterPending)
    {
      isLoading := true;
    }

    method RegisterFulfilled()
      modifies this
      ensures View() == Next(old(View()), AuthEvent.RegisterFulfilled)
    {
      isLoading := false;
    }

    method RegisterRejected()
      modifies this
      ensures View() == Next(old(View()), AuthEvent.RegisterRejected)
    {
      isLoading := false;
    }

    method VerifyJwtFulfilled(u: VerifiedUser)
      modifies this
      ensures View() == Next(old(View()), AuthEvent.VerifyJwtFulfilled(u))
    {
      userId := Some(u.userId);
      username := Some(u.username);
    }
  }
}
