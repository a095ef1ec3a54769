/** The client side of authentication (`AuthProvider`): the signed-in user
    and flag it keeps, the check it makes on mount, and its login, register
    and logout calls. A `fetch` and its `response.json()` become a `Reply`
    parameter; `localStorage`'s `auth-token` entry becomes a field. */
module AuthContext {
  import opened Wrappers
  import opened Http
  import Auth
  import LoginRoute
  import RegisterRoute
  import VerifyRoute

  /** What `fetch` and `response.json()` give the client: a rejection with
      its message (network failure, a body that is not JSON), or the
      `response.ok` flag and the parsed body. */
  datatype Reply = Rejected(reason: string) | Replied(ok: bool, json: ApiResponse)

  /** `response.ok`: a status in 200..299. */
  predicate IsOk(status: nat) {
    200 <= status <= 299
  }

  /** The reply a route's response reaches the client as. */
  function Delivered(r: ApiResponse): (reply: Reply)
    ensures reply.Replied? && reply.json == r
    ensures reply.ok <==> 200 <= r.status < 300
  {
    Replied(IsOk(r.status), r)
  }

  /** How a client call ends: it returns the parsed body or throws an error
      with a message. */
  datatype Outcome = Returned(body: ApiResponse) | Thrown(message: string)

  const ErrPasswordMismatch := "两次输入的密码不一致"

  /** `result.error || fallback`. */
  function ErrorOr(error: Option<string>, fallback: string): (m: string)
    ensures Truthy(error) ==> m == error.value
    ensures !Truthy(error) ==> m == fallback
  {
    if Truthy(error) then error.value else fallback
  }

  /** The provider's state: `user`, `isAuthenticated`, and the `auth-token`
      entry of `localStorage`. */
  datatype Session = Session(user: Option<UserView>, isAuthenticated: bool, storedToken: Option<string>)

  /** The flag says exactly whether a user is known. */
  predicate Consistent(s: Session) {
    s.isAuthenticated <==> s.user.Some?
  }

  /** `checkAuthStatus`: an ok reply that carries a user signs that user in;
      any other reply, and a rejection, removes the stored token and leaves
      the rest alone. */
  function Checked(s: Session, reply: Reply): (r: Session)
    ensures (reply.Replied? && reply.ok && reply.json.user.Some?) ==>
              r == s.(user := reply.json.user, isAuthenticated := true)
    ensures !(reply.Replied? && reply.ok && reply.json.user.Some?) ==> r == s.(storedToken := None)
    ensures Consistent(s) ==> Consistent(r)
  {
    if reply.Replied? && reply.ok && reply.json.user.Some? then s.(user := reply.json.user, isAuthenticated := true)
    else s.(storedToken := None)
  }

  /** The body `login` posts: both fields, as given. */
  function LoginRequest(data: Auth.LoginData): (body: LoginRoute.LoginBody)
    ensures body.username == Some(data.username) && body.password == Some(data.password)
  {
    LoginRoute.LoginBody(Some(data.username), Some(data.password))
  }

  /** `login`: an ok reply sets `user` to the body's user and the flag, and
      returns the body; a failed one throws the body's error, or "login
      failed" when it has none; a rejection is rethrown. Only an ok reply
      changes the session. */
  function LoggedIn(s: Session, reply: Reply): (r: (Session, Outcome))
    ensures reply.Replied? && reply.ok ==>
              r == (s.(user := reply.json.user, isAuthenticated := true), Returned(reply.json))
    ensures reply.Replied? && !reply.ok ==> r == (s, Thrown(ErrorOr(reply.json.error, Auth.ErrLoginFailed)))
    ensures reply.Rejected? ==> r == (s, Thrown(reply.reason))
    ensures r.1.Returned? <==> reply.Replied? && reply.ok
    ensures r.1.Thrown? ==> r.0 == s
  {
    match reply
    case Rejected(reason) => (s, Thrown(reason))
    case Replied(ok, json) =>
      if ok then (s.(user := json.user, isAuthenticated := true), Returned(json))
      else (s, Thrown(ErrorOr(json.error, Auth.ErrLoginFailed)))
  }

  /** `logout`: once the logout request went through, no user, no flag and
      no stored token; when it fails, nothing changes. */
  function LoggedOut(s: Session, fetchFails: bool): (r: Session)
    ensures fetchFails ==> r == s
    ensures !fetchFails ==> r.user.None? && !r.isAuthenticated && r.storedToken.None?
    ensures Consistent(s) ==> Consistent(r)
  {
    if fetchFails then s else Session(None, false, None)
  }

  /** `register`: a confirmation that differs from the password throws
      "passwords differ" without any request; otherwise it posts only the
      username and password, returns the body of an ok reply, throws the
      body's error (or "register failed") for another reply, and rethrows a
      rejection. Returns the body posted, if any, and the outcome. */
  function Register(data: Auth.RegisterData, reply: Reply): (r: (Option<RegisterRoute.RegisterBody>, Outcome))
    ensures data.password != data.confirmPassword ==> r == (None, Thrown(ErrPasswordMismatch))
    ensures data.password == data.confirmPassword ==>
              r.0 == Some(RegisterRoute.RegisterBody(Some(data.username), Some(data.password), None))
    ensures r.1.Returned? <==> data.password == data.confirmPassword && reply.Replied? && reply.ok
    ensures r.1.Returned? ==> r.1.body == reply.json
    ensures data.password == data.confirmPassword && reply.Replied? && !reply.ok
            ==> r.1 == Thrown(ErrorOr(reply.json.error, Auth.ErrRegisterFailed))
    ensures data.password == data.confirmPassword && reply.Rejected? ==> r.1 == Thrown(reply.reason)
  {
    if data.password != data.confirmPassword then (None, Thrown(ErrPasswordMismatch))
    else
      var sent := Some(RegisterRoute.RegisterBody(Some(data.username), Some(data.password), None));
      match reply
      case Rejected(reason) => (sent, Thrown(reason))
      case Replied(ok, json) =>
        if ok then (sent, Returned(json)) else (sent, Thrown(ErrorOr(json.error, Auth.ErrRegisterFailed)))
  }

  /** Logging in against the login route: the client is signed in exactly
      when the route answered 200, then as the user the route returned, the
      one whose row holds that username; otherwise it throws the route's
      error and its session is unchanged. */
  lemma {:induction false} LoginAgainstRoute(s: Session, st: Auth.StoreState, data: Auth.LoginData,
                                             hasher: Auth.Hasher, signer: Auth.Signer, now: int, fails: bool,
                                             production: bool)
    requires Auth.ValidStore(st)
    ensures var response := LoginRoute.Post(st, Some(LoginRequest(data)), hasher, signer, now, fails, production);
            var (s', outcome) := LoggedIn(s, Delivered(response));
            && (outcome.Returned? <==> response.status == 200)
            && (response.status == 200 ==>
                  && s'.isAuthenticated && Consistent(s') && s'.storedToken == s.storedToken
                  && data.username in st.users
                  && s'.user == Some(UserView(st.users[data.username].id, data.username)))
            && (response.status != 200 ==> s' == s && outcome == Thrown(response.error.value))
  {
    var response := LoginRoute.Post(st, Some(LoginRequest(data)), hasher, signer, now, fails, production);
    if response.status == 200 {
      var result := Auth.LoginUser(st, data, hasher, signer, now, fails);
      assert result.success;
    }
  }

  /** The check on mount against the verify route: the client is signed in
      after it exactly when the route answered 200, and then as the user the
      route found; otherwise only the stored token is dropped. */
  lemma CheckAgainstRoute(s: Session, st: Auth.StoreState, header: Option<string>, cookie: Option<string>,
                          signer: Auth.Signer, now: int, fails: bool)
    requires Auth.ValidStore(st) && Consistent(s)
    ensures var response := VerifyRoute.Get(st, header, cookie, signer, now, fails);
            var s' := Checked(s, Delivered(response));
            && Consistent(s')
            && (response.status == 200 ==> s' == s.(user := response.user, isAuthenticated := true))
            && (response.status != 200 ==> s' == s.(storedToken := None))
  {
  }

  /** Registering through the client against the register route: the call
      returns exactly when the route created the user, and the data
      `registerUser` then receives carries an empty confirmation, because the
      client does not send it. */
  lemma {:induction false} RegisterAgainstRoute(data: Auth.RegisterData, st: Auth.StoreState, hasher: Auth.Hasher,
                                                salt: nat, createdAt: int, fault: Auth.Fault)
    requires Auth.ValidStore(st) && data.password == data.confirmPassword
    ensures var body := RegisterRoute.RegisterBody(Some(data.username), Some(data.password), None);
            var (response, _) := RegisterRoute.Post(st, Some(body), hasher, salt, createdAt, fault);
            var (sent, outcome) := Register(data, Delivered(response));
            && sent == Some(body)
            && (outcome.Returned? <==> response.status == 201)
            && (response.status == 201 ==> RegisterRoute.ToRegisterData(body).confirmPassword == [])
  {
  }

  /** The provider's state, updated in place by its callbacks. */
  class AuthProvider {
    var user: Option<UserView>
    var isAuthenticated: bool
    var storedToken: Option<string>

    function Snap(): Session
      reads this
    {
      Session(user, isAuthenticated, storedToken)
    }

    /** No user and not signed in; `localStorage` keeps what it held. */
    constructor (storedToken: Option<string>)
      ensures Snap() == Session(None, false, storedToken) && Consistent(Snap())
    {
      user, isAuthenticated := None, false;
      this.storedToken := storedToken;
    }

    /** The effect run once on mount. */
    method CheckAuthStatus(reply: Reply)
      modifies this
      ensures Snap() == Checked(old(Snap()), reply)
    {
      if reply.Replied? && reply.ok && reply.json.user.Some? {
        user := reply.json.user;
        isAuthenticated := true;
      } else {
        storedToken := None;
      }
    }

    /** `login`: returns the body it posted and how the call ended. */
    method Login(data: Auth.LoginData, reply: Reply) returns (sent: LoginRoute.LoginBody, outcome: Outcome)
      modifies this
      ensures sent == LoginRequest(data)
      ensures (Snap(), outcome) == LoggedIn(old(Snap()), reply)
    {
      sent := LoginRequest(data);
      match reply {
        case Rejected(reason) =>
          outcome := Thrown(reason);
        case Replied(ok, json) =>
          if ok {
            user := json.user;
            isAuthenticated := true;
            outcome := Returned(json);
          } else {
            outcome := Thrown(ErrorOr(json.error, Auth.ErrLoginFailed));
          }
      }
    }

    /** `logout`. */
    method Logout(fetchFails: bool)
      modifies this
      ensures Snap() == LoggedOut(old(Snap()), fetchFails)
    {
      if !fetchFails {
        user := None;
        isAuthenticated := false;
        storedToken := None;
      }
    }
  }
}
