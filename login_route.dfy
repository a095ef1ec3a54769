/** `POST /api/auth/login`: validates the body, calls `loginUser`, and on
    success returns the user and sets the `auth-token` cookie. */
module LoginRoute {
  import opened Wrappers
  import opened Http
  import Auth

  /** The JSON body as the route reads it; a missing property is none. */
  datatype LoginBody = LoginBody(username: Option<string>, password: Option<string>)

  const ErrMissingFields := "用户名和密码是必需的"
  const MsgLoggedIn := "登录成功"
  const CookieName := "auth-token"

  /** `60 * 60 * 24 * 7` seconds. */
  const CookieMaxAge: nat := 60 * 60 * 24 * 7

  /** The session cookie: HTTP-only, secure in production, seven days, whole
      site. */
  function AuthCookie(token: string, production: bool): (c: Cookie)
    ensures c.name == CookieName && c.value == token && c.httpOnly && c.secure == production
    ensures c.maxAge == Auth.TokenLifetime && c.path == "/"
  {
    Cookie(CookieName, token, true, production, CookieMaxAge, "/")
  }

  /** `POST` at time `now` (seconds) against the table `s`: 500 for an
      unreadable body, 400 for a missing username or password (without a
      login attempt), 200 with `{ id, username }` and the cookie on success,
      401 with `loginUser`'s error otherwise. */
  function Post(s: Auth.StoreState, body: Option<LoginBody>, hasher: Auth.Hasher, signer: Auth.Signer, now: int,
                fails: bool, production: bool): (r: ApiResponse)
    requires Auth.ValidStore(s)
    ensures body.None? ==> r == ErrorResponse(500, ErrInternal)
    ensures body.Some? && (!Truthy(body.value.username) || !Truthy(body.value.password))
            ==> r == ErrorResponse(400, ErrMissingFields)
    ensures r.status in {200, 400, 401, 500}
    ensures r.cookie.Some? <==> r.status == 200
    ensures r.status == 200 || r.status == 401 ==>
      body.Some? && Truthy(body.value.username) && Truthy(body.value.password) &&
      var result := Auth.LoginUser(s, Auth.LoginData(body.value.username.value, body.value.password.value),
                                   hasher, signer, now, fails);
      && (r.status == 200 <==> result.success)
      && (r.status == 200 ==> r.user == Some(UserView(result.user.value.id, result.user.value.username))
                              && r.cookie == Some(AuthCookie(result.token.value, production)))
      && (r.status == 401 ==> r == ErrorResponse(401, result.error.value))
    ensures body.Some? && Truthy(body.value.username) && Truthy(body.value.password) ==>
      var result := Auth.LoginUser(s, Auth.LoginData(body.value.username.value, body.value.password.value),
                                   hasher, signer, now, fails);
      && (result.success ==> r == ApiResponse(200, Some(MsgLoggedIn), None,
                                              Some(UserView(result.user.value.id, result.user.value.username)),
                                              Some(AuthCookie(result.token.value, production))))
      && (!result.success ==> r == ErrorResponse(401, result.error.value))
  {
    match body
    case None => ErrorResponse(500, ErrInternal)
    case Some(data) =>
      if !Truthy(data.username) || !Truthy(data.password) then ErrorResponse(400, ErrMissingFields)
      else
        var result := Auth.LoginUser(s, Auth.LoginData(data.username.value, data.password.value), hasher, signer, now, fails);
        if result.success then
          ApiResponse(200, Some(MsgLoggedIn), None,
                      Some(UserView(result.user.value.id, result.user.value.username)),
                      Some(AuthCookie(result.token.value, production)))
        else ErrorResponse(401, result.error.value)
  }

  /** A wrong password for an existing user gives 401 "wrong password" and
      sets no cookie. */
  lemma {:induction false} WrongPasswordGives401(s: Auth.StoreState, username: string, password: string,
                                                 hasher: Auth.Hasher, signer: Auth.Signer, now: int, production: bool)
    requires Auth.ValidStore(s) && username != [] && password != [] && username in s.users
    requires !hasher.compare(password, s.users[username].password)
    ensures Post(s, Some(LoginBody(Some(username), Some(password))), hasher, signer, now, false, production)
            == ErrorResponse(401, Auth.ErrWrongPassword)
  {
    var result := Auth.LoginUser(s, Auth.LoginData(username, password), hasher, signer, now, false);
    assert result == Auth.LoginResult(false, None, None, Some(Auth.ErrWrongPassword));
  }
}
