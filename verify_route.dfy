/** `GET /api/auth/verify`: finds the token in the `Authorization` header or
    the `auth-token` cookie and answers with the user it belongs to. */
module VerifyRoute {
  import opened Wrappers
  import opened Http
  import Auth
  import LoginRoute

  const ErrNoToken := "未提供认证令牌"
  const ErrBadToken := "无效的认证令牌"

  /** The longest prefix of `s` without a space. */
  function UntilSpace(s: string): (r: string)
    ensures |r| <= |s| && r == s[..|r|] && ' ' !in r
    ensures |r| < |s| ==> s[|r|] == ' '
  {
    if s == [] || s[0] == ' ' then [] else [s[0]] + UntilSpace(s[1..])
  }

  /** `s.split(' ')`: the pieces between single spaces, empty pieces included. */
  function Split(s: string): (r: seq<string>)
    ensures |r| >= 1
    ensures |r| == 1 <==> ' ' !in s
    ensures forall k :: 0 <= k < |r| ==> ' ' !in r[k]
    decreases |s|
  {
    var first := UntilSpace(s);
    if |first| == |s| then [s] else [first] + Split(s[|first| + 1..])
  }

  /** The pieces joined back with one space between each two. */
  function Join(parts: seq<string>): string
    requires |parts| >= 1
  {
    if |parts| == 1 then parts[0] else parts[0] + " " + Join(parts[1..])
  }

  /** Splitting loses nothing: joining the pieces gives back the text. */
  lemma {:induction false} JoinSplit(s: string)
    ensures Join(Split(s)) == s
    decreases |s|
  {
    var first := UntilSpace(s);
    if |first| < |s| {
      var rest := s[|first| + 1..];
      JoinSplit(rest);
      assert s[|first|] == ' ';
      SplitStep(s);
      JoinCons(first, Split(rest));
    }
  }

  /** Joining a head onto further pieces puts one space between them. */
  lemma JoinCons(head: string, tail: seq<string>)
    requires |tail| >= 1
    ensures Join([head] + tail) == head + " " + Join(tail)
  {
    assert ([head] + tail)[1..] == tail;
  }

  /** One step of `Split` on a text with a space. */
  lemma SplitStep(s: string)
    requires ' ' in s
    ensures |UntilSpace(s)| < |s|
    ensures Split(s) == [UntilSpace(s)] + Split(s[|UntilSpace(s)| + 1..])
    ensures s == UntilSpace(s) + " " + s[|UntilSpace(s)| + 1..]
  {
    var n := |UntilSpace(s)|;
    assert s == s[..n] + [s[n]] + s[n + 1..];
  }

  /** Joining pieces without spaces and splitting again gives the pieces. */
  lemma {:induction false} SplitJoin(parts: seq<string>)
    requires |parts| >= 1 && forall k :: 0 <= k < |parts| ==> ' ' !in parts[k]
    ensures Split(Join(parts)) == parts
  {
    var s := Join(parts);
    if |parts| > 1 {
      var rest := Join(parts[1..]);
      assert s == parts[0] + (" " + rest);
      UntilSpacePrefix(parts[0], " " + rest);
      assert s[|parts[0]|] == ' ';
      SplitStep(s);
      assert s[|parts[0]| + 1..] == rest;
      SplitJoin(parts[1..]);
      assert parts == [parts[0]] + parts[1..];
    } else {
      UntilSpacePrefix(parts[0], []);
      assert parts[0] + [] == parts[0];
    }
  }

  /** A space-free head followed by nothing or a space is what `UntilSpace`
      takes. */
  lemma {:induction false} UntilSpacePrefix(a: string, b: string)
    requires ' ' !in a && (b == [] || b[0] == ' ')
    ensures UntilSpace(a + b) == a
  {
    if a != [] {
      assert (a + b)[1..] == a[1..] + b;
      UntilSpacePrefix(a[1..], b);
    }
  }

  /** `header?.split(' ')[1]`: the second space-separated piece of the header,
      none without a header or without a space in it. */
  function SecondField(header: Option<string>): (r: Option<string>)
    ensures r.None? <==> header.None? || ' ' !in header.value
    ensures r.Some? ==> r.value == Split(header.value)[1]
  {
    match header
    case None => None
    case Some(h) =>
      var parts := Split(h);
      if |parts| > 1 then Some(parts[1]) else None
  }

  /** The token the route uses: the header's second piece when it is a
      non-empty text, else the cookie's value. */
  function SelectToken(header: Option<string>, cookie: Option<string>): (r: Option<string>)
    ensures Truthy(SecondField(header)) ==> r == SecondField(header)
    ensures !Truthy(SecondField(header)) ==> r == cookie
  {
    var fromHeader := SecondField(header);
    if Truthy(fromHeader) then fromHeader else cookie
  }

  /** `Authorization: Bearer <token>` yields that token, whatever the
      cookie holds. */
  lemma BearerHeaderWins(token: string, cookie: Option<string>)
    requires token != [] && ' ' !in token
    ensures SelectToken(Some("Bearer " + token), cookie) == Some(token)
  {
    SplitJoin(["Bearer", token]);
    assert Join(["Bearer", token]) == "Bearer " + token;
  }

  /** Without an `Authorization` header the cookie's token is used. */
  lemma CookieWithoutHeader(cookie: Option<string>)
    ensures SelectToken(None, cookie) == cookie
  {
  }

  /** `GET` at time `now` (seconds): 401 "no token" when neither place holds
      a non-empty token, 200 with `{ id, username }` when `verifyToken` finds
      the user, 401 "invalid token" otherwise. `fails` is a failing lookup,
      which `verifyToken` absorbs. */
  function Get(s: Auth.StoreState, header: Option<string>, cookie: Option<string>, signer: Auth.Signer, now: int,
               fails: bool): (r: ApiResponse)
    requires Auth.ValidStore(s)
    ensures !Truthy(SelectToken(header, cookie)) ==> r == ErrorResponse(401, ErrNoToken)
    ensures r.status in {200, 401} && r.cookie.None?
    ensures r.status == 200 <==>
      Truthy(SelectToken(header, cookie)) && Auth.VerifyToken(s, SelectToken(header, cookie).value, signer, now, fails).Some?
    ensures r.status == 200 ==>
      var u := Auth.VerifyToken(s, SelectToken(header, cookie).value, signer, now, fails).value;
      && u.username in s.users && s.users[u.username].id == u.id
      && r == ApiResponse(200, None, None, Some(UserView(u.id, u.username)), None)
    ensures r.status == 401 && Truthy(SelectToken(header, cookie)) ==> r == ErrorResponse(401, ErrBadToken)
  {
    var token := SelectToken(header, cookie);
    if !Truthy(token) then ErrorResponse(401, ErrNoToken)
    else match Auth.VerifyToken(s, token.value, signer, now, fails)
      case Some(user) => ApiResponse(200, None, None, Some(UserView(user.id, user.username)), None)
      case None => ErrorResponse(401, ErrBadToken)
  }

  /** The cookie a successful login sets is accepted by this route, for the
      user that logged in, until the token expires; afterwards it is refused
      as invalid. */
  lemma {:induction false} LoginCookieVerifies(s: Auth.StoreState, username: string, password: string,
                                               hasher: Auth.Hasher, signer: Auth.Signer, issuedAt: int,
                                               production: bool, now: int)
    requires Auth.ValidStore(s) && Auth.SignerSound(signer) && Auth.SignerExpires(signer)
    requires username != [] && password != []
    requires var login := LoginRoute.Post(s, Some(LoginRoute.LoginBody(Some(username), Some(password))),
                                          hasher, signer, issuedAt, false, production);
             login.status == 200 && login.cookie.value.value != []
    ensures var login := LoginRoute.Post(s, Some(LoginRoute.LoginBody(Some(username), Some(password))),
                                         hasher, signer, issuedAt, false, production);
            var r := Get(s, None, Some(login.cookie.value.value), signer, now, false);
            && (issuedAt <= now < issuedAt + Auth.TokenLifetime ==> r.status == 200 && r.user == login.user)
            && (issuedAt + Auth.TokenLifetime <= now ==> r == ErrorResponse(401, ErrBadToken))
  {
    var data := Auth.LoginData(username, password);
    Auth.LoginTokenVerifies(s, data, hasher, signer, issuedAt, now);
  }
}
