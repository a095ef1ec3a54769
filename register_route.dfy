/** `POST /api/auth/register`: validates the body, calls `registerUser` and
    maps its result to a status code. */
module RegisterRoute {
  import opened Wrappers
  import opened Http
  import opened Text
  import Auth

  /** The JSON body as the route reads it; a missing property is none. */
  datatype RegisterBody = RegisterBody(username: Option<string>, password: Option<string>, confirmPassword: Option<string>)

  const ErrMissingFields := "用户名和密码是必需的"
  const ErrShortPassword := "密码长度至少为6个字符"
  const MsgRegistered := "用户注册成功"
  const MinPasswordLength: nat := 6

  /** The two guards: the response they return, or none when the body passes
      both. Presence is checked first, length second; the length is the
      string's `length`, counted in UTF-16 code units. */
  function Validate(body: RegisterBody): (r: Option<ApiResponse>)
    ensures r.None? <==> Truthy(body.username) && Truthy(body.password) && Utf16Length(body.password.value) >= MinPasswordLength
    ensures !Truthy(body.username) || !Truthy(body.password) ==> r == Some(ErrorResponse(400, ErrMissingFields))
    ensures Truthy(body.username) && Truthy(body.password) && Utf16Length(body.password.value) < MinPasswordLength
            ==> r == Some(ErrorResponse(400, ErrShortPassword))
  {
    if !Truthy(body.username) || !Truthy(body.password) then Some(ErrorResponse(400, ErrMissingFields))
    else if Utf16Length(body.password.value) < MinPasswordLength then Some(ErrorResponse(400, ErrShortPassword))
    else None
  }

  /** The data handed to `registerUser`; a missing confirmation is empty. */
  function ToRegisterData(body: RegisterBody): (d: Auth.RegisterData)
    requires body.username.Some? && body.password.Some?
    ensures d.username == body.username.value && d.password == body.password.value
    ensures body.confirmPassword.Some? ==> d.confirmPassword == body.confirmPassword.value
    ensures body.confirmPassword.None? ==> d.confirmPassword == ""
  {
    Auth.RegisterData(body.username.value, body.password.value, body.confirmPassword.GetOr(""))
  }

  /** `registerUser`'s result as a response: 201 on success, else 400 with
      its error. */
  function ResultResponse(result: Auth.RegisterResult): (r: ApiResponse)
    ensures result.success ==> r == ApiResponse(201, Some(MsgRegistered), None, None, None)
    ensures !result.success ==> r == ApiResponse(400, None, result.error, None, None)
  {
    if result.success then ApiResponse(201, Some(MsgRegistered), None, None, None)
    else ApiResponse(400, None, result.error, None, None)
  }

  /** `POST` against the table `s`: an unreadable body (none) gives 500, a
      rejected body its 400 without touching the table, and otherwise the
      registration's outcome. Returns the response and the new table. */
  function Post(s: Auth.StoreState, body: Option<RegisterBody>, hasher: Auth.Hasher, salt: nat, createdAt: int,
                fault: Auth.Fault): (r: (ApiResponse, Auth.StoreState))
    requires Auth.ValidStore(s)
    ensures Auth.ValidStore(r.1)
    ensures r.0.status in {201, 400, 500}
    ensures body.None? ==> r == (ErrorResponse(500, ErrInternal), s)
    ensures body.Some? && Validate(body.value).Some? ==> r == (Validate(body.value).value, s)
    ensures r.0.status == 201 <==> body.Some? && Validate(body.value).None?
                                   && Auth.Register(s, ToRegisterData(body.value), hasher, salt, createdAt, fault).0.success
    ensures body.Some? && Validate(body.value).None? ==>
      var outcome := Auth.Register(s, ToRegisterData(body.value), hasher, salt, createdAt, fault);
      r == (ResultResponse(outcome.0), outcome.1)
  {
    match body
    case None => (ErrorResponse(500, ErrInternal), s)
    case Some(data) =>
      match Validate(data)
      case Some(rejected) => (rejected, s)
      case None =>
        Auth.RegisterKeepsValid(s, ToRegisterData(data), hasher, salt, createdAt, fault);
        var (result, s') := Auth.Register(s, ToRegisterData(data), hasher, salt, createdAt, fault);
        (ResultResponse(result), s')
  }

  /** A body that passes validation and names a taken username yields 400
      with "user exists", and the table stays as it was. */
  lemma {:induction false} DuplicateGives400(s: Auth.StoreState, body: RegisterBody, hasher: Auth.Hasher, salt: nat,
                                             createdAt: int, fault: Auth.Fault)
    requires Auth.ValidStore(s) && Validate(body).None? && body.username.value in s.users && fault != Auth.LookupFails
    ensures Post(s, Some(body), hasher, salt, createdAt, fault) == (ErrorResponse(400, Auth.ErrUserExists), s)
  {
    Auth.RegisterDuplicateFails(s, ToRegisterData(body), hasher, salt, createdAt, fault);
  }

  /** Three emoji are six UTF-16 code units, so the length guard lets such a
      password through although it is three characters long. */
  lemma ThreeEmojiPasswordPasses()
    ensures var pw := "\U{1F600}\U{1F600}\U{1F600}";
      |pw| == 3 && Validate(RegisterBody(Some("user"), Some(pw), None)).None?
  {
    Utf16LengthOfEmoji();
  }
}
