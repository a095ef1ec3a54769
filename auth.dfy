/** The authentication service of `lib/auth.ts` over an abstract credential
    store: registration (uniqueness check, bcrypt hash, insert), login
    (lookup, hash comparison, JWT issue) and token verification (JWT check,
    lookup by id). The SQLite `users` table is a map from username to row
    plus the AUTOINCREMENT counter; bcrypt and jsonwebtoken are pairs of
    functions given as values, and the properties they are trusted to have
    are predicates that the lemmas needing them require. A database or
    library failure is an input saying where the call throws. */
module Auth {
  import opened Wrappers

  /** A row of the `users` table; `password` holds the bcrypt hash. */
  datatype UserRecord = UserRecord(id: nat, username: string, password: string, createdAt: int)

  /** A user without the password column. */
  datatype PublicUser = PublicUser(id: nat, username: string, createdAt: int)

  datatype RegisterData = RegisterData(username: string, password: string, confirmPassword: string)
  datatype LoginData = LoginData(username: string, password: string)

  /** bcrypt with the cost factor 10: `hash(password, salt)` and
      `compare(password, hash)`; the salt stands for bcrypt's randomness. */
  datatype Hasher = Hasher(hash: (string, nat) -> string, compare: (string, string) -> bool)

  /** bcrypt accepts the password a hash was made from. */
  ghost predicate HasherSound(h: Hasher) {
    forall p, salt :: h.compare(p, h.hash(p, salt))
  }

  /** bcrypt accepts a password for a hash only when the two agree on the
      bytes bcrypt reads: the first 72 bytes of their UTF-8 encoding (hash
      collisions idealised away). */
  ghost predicate HasherBinding(h: Hasher) {
    forall p, q, salt :: h.compare(p, h.hash(q, salt)) ==> BcryptKey(p) == BcryptKey(q)
  }

  /** bcrypt ignores everything after the first 72 bytes: passwords that agree
      on them are accepted for each other's hashes. */
  ghost predicate HasherTruncates(h: Hasher) {
    forall p, q, salt :: BcryptKey(p) == BcryptKey(q) ==> h.compare(p, h.hash(q, salt))
  }

  type Byte = b: int | 0 <= b < 256

  /** A continuation byte, `10xxxxxx`. */
  predicate Continuation(b: Byte) {
    0x80 <= b < 0xC0
  }

  /** The code point a well-formed one-to-four-byte sequence stands for: the
      lead byte's payload bits followed by six bits per continuation byte. */
  function CodePoint(b: seq<Byte>): int
    requires 1 <= |b| <= 4
  {
    var lead := b[0] as int;
    if |b| == 1 then lead
    else if |b| == 2 then (lead - 0xC0) * 64 + (b[1] as int - 0x80)
    else if |b| == 3 then ((lead - 0xE0) * 64 + (b[1] as int - 0x80)) * 64 + (b[2] as int - 0x80)
    else (((lead - 0xF0) * 64 + (b[1] as int - 0x80)) * 64 + (b[2] as int - 0x80)) * 64 + (b[3] as int - 0x80)
  }

  /** Two bytes for U+0080..U+07FF. */
  function Utf8Two(n: int): (b: seq<Byte>)
    requires 0x80 <= n < 0x800
    ensures |b| == 2 && CodePoint(b) == n && 0xC0 <= b[0] < 0xE0 && Continuation(b[1])
  {
    [0xC0 + n / 64, 0x80 + n % 64]
  }

  /** Three bytes for U+0800..U+FFFF. */
  function Utf8Three(n: int): (b: seq<Byte>)
    requires 0x800 <= n < 0x1_0000
    ensures |b| == 3 && CodePoint(b) == n && 0xE0 <= b[0] < 0xF0 && Continuation(b[1]) && Continuation(b[2])
  {
    var high := n / 64;
    assert high / 64 == n / 4096;
    [0xE0 + high / 64, 0x80 + high % 64, 0x80 + n % 64]
  }

  /** Four bytes for U+10000..U+10FFFF. */
  function Utf8Four(n: int): (b: seq<Byte>)
    requires 0x1_0000 <= n < 0x11_0000
    ensures |b| == 4 && CodePoint(b) == n && 0xF0 <= b[0] < 0xF8
    ensures Continuation(b[1]) && Continuation(b[2]) && Continuation(b[3])
  {
    var high := n / 64;
    var top := high / 64;
    [0xF0 + top / 64, 0x80 + top % 64, 0x80 + high % 64, 0x80 + n % 64]
  }

  /** The UTF-8 encoding of one character: the shortest form, a lead byte
      announcing the length and continuation bytes after it, decoding back to
      the character. */
  function Utf8(c: char): (b: seq<Byte>)
    ensures 1 <= |b| <= 4 && CodePoint(b) == c as int
    ensures |b| == 1 <==> c < '\U{0080}'
    ensures |b| == 2 <==> '\U{0080}' <= c < '\U{0800}'
    ensures |b| == 3 <==> '\U{0800}' <= c < '\U{10000}'
    ensures |b| == 4 <==> '\U{10000}' <= c
    ensures |b| == 1 ==> b[0] < 0x80
    ensures |b| == 2 ==> 0xC0 <= b[0] < 0xE0
    ensures |b| == 3 ==> 0xE0 <= b[0] < 0xF0
    ensures |b| == 4 ==> 0xF0 <= b[0] < 0xF8
    ensures forall k :: 1 <= k < |b| ==> Continuation(b[k])
  {
    var n := c as int;
    if n < 0x80 then [n]
    else if n < 0x800 then Utf8Two(n)
    else if n < 0x1_0000 then Utf8Three(n)
    else Utf8Four(n)
  }

  /** Different characters have different encodings. */
  lemma Utf8Injective(c: char, d: char)
    ensures Utf8(c) == Utf8(d) <==> c == d
  {
  }

  /** The UTF-8 encoding of a text: at least one byte per character. */
  function Utf8Encode(s: string): (b: seq<Byte>)
    ensures |s| <= |b| <= 4 * |s|
    ensures |s| == 1 ==> b == Utf8(s[0])
  {
    if s == [] then [] else Utf8(s[0]) + Utf8Encode(s[1..])
  }

  /** Encoding distributes over concatenation. */
  lemma {:induction false} Utf8EncodeAppend(a: string, b: string)
    ensures Utf8Encode(a + b) == Utf8Encode(a) + Utf8Encode(b)
  {
    if a == [] {
      assert a + b == b;
    } else {
      assert (a + b)[1..] == a[1..] + b;
      Utf8EncodeAppend(a[1..], b);
    }
  }

  /** The most bytes of a password bcrypt reads. */
  const BcryptMaxBytes: nat := 72

  /** The part of a password bcrypt uses: its first 72 UTF-8 bytes. */
  function BcryptKey(p: string): (k: seq<Byte>)
    ensures |k| <= BcryptMaxBytes && |k| <= |Utf8Encode(p)| && k == Utf8Encode(p)[..|k|]
    ensures |Utf8Encode(p)| <= BcryptMaxBytes ==> k == Utf8Encode(p)
    ensures |Utf8Encode(p)| > BcryptMaxBytes ==> |k| == BcryptMaxBytes
  {
    var b := Utf8Encode(p);
    if |b| <= BcryptMaxBytes then b else b[..BcryptMaxBytes]
  }

  /** Passwords that share their first 72 characters look the same to
      bcrypt, whatever follows. */
  lemma SharedPrefixSameKey(prefix: string, x: string, y: string)
    requires |prefix| >= BcryptMaxBytes
    ensures BcryptKey(prefix + x) == BcryptKey(prefix + y)
  {
    Utf8EncodeAppend(prefix, x);
    Utf8EncodeAppend(prefix, y);
    var e := Utf8Encode(prefix);
    assert (e + Utf8Encode(x))[..BcryptMaxBytes] == e[..BcryptMaxBytes];
    assert (e + Utf8Encode(y))[..BcryptMaxBytes] == e[..BcryptMaxBytes];
  }

  /** The payload the app signs: `{ id, username }`. */
  datatype TokenClaims = TokenClaims(id: nat, username: string)

  /** jsonwebtoken with the app's secret: `sign(claims, issuedAt, lifetime)`
      and `verify(token, now)`, times in seconds; `verify` gives no claims
      for a tampered, foreign or expired token. */
  datatype Signer = Signer(sign: (TokenClaims, int, nat) -> string, verify: (string, int) -> Option<TokenClaims>)

  /** A token verifies to the claims it was signed with until it expires. */
  ghost predicate SignerSound(s: Signer) {
    forall c, issuedAt, lifetime: nat, now ::
      issuedAt <= now < issuedAt + lifetime ==> s.verify(s.sign(c, issuedAt, lifetime), now) == Some(c)
  }

  /** A token no longer verifies once its lifetime has passed. */
  ghost predicate SignerExpires(s: Signer) {
    forall c, issuedAt, lifetime: nat, now ::
      issuedAt + lifetime <= now ==> s.verify(s.sign(c, issuedAt, lifetime), now) == None
  }

  /** `expiresIn: '7d'`, in seconds. */
  const TokenLifetime: nat := 60 * 60 * 24 * 7

  const ErrUserExists := "用户名已存在"
  const ErrRegisterFailed := "注册失败"
  const ErrNoSuchUser := "用户不存在"
  const ErrWrongPassword := "密码错误"
  const ErrLoginFailed := "登录失败"

  /** The table: rows keyed by their username (the UNIQUE column) and the
      next AUTOINCREMENT id. */
  datatype StoreState = StoreState(users: map<string, UserRecord>, nextId: nat)

  /** The table's invariant: each row sits under its own username, ids are
      distinct and below the next id. */
  predicate ValidStore(s: StoreState) {
    && (forall u :: u in s.users ==> s.users[u].username == u)
    && (forall u, v :: u in s.users && v in s.users && s.users[u].id == s.users[v].id ==> u == v)
    && (forall u :: u in s.users ==> 1 <= s.users[u].id < s.nextId)
    && s.nextId >= 1
  }

  const EmptyStore := StoreState(map[], 1)

  /** The row as handed to callers: the password hash has no field here. */
  function ToPublic(row: UserRecord): (r: PublicUser)
    ensures r.id == row.id && r.username == row.username && r.createdAt == row.createdAt
  {
    PublicUser(row.id, row.username, row.createdAt)
  }

  /** `findUserByUsername`. */
  function FindUserByUsername(s: StoreState, username: string): (r: Option<UserRecord>)
    requires ValidStore(s)
    ensures r.Some? <==> username in s.users
    ensures r.Some? ==> r.value == s.users[username] && r.value.username == username
  {
    if username in s.users then Some(s.users[username]) else None
  }

  /** `SELECT ... WHERE id = ?`: the row with that id, if any. */
  function FindById(s: StoreState, id: int): (r: Option<UserRecord>)
    requires ValidStore(s)
    ensures r.None? <==> forall u :: u in s.users ==> s.users[u].id != id
    ensures r.Some? ==> r.value.id == id && r.value.username in s.users && s.users[r.value.username] == r.value
  {
    if exists u :: u in s.users && s.users[u].id == id then
      var u :| u in s.users && s.users[u].id == id;
      Some(s.users[u])
    else None
  }

  /** Where a call into the database or a library throws, if it does. */
  datatype Fault = NoFault | LookupFails | HashFails | InsertFails | CloseFails

  datatype RegisterResult = RegisterResult(success: bool, error: Option<string>)

  /** `registerUser` as a function of the table: a taken username fails with
      "user exists"; otherwise the row (next id, username, hash of the
      password, creation time) is inserted. Any throw gives "registration
      failed"; a throw while closing the database comes after the insert. */
  function Register(s: StoreState, data: RegisterData, hasher: Hasher, salt: nat, createdAt: int, fault: Fault)
    : (r: (RegisterResult, StoreState))
    ensures r.0.success <==> r.0.error.None?
    ensures r.0.success <==> fault == NoFault && data.username !in s.users
    ensures !r.0.success ==> r.0.error.value in {ErrUserExists, ErrRegisterFailed}
    ensures fault != LookupFails && data.username in s.users ==> r.0.error == Some(ErrUserExists)
    ensures fault == LookupFails || (data.username !in s.users && fault != NoFault)
            ==> r.0 == RegisterResult(false, Some(ErrRegisterFailed))
    ensures r.1 != s <==> data.username !in s.users && (fault == NoFault || fault == CloseFails)
    ensures r.1 == s || (data.username !in s.users && r.1 == StoreState(
      s.users[data.username := UserRecord(s.nextId, data.username, hasher.hash(data.password, salt), createdAt)],
      s.nextId + 1))
  {
    if fault == LookupFails then (RegisterResult(false, Some(ErrRegisterFailed)), s)
    else if data.username in s.users then (RegisterResult(false, Some(ErrUserExists)), s)
    else if fault == HashFails || fault == InsertFails then (RegisterResult(false, Some(ErrRegisterFailed)), s)
    else
      var row := UserRecord(s.nextId, data.username, hasher.hash(data.password, salt), createdAt);
      var s' := StoreState(s.users[data.username := row], s.nextId + 1);
      if fault == CloseFails then (RegisterResult(false, Some(ErrRegisterFailed)), s')
      else assert fault == NoFault; (RegisterResult(true, None), s')
  }

  /** Registering a taken username fails with "user exists" and leaves the
      table as it was. */
  lemma RegisterDuplicateFails(s: StoreState, data: RegisterData, hasher: Hasher, salt: nat, createdAt: int, fault: Fault)
    requires ValidStore(s) && data.username in s.users && fault != LookupFails
    ensures Register(s, data, hasher, salt, createdAt, fault) == (RegisterResult(false, Some(ErrUserExists)), s)
  {
  }

  /** A successful registration adds exactly one row, under the new username,
      holding the password's hash; every other row is untouched. */
  lemma RegisterAddsOneRow(s: StoreState, data: RegisterData, hasher: Hasher, salt: nat, createdAt: int)
    requires ValidStore(s) && data.username !in s.users
    ensures var (result, s') := Register(s, data, hasher, salt, createdAt, NoFault);
      && result == RegisterResult(true, None)
      && s'.users.Keys == s.users.Keys + {data.username}
      && s'.users[data.username] == UserRecord(s.nextId, data.username, hasher.hash(data.password, salt), createdAt)
      && (forall u :: u in s.users ==> s'.users[u] == s.users[u])
  {
  }

  /** Every outcome of a registration keeps the table's invariant; the
      username uniqueness of the UNIQUE column in particular. */
  lemma RegisterKeepsValid(s: StoreState, data: RegisterData, hasher: Hasher, salt: nat, createdAt: int, fault: Fault)
    requires ValidStore(s)
    ensures ValidStore(Register(s, data, hasher, salt, createdAt, fault).1)
  {
    var s' := Register(s, data, hasher, salt, createdAt, fault).1;
    if s' != s {
      forall u, v | u in s'.users && v in s'.users && s'.users[u].id == s'.users[v].id
        ensures u == v
      {
        if u != data.username && v != data.username {
          assert s'.users[u] == s.users[u] && s'.users[v] == s.users[v];
        }
      }
    }
  }

  /** Registration fails only with one of the two messages, and succeeds
      exactly when the name was free and nothing threw. Every throw reports
      "registration failed"; the table changes exactly when the insert ran,
      so a throw while closing reports failure although the row was added. */
  lemma RegisterOutcomes(s: StoreState, data: RegisterData, hasher: Hasher, salt: nat, createdAt: int, fault: Fault)
    requires ValidStore(s)
    ensures var (result, s') := Register(s, data, hasher, salt, createdAt, fault);
      && (result.success <==> fault == NoFault && data.username !in s.users)
      && (result.success <==> result.error.None?)
      && (!result.success ==> result.error.value in {ErrUserExists, ErrRegisterFailed})
      && (fault == LookupFails || (data.username !in s.users && fault != NoFault)
          ==> result == RegisterResult(false, Some(ErrRegisterFailed)))
      && (s' != s <==> data.username !in s.users && (fault == NoFault || fault == CloseFails))
      && (data.username !in s.users && fault == CloseFails ==> !result.success && data.username in s'.users)
  {
  }

  datatype LoginResult = LoginResult(success: bool, user: Option<PublicUser>, token: Option<string>, error: Option<string>)

  /** `loginUser` at time `now` (seconds): "no such user", "wrong password",
      or the user without password and a token over `{ id, username }` valid
      for seven days; a throw gives "login failed". */
  function LoginUser(s: StoreState, data: LoginData, hasher: Hasher, signer: Signer, now: int, fails: bool)
    : (r: LoginResult)
    requires ValidStore(s)
    ensures r.success <==> r.token.Some?
    ensures r.success <==> r.user.Some?
    ensures r.success <==> r.error.None?
    ensures r.success ==> !fails && data.username in s.users
                          && hasher.compare(data.password, s.users[data.username].password)
    ensures !fails && data.username !in s.users ==> r == LoginResult(false, None, None, Some(ErrNoSuchUser))
    ensures !fails && data.username in s.users && !hasher.compare(data.password, s.users[data.username].password)
            ==> r == LoginResult(false, None, None, Some(ErrWrongPassword))
    ensures fails ==> r == LoginResult(false, None, None, Some(ErrLoginFailed))
    ensures r.success ==>
      var row := s.users[data.username];
      && r.user == Some(PublicUser(row.id, data.username, row.createdAt))
      && r.token == Some(signer.sign(TokenClaims(row.id, data.username), now, TokenLifetime))
  {
    if fails then LoginResult(false, None, None, Some(ErrLoginFailed))
    else match FindUserByUsername(s, data.username)
      case None => LoginResult(false, None, None, Some(ErrNoSuchUser))
      case Some(user) =>
        if !hasher.compare(data.password, user.password) then
          LoginResult(false, None, None, Some(ErrWrongPassword))
        else
          var token := signer.sign(TokenClaims(user.id, user.username), now, TokenLifetime);
          LoginResult(true, Some(ToPublic(user)), Some(token), None)
  }

  /** `verifyToken` at time `now`: nothing for a token that does not verify;
      otherwise the row with the token's id, re-read from the table and
      without password, or nothing when there is no such row or the read
      throws. */
  function VerifyToken(s: StoreState, token: string, signer: Signer, now: int, fails: bool): (r: Option<PublicUser>)
    requires ValidStore(s)
    ensures signer.verify(token, now).None? || fails ==> r.None?
    ensures r.Some? ==> r.value.username in s.users && ToPublic(s.users[r.value.username]) == r.value
                        && r.value.id == signer.verify(token, now).value.id
    ensures forall u :: signer.verify(token, now).Some? && !fails && u in s.users
                        && s.users[u].id == signer.verify(token, now).value.id
                        ==> r == Some(ToPublic(s.users[u]))
  {
    match signer.verify(token, now)
    case None => None
    case Some(claims) =>
      if fails then None
      else match FindById(s, claims.id)
        case None => None
        case Some(row) => Some(ToPublic(row))
  }

  /** Registering the same username twice: the second attempt fails with
      "user exists", whatever its password. */
  lemma {:induction false} RegisterTwiceFails(s: StoreState, first: RegisterData, second: RegisterData, hasher: Hasher,
                                              salt1: nat, salt2: nat, t1: int, t2: int, fault: Fault)
    requires ValidStore(s) && first.username == second.username && fault != LookupFails
    requires Register(s, first, hasher, salt1, t1, NoFault).0.success
    ensures var s' := Register(s, first, hasher, salt1, t1, NoFault).1;
      Register(s', second, hasher, salt2, t2, fault).0 == RegisterResult(false, Some(ErrUserExists))
  {
    RegisterKeepsValid(s, first, hasher, salt1, t1, NoFault);
    var s' := Register(s, first, hasher, salt1, t1, NoFault).1;
    assert first.username in s'.users;
    RegisterDuplicateFails(s', second, hasher, salt2, t2, fault);
  }

  /** After a registration, logging in with the same password succeeds. A
      password that differs in the bytes bcrypt reads fails with "wrong
      password" and no token; one that agrees with it on the first 72 bytes
      logs in as well. */
  lemma {:induction false} RegisterThenLogin(s: StoreState, reg: RegisterData, hasher: Hasher, signer: Signer,
                                             salt: nat, createdAt: int, password: string, now: int)
    requires ValidStore(s) && reg.username !in s.users
    requires HasherSound(hasher) && HasherBinding(hasher) && HasherTruncates(hasher)
    ensures var s' := Register(s, reg, hasher, salt, createdAt, NoFault).1;
      ValidStore(s') &&
      var r := LoginUser(s', LoginData(reg.username, password), hasher, signer, now, false);
      && (password == reg.password ==> r.success && r.user == Some(PublicUser(s.nextId, reg.username, createdAt)))
      && (BcryptKey(password) == BcryptKey(reg.password) ==> r.success)
      && (BcryptKey(password) != BcryptKey(reg.password) ==> r == LoginResult(false, None, None, Some(ErrWrongPassword)))
  {
    RegisterKeepsValid(s, reg, hasher, salt, createdAt, NoFault);
    var s' := Register(s, reg, hasher, salt, createdAt, NoFault).1;
    assert s'.users[reg.username].password == hasher.hash(reg.password, salt);
    if BcryptKey(password) != BcryptKey(reg.password) {
      assert !hasher.compare(password, hasher.hash(reg.password, salt));
    } else {
      assert hasher.compare(password, hasher.hash(reg.password, salt));
    }
  }

  /** bcrypt's truncation lets a different password in: after registering a
      password of at least 72 characters, any other text with the same first
      72 characters logs in too. */
  lemma {:induction false} LongPasswordVariantLogsIn(s: StoreState, username: string, prefix: string, suffix: string,
                                                     other: string, hasher: Hasher, signer: Signer, salt: nat,
                                                     createdAt: int, now: int)
    requires ValidStore(s) && username !in s.users && |prefix| >= BcryptMaxBytes
    requires HasherSound(hasher) && HasherBinding(hasher) && HasherTruncates(hasher)
    ensures var reg := RegisterData(username, prefix + suffix, prefix + suffix);
      var s' := Register(s, reg, hasher, salt, createdAt, NoFault).1;
      ValidStore(s') && LoginUser(s', LoginData(username, prefix + other), hasher, signer, now, false).success
  {
    var reg := RegisterData(username, prefix + suffix, prefix + suffix);
    SharedPrefixSameKey(prefix, other, suffix);
    RegisterThenLogin(s, reg, hasher, signer, salt, createdAt, prefix + other, now);
  }

  /** A token from a successful login verifies, until it expires, to the user
      that logged in (re-read from the table), and to nothing afterwards. */
  lemma {:induction false} LoginTokenVerifies(s: StoreState, data: LoginData, hasher: Hasher, signer: Signer,
                                              issuedAt: int, now: int)
    requires ValidStore(s) && SignerSound(signer) && SignerExpires(signer)
    requires LoginUser(s, data, hasher, signer, issuedAt, false).success
    ensures var r := LoginUser(s, data, hasher, signer, issuedAt, false);
      && (issuedAt <= now < issuedAt + TokenLifetime ==> VerifyToken(s, r.token.value, signer, now, false) == r.user)
      && (issuedAt + TokenLifetime <= now ==> VerifyToken(s, r.token.value, signer, now, false).None?)
  {
    var row := s.users[data.username];
    var claims := TokenClaims(row.id, row.username);
    var token := signer.sign(claims, issuedAt, TokenLifetime);
    if issuedAt <= now < issuedAt + TokenLifetime {
      assert signer.verify(token, now) == Some(claims);
      assert FindById(s, row.id) == Some(row);
    } else if issuedAt + TokenLifetime <= now {
      assert signer.verify(token, now) == None;
    }
  }

  /** The credential store, updated in place by registrations. */
  class UserStore {
    var users: map<string, UserRecord>
    var nextId: nat

    function State(): StoreState
      reads this
    {
      StoreState(users, nextId)
    }

    constructor ()
      ensures State() == EmptyStore && ValidStore(State())
    {
      users, nextId := map[], 1;
    }

    /** `registerUser`: look the name up, hash the password, insert the row. */
    method RegisterUser(data: RegisterData, hasher: Hasher, salt: nat, createdAt: int, fault: Fault)
      returns (result: RegisterResult)
      requires ValidStore(State())
      modifies this
      ensures ValidStore(State())
      ensures (result, State()) == Register(old(State()), data, hasher, salt, createdAt, fault)
    {
      RegisterKeepsValid(State(), data, hasher, salt, createdAt, fault);
      if fault == LookupFails {
        return RegisterResult(false, Some(ErrRegisterFailed));
      }
      var existingUser := FindUserByUsername(State(), data.username);
      if existingUser.Some? {
        return RegisterResult(false, Some(ErrUserExists));
      }
      if fault == HashFails {
        return RegisterResult(false, Some(ErrRegisterFailed));
      }
      var hashedPassword := hasher.hash(data.password, salt);
      if fault == InsertFails {
        return RegisterResult(false, Some(ErrRegisterFailed));
      }
      users := users[data.username := UserRecord(nextId, data.username, hashedPassword, createdAt)];
      nextId := nextId + 1;
      if fault == CloseFails {
        return RegisterResult(false, Some(ErrRegisterFailed));
      }
      result := RegisterResult(true, None);
    }
  }
}
