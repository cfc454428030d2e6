/** The account routes (backend/src/routes/auth.js): registration, login,
    token refresh and "who am I", over a directory of users whose e-mail
    addresses are unique. Password hashing and comparison are the parameters
    `hash` and `compare`; e-mail syntax is the parameter `isEmail`. */
module AuthRoutes {
  import opened Common
  import opened Domain
  import opened BackendModels
  import opened Tokens
  import IssueRoutes

  function MinLengthMsg(field: string, n: nat): string {
    IssueRoutes.Quoted(field) + " length must be at least " + NatToString(n) + " characters long"
  }

  const RoleChoices := "[ranger, engineer, admin, super_admin]"

  // ---------------------------------------------------------------------------
  // Registration body (auth.js:12-17)

  datatype RegisterBody = RegisterBody(
    name: Option<string>, email: Option<string>, password: Option<string>, role: Option<string>)

  datatype RegisterFields = RegisterFields(name: string, email: string, password: string, role: Role)

  /** The registration schema: a name of two characters or more, a valid
      e-mail, a password of six or more, and a known role if any (any of the
      four, elevated ones included). Lengths are JavaScript lengths, counted
      in UTF-16 code units. */
  predicate RegisterBodyOk(b: RegisterBody, isEmail: string -> bool) {
    b.name.Some? && Utf16Length(b.name.value) >= 2
    && b.email.Some? && b.email.value != "" && isEmail(b.email.value)
    && b.password.Some? && Utf16Length(b.password.value) >= 6
    && (b.role.None? || ParseRole(b.role.value).Some?)
  }

  function ValidateRegister(b: RegisterBody, isEmail: string -> bool): (r: Response<RegisterFields>)
    ensures r.Ok? <==> RegisterBodyOk(b, isEmail)
    ensures r.Fail? ==> r.code == 400
    ensures r.Ok? ==> r.value.name == b.name.value && r.value.email == b.email.value
                      && r.value.password == b.password.value
    ensures r.Ok? ==> r.value.role == (if b.role.None? then Ranger else ParseRole(b.role.value).value)
  {
    var name := IssueRoutes.RequiredText("name", b.name);
    if name.Fail? then Fail(400, name.message)
    else if Utf16Length(name.value) < 2 then Fail(400, MinLengthMsg("name", 2))
    else
      var email := IssueRoutes.RequiredText("email", b.email);
      if email.Fail? then Fail(400, email.message)
      else if !isEmail(email.value) then Fail(400, IssueRoutes.Quoted("email") + " must be a valid email")
      else
        var password := IssueRoutes.RequiredText("password", b.password);
        if password.Fail? then Fail(400, password.message)
        else if Utf16Length(password.value) < 6 then Fail(400, MinLengthMsg("password", 6))
        else if b.role.Some? && ParseRole(b.role.value).None? then
          Fail(400, IssueRoutes.OneOfMsg("role", RoleChoices))
        else
          Ok(RegisterFields(name.value, email.value, password.value,
                            if b.role.None? then Ranger else ParseRole(b.role.value).value))
  }

  /** Lengths are JavaScript lengths: a name made of one emoji is two UTF-16
      code units long and meets the two-character minimum. */
  lemma OneEmojiNameIsLongEnough(isEmail: string -> bool)
    requires isEmail("a@b.io")
    ensures Utf16Length("\U{1F600}") == 2 && |"\U{1F600}"| == 1
    ensures ValidateRegister(RegisterBody(Some("\U{1F600}"), Some("a@b.io"), Some("secret"), None), isEmail).Ok?
  {
    assert Utf16Length("secret") == 6;
  }

  // ---------------------------------------------------------------------------
  // Login body (auth.js:92-95)

  datatype LoginBody = LoginBody(email: Option<string>, password: Option<string>)

  /** The login schema: a valid e-mail and a non-empty password (no minimum). */
  predicate LoginBodyOk(b: LoginBody, isEmail: string -> bool) {
    b.email.Some? && b.email.value != "" && isEmail(b.email.value)
    && b.password.Some? && b.password.value != ""
  }

  // ---------------------------------------------------------------------------
  // What the routes answer with

  /** The public part of a user that login and registration return. */
  datatype UserSummary = UserSummary(id: UserId, name: string, email: string, role: Role)

  /** A user document without its password hash. */
  datatype UserView = UserView(id: UserId, name: string, email: string, role: Role,
                               createdAt: int, updatedAt: int)

  datatype Session = Session(accessToken: Token, refreshToken: Token, user: UserSummary)

  function PayloadOf(u: User): Payload { Payload(u.id, u.role, u.name) }

  function SummaryOf(u: User): UserSummary { UserSummary(u.id, u.name, u.email, u.role) }

  function ViewOf(u: User): UserView {
    UserView(u.id, u.name, u.email, u.role, u.createdAt, u.updatedAt)
  }

  /** The token pair and summary issued for a user. */
  function SessionFor(env: Env, u: User, now: int): (s: Session)
    ensures s.accessToken.secret == env.jwtSecret && s.refreshToken.secret == env.refreshSecret
    ensures s.accessToken.payload == PayloadOf(u) && s.refreshToken.payload == PayloadOf(u)
    ensures s.accessToken.expiresAt == Seconds(now) + AccessLifetime(env)
    ensures s.refreshToken.expiresAt == Seconds(now) + RefreshLifetime(env)
    ensures s.user.id == u.id && s.user.role == u.role
  {
    Session(SignAccess(env, PayloadOf(u), now), SignRefresh(env, PayloadOf(u), now), SummaryOf(u))
  }

  const InvalidCredentials := "Invalid credentials"
  const InvalidRefresh := "Invalid refresh"

  class UserDirectory {
    var users: seq<User>

    /** E-mail addresses and ids are unique. */
    ghost predicate Valid()
      reads this
    {
      forall j, k :: 0 <= j < k < |users| ==> users[j].email != users[k].email && users[j].id != users[k].id
    }

    constructor ()
      ensures Valid() && users == []
    {
      users := [];
    }

    function IndexByEmail(email: string): (r: Option<nat>)
      reads this
      ensures r.Some? ==> r.value < |users| && users[r.value].email == email
      ensures r.None? <==> forall k :: 0 <= k < |users| ==> users[k].email != email
    {
      FindIndex(users, (u: User) => u.email == email)
    }

    function IndexById(id: UserId): (r: Option<nat>)
      reads this
      ensures r.Some? ==> r.value < |users| && users[r.value].id == id
      ensures r.None? <==> forall k :: 0 <= k < |users| ==> users[k].id != id
    {
      FindIndex(users, (u: User) => u.id == id)
    }

    /** `POST /auth/register`: 400 on a bad body, 400 "Email already in use"
        for a taken address, else a new user holding the hash of the password
        and a fresh session for it. The database supplies an unused id. */
    method Register(env: Env, body: RegisterBody, isEmail: string -> bool, hash: string -> string,
                    freshId: UserId, now: int) returns (r: Response<Session>)
      requires Valid()
      requires forall k :: 0 <= k < |users| ==> users[k].id != freshId
      modifies this
      ensures Valid()
      ensures ValidateRegister(body, isEmail).Fail? ==> r.Fail? && r.code == 400 && users == old(users)
      ensures ValidateRegister(body, isEmail).Ok? && old(IndexByEmail(body.email.value)).Some? ==>
        r == Fail(400, "Email already in use") && users == old(users)
      ensures ValidateRegister(body, isEmail).Ok? && old(IndexByEmail(body.email.value)).None? ==>
        var f := ValidateRegister(body, isEmail).value;
        var u := NewUser(freshId, f.name, f.email, hash(f.password), Some(f.role), now);
        users == old(users) + [u] && r == Ok(SessionFor(env, u, now))
    {
      var v := ValidateRegister(body, isEmail);
      if v.Fail? {
        return Fail(400, v.message);
      }
      var f := v.value;
      if IndexByEmail(f.email).Some? {
        return Fail(400, "Email already in use");
      }
      var u := NewUser(freshId, f.name, f.email, hash(f.password), Some(f.role), now);
      users := users + [u];
      r := Ok(SessionFor(env, u, now));
    }

    /** `POST /auth/login`: a session exactly when some user has the address
        and the password matches its hash; an unknown address and a wrong
        password get the same 401 answer. */
    function Login(env: Env, body: LoginBody, isEmail: string -> bool, compare: (string, string) -> bool,
                   now: int): (r: Response<Session>)
      reads this
      ensures !LoginBodyOk(body, isEmail) ==> r.Fail? && r.code == 400
      ensures LoginBodyOk(body, isEmail) && r.Fail? ==> r == Fail(401, InvalidCredentials)
      ensures r.Ok? <==> LoginBodyOk(body, isEmail) && IndexByEmail(body.email.value).Some?
                         && compare(body.password.value, users[IndexByEmail(body.email.value).value].passwordHash)
      ensures r.Ok? ==> r.value == SessionFor(env, users[IndexByEmail(body.email.value).value], now)
    {
      var email := IssueRoutes.RequiredText("email", body.email);
      if email.Fail? then Fail(400, email.message)
      else if !isEmail(email.value) then Fail(400, IssueRoutes.Quoted("email") + " must be a valid email")
      else
        var password := IssueRoutes.RequiredText("password", body.password);
        if password.Fail? then Fail(400, password.message)
        else
          var k := IndexByEmail(email.value);
          if k.None? then Fail(401, InvalidCredentials)
          else if !compare(password.value, users[k.value].passwordHash) then Fail(401, InvalidCredentials)
          else Ok(SessionFor(env, users[k.value], now))
    }

    /** `POST /auth/refresh`: 400 without a token, 401 "Invalid refresh"
        unless it is an unexpired refresh token of a user who still exists;
        the new access token carries that user's current role and name. */
    function RefreshAccess(env: Env, refreshToken: Option<string>, decode: string -> Option<Token>, now: int)
      : (r: Response<Token>)
      reads this
      ensures refreshToken.None? || refreshToken.value == "" ==> r.Fail? && r.code == 400
      ensures refreshToken.Some? && refreshToken.value != "" && r.Fail? ==> r == Fail(401, InvalidRefresh)
      ensures r.Ok? <==> refreshToken.Some? && refreshToken.value != ""
                         && VerifyRefresh(env, decode(refreshToken.value), now).Some?
                         && IndexById(VerifyRefresh(env, decode(refreshToken.value), now).value.sub).Some?
      ensures r.Ok? ==>
        var sub := VerifyRefresh(env, decode(refreshToken.value), now).value.sub;
        r.value == SignAccess(env, PayloadOf(users[IndexById(sub).value]), now)
    {
      var token := IssueRoutes.RequiredText("refreshToken", refreshToken);
      if token.Fail? then Fail(400, token.message)
      else
        var payload := VerifyRefresh(env, decode(token.value), now);
        if payload.None? then Fail(401, InvalidRefresh)
        else
          var k := IndexById(payload.value.sub);
          if k.None? then Fail(401, InvalidRefresh)
          else Ok(SignAccess(env, PayloadOf(users[k.value]), now))
    }

    /** `GET /auth/me`: the caller's own document without its hash, or `null`
        (still a success) once the account is gone. */
    function Me(actor: Payload): (r: Response<Option<UserView>>)
      reads this
      ensures r.Ok?
      ensures r.value.Some? <==> IndexById(actor.sub).Some?
      ensures r.value.Some? ==> r.value.value.id == actor.sub
                                && r.value.value == ViewOf(users[IndexById(actor.sub).value])
    {
      var k := IndexById(actor.sub);
      if k.None? then Ok(None) else Ok(Some(ViewOf(users[k.value])))
    }
  }

  /** Registering and then logging in with the same address and password
      succeeds, provided `compare` accepts a password against its own hash;
      the session carries the role chosen at registration. */
  method RegisterThenLogin(env: Env, dir: UserDirectory, body: RegisterBody, isEmail: string -> bool,
                           hash: string -> string, compare: (string, string) -> bool,
                           freshId: UserId, t1: int, t2: int)
    returns (login: Response<Session>)
    requires dir.Valid()
    requires forall k :: 0 <= k < |dir.users| ==> dir.users[k].id != freshId
    requires forall p :: compare(p, hash(p))
    requires RegisterBodyOk(body, isEmail)
    requires forall k :: 0 <= k < |dir.users| ==> dir.users[k].email != body.email.value
    modifies dir
    ensures login.Ok?
    ensures login.value.user.email == body.email.value
    ensures login.value.user.role == ValidateRegister(body, isEmail).value.role
  {
    var reg := dir.Register(env, body, isEmail, hash, freshId, t1);
    var u := dir.users[|dir.users| - 1];
    assert forall k :: 0 <= k < |dir.users| - 1 ==> dir.users[k].email != u.email;
    login := dir.Login(env, LoginBody(body.email, body.password), isEmail, compare, t2);
  }
}
