/** The API front end's session holder (front/src/context/AuthContext.jsx):
    the signed-in user, the three browser-storage keys that survive a reload,
    and the role flags derived from the user's role. The API's replies are
    parameters; the stored user record is its JSON text, given by `encode`. */
module FrontAuth {
  import opened Common

  datatype FrontUser = FrontUser(id: string, name: string, email: string, role: string)

  datatype Flags = Flags(isRanger: bool, isEngineer: bool, isAdmin: bool, isSuperAdmin: bool)

  /** `user?.role === …` for each role; the top role is spelled `super_admin`. */
  function FlagsOf(user: Option<FrontUser>): (f: Flags)
    ensures user.None? ==> f == Flags(false, false, false, false)
    ensures f.isRanger <==> user.Some? && user.value.role == "ranger"
    ensures f.isEngineer <==> user.Some? && user.value.role == "engineer"
    ensures f.isAdmin <==> user.Some? && user.value.role == "admin"
    ensures f.isSuperAdmin <==> user.Some? && user.value.role == "super_admin"
  {
    match user
    case None => Flags(false, false, false, false)
    case Some(u) => Flags(u.role == "ranger", u.role == "engineer", u.role == "admin", u.role == "super_admin")
  }

  /** The number of flags that hold. */
  function Raised(f: Flags): nat {
    (if f.isRanger then 1 else 0) + (if f.isEngineer then 1 else 0)
    + (if f.isAdmin then 1 else 0) + (if f.isSuperAdmin then 1 else 0)
  }

  /** At most one flag holds; none without a user, and none for a role
      spelled any other way. */
  lemma AtMostOneFlag(user: Option<FrontUser>)
    ensures Raised(FlagsOf(user)) <= 1
    ensures Raised(FlagsOf(user)) == 1 <==>
      user.Some? && user.value.role in ["ranger", "engineer", "admin", "super_admin"]
  {
  }

  const AccessKey := "accessToken"
  const RefreshKey := "refreshToken"
  const UserKey := "powerRangerUser"

  /** What `authAPI.login` or `authAPI.register` answered: the tokens and the
      user, or a failure with the server's message if it sent one. */
  datatype AuthReply = Granted(accessToken: string, refreshToken: string, user: FrontUser)
                     | Refused(message: Option<string>)

  /** What `authAPI.getMe` answered at start-up. */
  datatype MeReply = Me(user: Option<FrontUser>) | MeRejected

  datatype Outcome = Outcome(success: bool, error: Option<string>)

  /** `error.response?.data?.message || fallback`: an absent or empty message
      gives the fallback. */
  function ErrorText(message: Option<string>, fallback: string): (r: string)
    ensures message.Some? && message.value != "" ==> r == message.value
    ensures message.None? || message.value == "" ==> r == fallback
  {
    if message.Some? && message.value != "" then message.value else fallback
  }

  /** `if (token)`: a stored access token that is not the empty string. */
  predicate HasToken(storage: map<string, string>) {
    AccessKey in storage && storage[AccessKey] != ""
  }

  /** The storage after a successful login or registration. */
  function Stored(storage: map<string, string>, access: string, refresh: string, userJson: string): (r: map<string, string>)
    ensures r.Keys == storage.Keys + {AccessKey, RefreshKey, UserKey}
    ensures r[AccessKey] == access && r[RefreshKey] == refresh && r[UserKey] == userJson
    ensures forall k :: k in storage && k !in {AccessKey, RefreshKey, UserKey} ==> r[k] == storage[k]
  {
    storage[AccessKey := access][RefreshKey := refresh][UserKey := userJson]
  }

  /** The storage after logout, or after a stored token is rejected. */
  function Cleared(storage: map<string, string>): (r: map<string, string>)
    ensures AccessKey !in r && RefreshKey !in r && UserKey !in r
    ensures forall k :: k in storage && k !in {AccessKey, RefreshKey, UserKey} ==> k in r && r[k] == storage[k]
    ensures r.Keys <= storage.Keys
  {
    storage - {AccessKey, RefreshKey, UserKey}
  }

  class AuthSession {
    var user: Option<FrontUser>
    var loading: bool
    /** The browser's local storage. */
    var storage: map<string, string>

    /** A signed-in user always has an access token stored. */
    ghost predicate Valid()
      reads this
    {
      user.Some? ==> AccessKey in storage
    }

    constructor (storage: map<string, string>)
      ensures Valid() && user.None? && loading && this.storage == storage
    {
      user := None;
      loading := true;
      this.storage := storage;
    }

    /** `checkAuth`: with a stored access token, the server's answer decides:
        the user it returns is taken, a rejection clears all three keys.
        Without a token, or with an empty one, nothing is asked. Loading ends
        either way. It runs once, on mount, before anyone has signed in. */
    method CheckAuth(me: MeReply)
      requires user.None?
      modifies this
      ensures Valid() && !loading
      ensures !HasToken(old(storage)) ==> user.None? && storage == old(storage)
      ensures HasToken(old(storage)) && me.Me? ==> user == me.user && storage == old(storage)
      ensures HasToken(old(storage)) && me.MeRejected? ==> user.None? && storage == Cleared(old(storage))
    {
      if HasToken(storage) {
        match me
        case Me(u) =>
          user := u;
        case MeRejected =>
          storage := Cleared(storage);
      }
      loading := false;
    }

    /** The shared body of `login` and `register`. */
    method Authenticate(reply: AuthReply, encode: FrontUser -> string, fallback: string) returns (r: Outcome)
      requires Valid()
      modifies this
      ensures Valid() && loading == old(loading)
      ensures r.success <==> reply.Granted?
      ensures reply.Granted? ==>
        && user == Some(reply.user)
        && storage == Stored(old(storage), reply.accessToken, reply.refreshToken, encode(reply.user))
        && r.error.None?
      ensures reply.Refused? ==>
        && user == old(user) && storage == old(storage)
        && r.error == Some(ErrorText(reply.message, fallback))
    {
      match reply
      case Granted(access, refresh, u) =>
        storage := Stored(storage, access, refresh, encode(u));
        user := Some(u);
        r := Outcome(true, None);
      case Refused(message) =>
        r := Outcome(false, Some(ErrorText(message, fallback)));
    }

    /** `login`: on success both tokens and the user are stored and the user
        is signed in; on failure nothing changes and the message is returned,
        "Login failed" when the server gave none. */
    method Login(reply: AuthReply, encode: FrontUser -> string) returns (r: Outcome)
      requires Valid()
      modifies this
      ensures Valid() && loading == old(loading)
      ensures r.success <==> reply.Granted?
      ensures reply.Granted? ==>
        && user == Some(reply.user)
        && storage == Stored(old(storage), reply.accessToken, reply.refreshToken, encode(reply.user))
      ensures reply.Refused? ==>
        && user == old(user) && storage == old(storage)
        && r.error == Some(ErrorText(reply.message, "Login failed"))
    {
      r := Authenticate(reply, encode, "Login failed");
    }

    /** `register`: the same contract, with "Registration failed". */
    method Register(reply: AuthReply, encode: FrontUser -> string) returns (r: Outcome)
      requires Valid()
      modifies this
      ensures Valid() && loading == old(loading)
      ensures r.success <==> reply.Granted?
      ensures reply.Granted? ==>
        && user == Some(reply.user)
        && storage == Stored(old(storage), reply.accessToken, reply.refreshToken, encode(reply.user))
      ensures reply.Refused? ==>
        && user == old(user) && storage == old(storage)
        && r.error == Some(ErrorText(reply.message, "Registration failed"))
    {
      r := Authenticate(reply, encode, "Registration failed");
    }

    /** `logout`: signed out and all three keys gone. */
    method Logout()
      modifies this
      ensures Valid() && user.None? && loading == old(loading)
      ensures storage == Cleared(old(storage))
    {
      user := None;
      storage := Cleared(storage);
    }
  }
}
