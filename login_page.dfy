/** The prototype's sign-in page (src/pages/Login.jsx): a fixed table of
    demonstration accounts per role, a lookup of the typed e-mail and
    password in the chosen role's table, and one-click sign-in. The session
    it writes is the prototype's (src/context/AuthContext.jsx): the user in
    memory and a stored copy. */
module LoginPage {
  import opened Common

  datatype DemoUser = DemoUser(email: string, password: string, name: string, role: string)

  const DemoUsers: map<string, seq<DemoUser>> := map[
    "ranger" := [
      DemoUser("jason@rangers.com", "ranger123", "Jason Red Ranger", "ranger"),
      DemoUser("kimberly@rangers.com", "ranger123", "Kimberly Pink Ranger", "ranger")],
    "engineer" := [
      DemoUser("sarah@engineers.com", "engineer123", "Engineer Sarah", "engineer"),
      DemoUser("tom@engineers.com", "engineer123", "Engineer Tom", "engineer")],
    "admin" := [
      DemoUser("admin@command.com", "admin123", "Commander Alpha", "admin")],
    "superadmin" := [
      DemoUser("zordon@command.com", "zordon123", "Zordon", "superadmin")]
  ]

  /** `demoUsers[role] || []`. */
  function UsersFor(role: string): (r: seq<DemoUser>)
    ensures role !in DemoUsers ==> r == []
    ensures role in DemoUsers ==> r == DemoUsers[role]
  {
    if role in DemoUsers then DemoUsers[role] else []
  }

  /** Every demonstration account sits under its own role. */
  lemma DemoAccountsUnderTheirRole(role: string, u: DemoUser)
    requires u in UsersFor(role)
    ensures u.role == role
  {
  }

  /** Only the prototype's spelling `superadmin` has accounts; the API's
      `super_admin` has none. */
  lemma SuperAdminSpelling()
    ensures |UsersFor("superadmin")| == 1
    ensures UsersFor("super_admin") == []
  {
    assert "super_admin" != "superadmin" && "super_admin" != "ranger";
    assert "super_admin" != "engineer" && "super_admin" != "admin";
  }

  function Matches(email: string, password: string): DemoUser -> bool {
    (u: DemoUser) => u.email == email && u.password == password
  }

  /** `userList.find(u => u.email === email && u.password === password)`. */
  function FindUser(users: seq<DemoUser>, email: string, password: string): (r: Option<DemoUser>)
    ensures r.Some? ==> r.value in users && r.value.email == email && r.value.password == password
    ensures r.None? <==> forall u :: u in users ==> !(u.email == email && u.password == password)
    ensures r.Some? ==> exists k :: (0 <= k < |users| && users[k] == r.value
              && forall j :: 0 <= j < k ==> !(users[j].email == email && users[j].password == password))
  {
    match FindIndex(users, Matches(email, password))
    case None =>
      assert forall u :: u in users ==> !Matches(email, password)(u);
      None
    case Some(k) => Some(users[k])
  }

  datatype LoginForm = LoginForm(email: string, password: string, role: string)

  const NoRole := "Please select a role"
  const BadCredentials := "Invalid credentials"

  /** The prototype's session: the signed-in user and its stored copy. */
  class ProtoSession {
    var user: Option<DemoUser>
    var stored: Option<DemoUser>

    constructor ()
      ensures user.None? && stored.None?
    {
      user := None;
      stored := None;
    }

    /** `login`: sets the user and stores it. */
    method Login(u: DemoUser)
      modifies this
      ensures user == Some(u) && stored == Some(u)
    {
      user := Some(u);
      stored := Some(u);
    }
  }

  class SignInPage {
    var form: LoginForm
    var navigatedTo: Option<string>
    var shownError: Option<string>

    constructor ()
      ensures form == LoginForm("", "", "") && navigatedTo.None? && shownError.None?
    {
      form := LoginForm("", "", "");
      navigatedTo := None;
      shownError := None;
    }

    /** `handleSubmit`. With no role chosen, an error and nothing else. Else
        the typed pair is looked up in that role's table: found, the account
        is signed in and the page goes to the dashboard; not found (a role
        without a table included), an error and nothing else. */
    method Submit(session: ProtoSession)
      modifies this, session
      ensures form == old(form)
      ensures form.role == "" ==>
        && shownError == Some(NoRole) && navigatedTo == old(navigatedTo)
        && session.user == old(session.user) && session.stored == old(session.stored)
      ensures form.role != "" ==>
        var found := FindUser(UsersFor(form.role), form.email, form.password);
        && (found.Some? ==>
              && session.user == found && session.stored == found
              && navigatedTo == Some("/dashboard") && shownError == old(shownError))
        && (found.None? ==>
              && shownError == Some(BadCredentials) && navigatedTo == old(navigatedTo)
              && session.user == old(session.user) && session.stored == old(session.stored))
    {
      if form.role == "" {
        shownError := Some(NoRole);
        return;
      }
      var found := FindUser(UsersFor(form.role), form.email, form.password);
      if found.Some? {
        session.Login(found.value);
        navigatedTo := Some("/dashboard");
      } else {
        shownError := Some(BadCredentials);
      }
    }

    /** `quickLogin`: signs the given account in with no check at all. */
    method QuickLogin(session: ProtoSession, u: DemoUser)
      modifies this, session
      ensures session.user == Some(u) && session.stored == Some(u)
      ensures navigatedTo == Some("/dashboard") && form == old(form) && shownError == old(shownError)
    {
      session.Login(u);
      navigatedTo := Some("/dashboard");
    }
  }

  /** A successful sign-in is always an account of the chosen role whose
      e-mail and password are exactly the ones typed. */
  lemma SignInIsExact(form: LoginForm)
    requires form.role != ""
    requires FindUser(UsersFor(form.role), form.email, form.password).Some?
    ensures var u := FindUser(UsersFor(form.role), form.email, form.password).value;
      u.email == form.email && u.password == form.password && u.role == form.role
  {
    var u := FindUser(UsersFor(form.role), form.email, form.password).value;
    DemoAccountsUnderTheirRole(form.role, u);
  }

  /** A role with no table signs nobody in. */
  lemma UnknownRoleSignsNobodyIn(form: LoginForm)
    requires form.role !in DemoUsers
    ensures FindUser(UsersFor(form.role), form.email, form.password).None?
  {
  }
}
