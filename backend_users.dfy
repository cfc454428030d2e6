/** The user routes (backend/src/routes/users.js): the user list for elevated
    callers and the engineer list with each engineer's open workload. Both
    read the user collection (and, for workload, the issue collection) and
    change nothing; the password hash never leaves. */
module UserRoutes {
  import opened Common
  import opened Domain
  import opened BackendModels
  import opened AuthRoutes

  function ViewAll(us: seq<User>): (r: seq<UserView>)
    ensures |r| == |us|
    ensures forall k :: 0 <= k < |us| ==> r[k] == ViewOf(us[k])
  {
    seq(|us|, k requires 0 <= k < |us| => ViewOf(us[k]))
  }

  function HasRoleName(name: string): User -> bool {
    (u: User) => RoleName(u.role) == name
  }

  /** `GET /users`: 403 unless elevated; otherwise every user, or only those
      whose role is spelled as the non-empty `role` parameter, without hashes. */
  function ListUsers(users: seq<User>, actor: Payload, roleQuery: string): (r: Response<seq<UserView>>)
    ensures !IsElevated(actor.role) ==> r == Fail(403, "Forbidden")
    ensures IsElevated(actor.role) ==> r.Ok?
    ensures r.Ok? && roleQuery == "" ==> r.value == ViewAll(users)
    ensures r.Ok? && roleQuery != "" ==> r.value == ViewAll(Filter(users, HasRoleName(roleQuery)))
    ensures r.Ok? ==> forall v :: v in r.value <==>
      exists u :: u in users && v == ViewOf(u) && (roleQuery == "" || RoleName(u.role) == roleQuery)
  {
    if !IsElevated(actor.role) then Fail(403, "Forbidden")
    else
      var chosen := if roleQuery == "" then users else Filter(users, HasRoleName(roleQuery));
      var r := ViewAll(chosen);
      assert forall v :: v in r <==> exists u :: u in chosen && v == ViewOf(u) by {
        forall v | v in r ensures exists u :: u in chosen && v == ViewOf(u) {
          var k :| 0 <= k < |r| && r[k] == v;
          assert chosen[k] in chosen;
        }
        forall v | exists u :: u in chosen && v == ViewOf(u) ensures v in r {
          var u :| u in chosen && v == ViewOf(u);
          var k :| 0 <= k < |chosen| && chosen[k] == u;
          assert r[k] == v;
        }
      }
      Ok(r)
  }

  /** An issue that counts toward an engineer's workload: assigned to them
      and still open or in progress (on-hold does not count). */
  predicate InWorkload(engineer: UserId, i: Issue) {
    i.assignedTo == Some(engineer) && (i.status == Open || i.status == InProgress)
  }

  function WorkloadOf(engineer: UserId): Issue -> bool {
    (i: Issue) => InWorkload(engineer, i)
  }

  function AssignedOpen(engineer: UserId): Issue -> bool {
    (i: Issue) => i.assignedTo == Some(engineer) && i.status == Open
  }

  function AssignedInProgress(engineer: UserId): Issue -> bool {
    (i: Issue) => i.assignedTo == Some(engineer) && i.status == InProgress
  }

  datatype EngineerLoad = EngineerLoad(user: UserView, workload: nat)

  function IsEngineer(u: User): bool { u.role == Engineer }

  /** `GET /users/engineers`: every engineer, in collection order, with the
      number of issues in their workload. */
  function Engineers(users: seq<User>, issues: seq<Issue>): (r: seq<EngineerLoad>)
    ensures |r| == Count(users, IsEngineer)
    ensures forall k :: 0 <= k < |r| ==>
      r[k].user.role == Engineer && r[k].workload == Count(issues, WorkloadOf(r[k].user.id))
    ensures forall k :: 0 <= k < |r| ==> r[k].workload <= |issues|
    ensures forall k :: 0 <= k < |r| ==> r[k].user == ViewOf(Filter(users, IsEngineer)[k])
  {
    var engineers := Filter(users, IsEngineer);
    seq(|engineers|, k requires 0 <= k < |engineers| =>
      EngineerLoad(ViewOf(engineers[k]), Count(issues, WorkloadOf(engineers[k].id))))
  }

  /** An engineer's workload is their open issues plus their in-progress ones. */
  lemma WorkloadSplits(engineer: UserId, issues: seq<Issue>)
    ensures Count(issues, WorkloadOf(engineer))
         == Count(issues, AssignedOpen(engineer)) + Count(issues, AssignedInProgress(engineer))
  {
    CountDisjointUnion(issues, WorkloadOf(engineer), AssignedOpen(engineer), AssignedInProgress(engineer));
  }

  /** Putting an engineer's issue on hold, resolving or closing it takes it
      out of their workload: the count over the changed collection drops by one. */
  lemma {:induction false} LeavingWorkloadLowersCount(engineer: UserId, issues: seq<Issue>, k: nat, i: Issue)
    requires k < |issues|
    requires InWorkload(engineer, issues[k]) && !InWorkload(engineer, i)
    ensures Count(issues[k := i], WorkloadOf(engineer)) == Count(issues, WorkloadOf(engineer)) - 1
    decreases |issues|
  {
    if k > 0 {
      assert issues[k := i][1..] == issues[1..][k - 1 := i];
      LeavingWorkloadLowersCount(engineer, issues[1..], k - 1, i);
    } else {
      assert issues[k := i][1..] == issues[1..];
    }
  }
}
