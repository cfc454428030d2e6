/** The enumerations the whole tracker shares: issue status, issue priority and
    the four user roles, each with its wire spelling and a parser for it. */
module Domain {
  import opened Common

  /** Issue status: a flat enumeration, any value may follow any other. */
  datatype Status = Open | InProgress | OnHold | Resolved | Closed

  datatype Priority = Critical | High | Medium | Low

  /** User roles as the API spells them (`super_admin` with an underscore). */
  datatype Role = Ranger | Engineer | Admin | SuperAdmin

  function StatusName(s: Status): string {
    match s
    case Open => "open"
    case InProgress => "in-progress"
    case OnHold => "on-hold"
    case Resolved => "resolved"
    case Closed => "closed"
  }

  /** Accepts exactly the five status spellings. */
  function ParseStatus(name: string): (r: Option<Status>)
    ensures r.Some? ==> StatusName(r.value) == name
    ensures r.None? <==> forall s: Status :: StatusName(s) != name
  {
    if name == "open" then Some(Open)
    else if name == "in-progress" then Some(InProgress)
    else if name == "on-hold" then Some(OnHold)
    else if name == "resolved" then Some(Resolved)
    else if name == "closed" then Some(Closed)
    else None
  }

  lemma StatusRoundTrip(s: Status)
    ensures ParseStatus(StatusName(s)) == Some(s)
  {
  }

  function PriorityName(p: Priority): string {
    match p
    case Critical => "critical"
    case High => "high"
    case Medium => "medium"
    case Low => "low"
  }

  /** Accepts exactly the four priority spellings. */
  function ParsePriority(name: string): (r: Option<Priority>)
    ensures r.Some? ==> PriorityName(r.value) == name
    ensures r.None? <==> forall p: Priority :: PriorityName(p) != name
  {
    if name == "critical" then Some(Critical)
    else if name == "high" then Some(High)
    else if name == "medium" then Some(Medium)
    else if name == "low" then Some(Low)
    else None
  }

  lemma PriorityRoundTrip(p: Priority)
    ensures ParsePriority(PriorityName(p)) == Some(p)
  {
  }

  function RoleName(r: Role): string {
    match r
    case Ranger => "ranger"
    case Engineer => "engineer"
    case Admin => "admin"
    case SuperAdmin => "super_admin"
  }

  /** Accepts exactly the four role spellings of the API. */
  function ParseRole(name: string): (r: Option<Role>)
    ensures r.Some? ==> RoleName(r.value) == name
    ensures r.None? <==> forall q: Role :: RoleName(q) != name
  {
    if name == "ranger" then Some(Ranger)
    else if name == "engineer" then Some(Engineer)
    else if name == "admin" then Some(Admin)
    else if name == "super_admin" then Some(SuperAdmin)
    else None
  }

  lemma RoleRoundTrip(r: Role)
    ensures ParseRole(RoleName(r)) == Some(r)
  {
  }

  /** The "elevated" roles that override ownership checks. */
  predicate IsElevated(r: Role) {
    r == Admin || r == SuperAdmin
  }

  /** The roles allowed to change an issue's status. */
  predicate CanChangeStatus(r: Role) {
    r == Engineer || IsElevated(r)
  }

  /** "resolved or closed", the test every dashboard uses for a finished issue. */
  predicate IsDone(s: Status) {
    s == Resolved || s == Closed
  }
}
