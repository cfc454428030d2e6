/** The documents the API stores: issues, status-history entries, users and
    comments, with the defaults and required fields their schemas declare.
    Identifiers of users are strings (the `sub` of a token); identifiers of
    issues, entries and comments are allocated naturals. */
module BackendModels {
  import opened Common
  import opened Domain

  type UserId = string
  type IssueId = nat

  /** An issue document; `createdAt`/`updatedAt` are the automatic timestamps. */
  datatype Issue = Issue(
    id: IssueId,
    title: string,
    description: string,
    category: string,
    priority: Priority,
    status: Status,
    facility: Option<string>,
    createdBy: UserId,
    assignedTo: Option<UserId>,
    slaDeadline: Option<int>,
    resolvedAt: Option<int>,
    closedAt: Option<int>,
    createdAt: int,
    updatedAt: int)

  /** The required fields of an issue hold a non-empty value. */
  predicate IssueRequiredPresent(i: Issue) {
    i.title != "" && i.description != "" && i.category != "" && i.createdBy != ""
  }

  /** A status-history entry: it has a creation time and no update time. */
  datatype HistoryEntry = HistoryEntry(
    id: nat,
    issueId: IssueId,
    status: Status,
    changedBy: UserId,
    createdAt: int)

  datatype User = User(
    id: UserId,
    name: string,
    email: string,
    passwordHash: string,
    role: Role,
    createdAt: int,
    updatedAt: int)

  predicate UserRequiredPresent(u: User) {
    u.name != "" && u.email != "" && u.passwordHash != ""
  }

  datatype Comment = Comment(
    id: nat,
    issueId: IssueId,
    authorId: UserId,
    body: string,
    createdAt: int,
    updatedAt: int)

  /** What a verified access token carries: `{ sub, role, name }`. */
  datatype Payload = Payload(sub: UserId, role: Role, name: string)

  /** An HTTP outcome: a 2xx body, or a status code and its message. */
  datatype Response<T> = Ok(value: T) | Fail(code: nat, message: string)

  /** A freshly saved issue: the schema's defaults fill what the caller left out. */
  function NewIssue(
    id: IssueId, title: string, description: string, category: string,
    priority: Option<Priority>, facility: Option<string>, createdBy: UserId,
    slaDeadline: Option<int>, now: int): (r: Issue)
    ensures r.id == id && r.createdBy == createdBy
    ensures r.title == title && r.description == description && r.category == category
    ensures r.facility == facility && r.slaDeadline == slaDeadline
    ensures r.status == Open
    ensures r.priority == (if priority.Some? then priority.value else Medium)
    ensures r.assignedTo.None? && r.resolvedAt.None? && r.closedAt.None?
    ensures r.createdAt == now && r.updatedAt == now
  {
    Issue(id, title, description, category, priority.GetOr(Medium), Open, facility,
          createdBy, None, slaDeadline, None, None, now, now)
  }

  /** A freshly saved user: the role defaults to ranger. */
  function NewUser(id: UserId, name: string, email: string, passwordHash: string,
                   role: Option<Role>, now: int): (r: User)
    ensures r.id == id && r.name == name && r.email == email && r.passwordHash == passwordHash
    ensures r.role == (if role.Some? then role.value else Ranger)
    ensures r.createdAt == now && r.updatedAt == now
  {
    User(id, name, email, passwordHash, role.GetOr(Ranger), now, now)
  }
}
