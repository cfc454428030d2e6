/** The issue routes of the API (backend/src/routes/issues.js): request-body
    validation, the issue collection and its append-only status-history ledger,
    and one method per route. Every route runs behind the authentication
    middleware, so each method receives the verified token payload `actor`;
    the current time is the parameter `now`. */
module IssueRoutes {
  import opened Common
  import opened Domain
  import opened BackendModels

  // ---------------------------------------------------------------------------
  // Validation messages, worded as the schema library words them

  function Quoted(field: string): string { "\"" + field + "\"" }
  function RequiredMsg(field: string): string { Quoted(field) + " is required" }
  function EmptyMsg(field: string): string { Quoted(field) + " is not allowed to be empty" }
  function OneOfMsg(field: string, choices: string): string { Quoted(field) + " must be one of " + choices }
  const PriorityChoices := "[critical, high, medium, low]"
  const StatusChoices := "[open, in-progress, on-hold, resolved, closed]"

  /** A required string field: it must be present and non-empty. */
  function RequiredText(field: string, v: Option<string>): (r: Response<string>)
    ensures r.Ok? <==> v.Some? && v.value != ""
    ensures r.Ok? ==> r.value == v.value
    ensures r.Fail? ==> r.code == 400
    ensures v.None? ==> r == Fail(400, RequiredMsg(field))
  {
    if v.None? then Fail(400, RequiredMsg(field))
    else if v.value == "" then Fail(400, EmptyMsg(field))
    else Ok(v.value)
  }

  /** An optional string field: absent is fine, the empty string is not. */
  predicate OptionalTextOk(v: Option<string>) {
    v.None? || v.value != ""
  }

  /** An optional priority field: absent, or one of the four spellings. */
  predicate OptionalPriorityOk(v: Option<string>) {
    v.None? || ParsePriority(v.value).Some?
  }

  function ParsedPriority(v: Option<string>): Option<Priority>
    requires OptionalPriorityOk(v)
  {
    if v.None? then None else ParsePriority(v.value)
  }

  // ---------------------------------------------------------------------------
  // Create (issues.js:12-19, 41-99)

  /** The body of `POST /issues`; a missing key is `None`. */
  datatype CreateBody = CreateBody(
    title: Option<string>, description: Option<string>, category: Option<string>,
    priority: Option<string>, facility: Option<string>, slaDeadline: Option<int>)

  /** A create body after validation, with the priority defaulted. */
  datatype CreateFields = CreateFields(
    title: string, description: string, category: string, priority: Priority,
    facility: Option<string>, slaDeadline: Option<int>)

  /** The create schema: three non-empty required strings, a known priority if
      any; the facility may be empty. */
  predicate CreateBodyOk(b: CreateBody) {
    b.title.Some? && b.title.value != ""
    && b.description.Some? && b.description.value != ""
    && b.category.Some? && b.category.value != ""
    && OptionalPriorityOk(b.priority)
  }

  function ValidateCreate(b: CreateBody): (r: Response<CreateFields>)
    ensures r.Ok? <==> CreateBodyOk(b)
    ensures r.Fail? ==> r.code == 400
    ensures b.title.None? ==> r == Fail(400, RequiredMsg("title"))
    ensures r.Ok? ==> r.value.title == b.title.value && r.value.description == b.description.value
                      && r.value.category == b.category.value
                      && r.value.facility == b.facility && r.value.slaDeadline == b.slaDeadline
    ensures r.Ok? ==> r.value.priority == (if b.priority.None? then Medium else ParsePriority(b.priority.value).value)
  {
    var title := RequiredText("title", b.title);
    if title.Fail? then Fail(400, title.message)
    else
      var description := RequiredText("description", b.description);
      if description.Fail? then Fail(400, description.message)
      else
        var category := RequiredText("category", b.category);
        if category.Fail? then Fail(400, category.message)
        else if !OptionalPriorityOk(b.priority) then Fail(400, OneOfMsg("priority", PriorityChoices))
        else
          Ok(CreateFields(title.value, description.value, category.value,
                          ParsedPriority(b.priority).GetOr(Medium), b.facility, b.slaDeadline))
  }

  // ---------------------------------------------------------------------------
  // Patch (issues.js:109-132)

  /** The body of `PATCH /issues/:id`; `slaDeadline` may be sent as `null`,
      which is `Some(None)`. */
  datatype PatchBody = PatchBody(
    title: Option<string>, description: Option<string>, category: Option<string>,
    priority: Option<string>, facility: Option<string>, slaDeadline: Option<Option<int>>)

  datatype PatchFields = PatchFields(
    title: Option<string>, description: Option<string>, category: Option<string>,
    priority: Option<Priority>, facility: Option<string>, slaDeadline: Option<Option<int>>)

  /** The update schema: every key optional, every string sent non-empty
      (the facility included, unlike on create), a known priority if any. */
  predicate PatchBodyOk(b: PatchBody) {
    OptionalTextOk(b.title) && OptionalTextOk(b.description) && OptionalTextOk(b.category)
    && OptionalPriorityOk(b.priority) && OptionalTextOk(b.facility)
  }

  function ValidatePatch(b: PatchBody): (r: Response<PatchFields>)
    ensures r.Ok? <==> PatchBodyOk(b)
    ensures r.Fail? ==> r.code == 400
    ensures r.Ok? ==> r.value.title == b.title && r.value.description == b.description
                      && r.value.category == b.category && r.value.facility == b.facility
                      && r.value.slaDeadline == b.slaDeadline
    ensures r.Ok? ==> r.value.priority == (if b.priority.None? then None else ParsePriority(b.priority.value))
  {
    if !OptionalTextOk(b.title) then Fail(400, EmptyMsg("title"))
    else if !OptionalTextOk(b.description) then Fail(400, EmptyMsg("description"))
    else if !OptionalTextOk(b.category) then Fail(400, EmptyMsg("category"))
    else if !OptionalPriorityOk(b.priority) then Fail(400, OneOfMsg("priority", PriorityChoices))
    else if !OptionalTextOk(b.facility) then Fail(400, EmptyMsg("facility"))
    else Ok(PatchFields(b.title, b.description, b.category, ParsedPriority(b.priority), b.facility, b.slaDeadline))
  }

  /** Saving a loaded document: the update timestamp moves only when some
      field actually changed. */
  function Saved(before: Issue, after: Issue, now: int): (r: Issue)
    ensures r.(updatedAt := after.updatedAt) == after
    ensures r.updatedAt == (if after == before then before.updatedAt else now)
  {
    if after == before then before else after.(updatedAt := now)
  }

  /** Copying the sent keys onto the issue and saving it. */
  function ApplyPatch(i: Issue, f: PatchFields, now: int): (r: Issue)
    ensures r.title == f.title.GetOr(i.title) && r.description == f.description.GetOr(i.description)
    ensures r.category == f.category.GetOr(i.category)
    ensures r.priority == f.priority.GetOr(i.priority)
    ensures r.facility == (if f.facility.Some? then f.facility else i.facility)
    ensures r.slaDeadline == f.slaDeadline.GetOr(i.slaDeadline)
    ensures r.id == i.id && r.status == i.status && r.createdBy == i.createdBy
    ensures r.assignedTo == i.assignedTo && r.resolvedAt == i.resolvedAt && r.closedAt == i.closedAt
    ensures r.createdAt == i.createdAt
    ensures r.updatedAt == i.updatedAt || r.updatedAt == now
  {
    var after := i.(title := f.title.GetOr(i.title),
                    description := f.description.GetOr(i.description),
                    category := f.category.GetOr(i.category),
                    priority := f.priority.GetOr(i.priority),
                    facility := if f.facility.Some? then f.facility else i.facility,
                    slaDeadline := f.slaDeadline.GetOr(i.slaDeadline));
    Saved(i, after, now)
  }

  /** Sending the same update twice changes nothing the second time, not even
      the update timestamp. */
  lemma ApplyPatchIdempotent(i: Issue, f: PatchFields, t1: int, t2: int)
    ensures ApplyPatch(ApplyPatch(i, f, t1), f, t2) == ApplyPatch(i, f, t1)
  {
  }

  /** Because the update schema refuses empty strings, a patch never blanks a
      field the issue schema requires. */
  lemma ApplyPatchKeepsRequired(i: Issue, b: PatchBody, now: int)
    requires IssueRequiredPresent(i)
    requires ValidatePatch(b).Ok?
    ensures IssueRequiredPresent(ApplyPatch(i, ValidatePatch(b).value, now))
  {
  }

  // ---------------------------------------------------------------------------
  // Status change (issues.js:134-159)

  /** The status schema: a required status spelled one of the five ways. */
  function ValidateStatus(v: Option<string>): (r: Response<Status>)
    ensures r.Ok? <==> v.Some? && ParseStatus(v.value).Some?
    ensures r.Ok? ==> StatusName(r.value) == v.value
    ensures r.Fail? ==> r.code == 400
  {
    if v.None? then Fail(400, RequiredMsg("status"))
    else if v.value == "" then Fail(400, EmptyMsg("status"))
    else if ParseStatus(v.value).None? then Fail(400, OneOfMsg("status", StatusChoices))
    else Ok(ParseStatus(v.value).value)
  }

  /** Setting the status and saving: reaching `resolved` stamps `resolvedAt`,
      reaching `closed` stamps `closedAt`; no other field moves and no stamp is
      ever cleared. */
  function ApplyStatus(i: Issue, s: Status, now: int): (r: Issue)
    ensures r.status == s
    ensures r.resolvedAt == (if s == Resolved then Some(now) else i.resolvedAt)
    ensures r.closedAt == (if s == Closed then Some(now) else i.closedAt)
    ensures r.(status := i.status, resolvedAt := i.resolvedAt, closedAt := i.closedAt,
               updatedAt := i.updatedAt) == i
    ensures r.updatedAt == i.updatedAt || r.updatedAt == now
  {
    var after := i.(status := s,
                    resolvedAt := if s == Resolved then Some(now) else i.resolvedAt,
                    closedAt := if s == Closed then Some(now) else i.closedAt);
    Saved(i, after, now)
  }

  /** A run of successful status changes, each with its own time. */
  function RunStatus(i: Issue, run: seq<(Status, int)>): Issue
    decreases |run|
  {
    if run == [] then i else RunStatus(ApplyStatus(i, run[0].0, run[0].1), run[1..])
  }

  lemma {:induction false} RunStatusSnoc(i: Issue, run: seq<(Status, int)>, x: (Status, int))
    ensures RunStatus(i, run + [x]) == ApplyStatus(RunStatus(i, run), x.0, x.1)
    decreases |run|
  {
    if run != [] {
      assert (run + [x])[1..] == run[1..] + [x];
      RunStatusSnoc(ApplyStatus(i, run[0].0, run[0].1), run[1..], x);
    }
  }

  /** The stamp a terminal status sets. */
  function StampOf(i: Issue, target: Status): Option<int>
    requires target == Resolved || target == Closed
  {
    if target == Resolved then i.resolvedAt else i.closedAt
  }

  /** The time of the last change to `target` in the run, or `init` if none. */
  function LastVisit(run: seq<(Status, int)>, target: Status, init: Option<int>): Option<int>
    decreases |run|
  {
    if run == [] then init
    else if run[|run| - 1].0 == target then Some(run[|run| - 1].1)
    else LastVisit(run[..|run| - 1], target, init)
  }

  /** After any run of status changes, `resolvedAt` (`closedAt`) holds the time
      of the most recent change to `resolved` (`closed`); with none in the run
      it keeps its earlier value. */
  lemma {:induction false} StampIsLastVisit(i: Issue, run: seq<(Status, int)>, target: Status)
    requires target == Resolved || target == Closed
    ensures StampOf(RunStatus(i, run), target) == LastVisit(run, target, StampOf(i, target))
    decreases |run|
  {
    if run != [] {
      var front := run[..|run| - 1];
      var x := run[|run| - 1];
      assert run == front + [x];
      RunStatusSnoc(i, front, x);
      StampIsLastVisit(i, front, target);
    }
  }

  lemma {:induction false} LastVisitSomeIff(run: seq<(Status, int)>, target: Status, init: Option<int>)
    ensures LastVisit(run, target, init).Some?
            <==> init.Some? || exists k :: 0 <= k < |run| && run[k].0 == target
    decreases |run|
  {
    if run != [] {
      var front := run[..|run| - 1];
      LastVisitSomeIff(front, target, init);
      if exists k :: 0 <= k < |front| && front[k].0 == target {
        var k :| 0 <= k < |front| && front[k].0 == target;
        assert run[k].0 == target;
      }
      if exists k :: 0 <= k < |run| && run[k].0 == target {
        var k :| 0 <= k < |run| && run[k].0 == target;
        if k < |front| {
          assert front[k].0 == target;
        }
      }
    }
  }

  /** A stamp, once set, survives every later status change, and an issue
      created without stamps has `resolvedAt` (`closedAt`) exactly when the
      run reached `resolved` (`closed`). */
  lemma StampSetIffVisited(i: Issue, run: seq<(Status, int)>, target: Status)
    requires target == Resolved || target == Closed
    ensures StampOf(RunStatus(i, run), target).Some?
            <==> StampOf(i, target).Some? || exists k :: 0 <= k < |run| && run[k].0 == target
  {
    StampIsLastVisit(i, run, target);
    LastVisitSomeIff(run, target, StampOf(i, target));
  }

  // ---------------------------------------------------------------------------
  // Assignment (issues.js:161-189)

  /** The `assignedTo` key of an assign body: `null` or a string. */
  datatype AssignValue = Null | Str(s: string)

  /** The assign schema: the key is required, may be `null`, and a string must
      be non-empty; the value stored is the user id or nothing. */
  function ValidateAssign(v: Option<AssignValue>): (r: Response<Option<UserId>>)
    ensures r.Ok? <==> v.Some? && (v.value.Null? || v.value.s != "")
    ensures r.Ok? ==> (r.value.None? <==> v.value.Null?)
    ensures r.Ok? && r.value.Some? ==> r.value.value == v.value.s
    ensures r.Fail? ==> r.code == 400
  {
    if v.None? then Fail(400, RequiredMsg("assignedTo"))
    else match v.value
      case Null => Ok(None)
      case Str(s) => if s == "" then Fail(400, EmptyMsg("assignedTo")) else Ok(Some(s))
  }

  function ApplyAssign(i: Issue, who: Option<UserId>, now: int): (r: Issue)
    ensures r.assignedTo == who
    ensures r.(assignedTo := i.assignedTo, updatedAt := i.updatedAt) == i
    ensures r.updatedAt == (if who == i.assignedTo then i.updatedAt else now)
  {
    Saved(i, i.(assignedTo := who), now)
  }

  // ---------------------------------------------------------------------------
  // Bulk update (issues.js:198-208)

  /** The `updates` object of a bulk request, restricted to the issue's own
      keys; `Some(None)` sends `null`. The schema lets any object through,
      the creator included. */
  datatype BulkUpdates = BulkUpdates(
    title: Option<string>, description: Option<string>, category: Option<string>,
    priority: Option<Priority>, status: Option<Status>, facility: Option<string>,
    assignedTo: Option<Option<UserId>>, slaDeadline: Option<Option<int>>,
    resolvedAt: Option<Option<int>>, closedAt: Option<Option<int>>,
    createdBy: Option<UserId>)

  datatype BulkBody = BulkBody(issueIds: Option<seq<IssueId>>, updates: Option<BulkUpdates>)

  /** The bulk schema: a non-empty id list and an updates object. */
  function ValidateBulk(b: BulkBody): (r: Response<(seq<IssueId>, BulkUpdates)>)
    ensures r.Ok? <==> b.issueIds.Some? && |b.issueIds.value| >= 1 && b.updates.Some?
    ensures r.Ok? ==> r.value == (b.issueIds.value, b.updates.value)
    ensures r.Fail? ==> r.code == 400
  {
    if b.issueIds.None? then Fail(400, RequiredMsg("issueIds"))
    else if |b.issueIds.value| == 0 then Fail(400, Quoted("issueIds") + " must contain at least 1 items")
    else if b.updates.None? then Fail(400, RequiredMsg("updates"))
    else Ok((b.issueIds.value, b.updates.value))
  }

  /** A `$set` of the sent keys by a multi-document update: it runs no schema
      validation and no hooks, and always refreshes the update timestamp. */
  function ApplyBulk(i: Issue, u: BulkUpdates, now: int): (r: Issue)
    ensures r.id == i.id && r.createdAt == i.createdAt
    ensures r.createdBy == u.createdBy.GetOr(i.createdBy)
    ensures r.updatedAt == now
    ensures r.status == u.status.GetOr(i.status)
    ensures r.resolvedAt == u.resolvedAt.GetOr(i.resolvedAt)
    ensures r.closedAt == u.closedAt.GetOr(i.closedAt)
    ensures r.assignedTo == u.assignedTo.GetOr(i.assignedTo)
    ensures r.title == u.title.GetOr(i.title) && r.description == u.description.GetOr(i.description)
    ensures r.category == u.category.GetOr(i.category) && r.priority == u.priority.GetOr(i.priority)
    ensures r.facility == (if u.facility.Some? then u.facility else i.facility)
    ensures r.slaDeadline == u.slaDeadline.GetOr(i.slaDeadline)
  {
    i.(title := u.title.GetOr(i.title),
       description := u.description.GetOr(i.description),
       category := u.category.GetOr(i.category),
       priority := u.priority.GetOr(i.priority),
       status := u.status.GetOr(i.status),
       facility := if u.facility.Some? then u.facility else i.facility,
       assignedTo := u.assignedTo.GetOr(i.assignedTo),
       slaDeadline := u.slaDeadline.GetOr(i.slaDeadline),
       resolvedAt := u.resolvedAt.GetOr(i.resolvedAt),
       closedAt := u.closedAt.GetOr(i.closedAt),
       createdBy := u.createdBy.GetOr(i.createdBy),
       updatedAt := now)
  }

  function OnlyStatus(s: Status): BulkUpdates {
    BulkUpdates(None, None, None, None, Some(s), None, None, None, None, None, None)
  }

  /** Resolving through the bulk route leaves `resolvedAt` unset, while the
      status route stamps it: the two routes disagree on the same transition. */
  lemma BulkResolveDoesNotStamp(i: Issue, now: int)
    requires i.resolvedAt.None?
    ensures ApplyBulk(i, OnlyStatus(Resolved), now).status == Resolved
    ensures ApplyBulk(i, OnlyStatus(Resolved), now).resolvedAt.None?
    ensures ApplyStatus(i, Resolved, now).resolvedAt == Some(now)
  {
  }

  /** The bulk route skips schema validation, so it can blank a required field
      that every other route keeps non-empty. */
  lemma BulkCanBlankTitle(i: Issue, now: int)
    ensures !IssueRequiredPresent(ApplyBulk(i, BulkUpdates(Some(""), None, None, None, None, None, None, None, None, None, None), now))
  {
  }

  /** Because `$set` writes whatever keys are sent, a bulk update naming a new
      creator hands that user the edit rights the creator check grants, and
      takes them from the old creator unless elevated. */
  lemma BulkCanMoveEditRights(i: Issue, newOwner: Payload, oldOwner: Payload, now: int)
    requires newOwner.sub != i.createdBy && !IsElevated(newOwner.role)
    requires oldOwner.sub == i.createdBy && !IsElevated(oldOwner.role)
    ensures !MayEdit(newOwner, i) && MayEdit(oldOwner, i)
    ensures var moved := ApplyBulk(i, BulkUpdates(None, None, None, None, None, None, None, None, None, None,
                                                  Some(newOwner.sub)), now);
            MayEdit(newOwner, moved) && !MayEdit(oldOwner, moved)
  {
  }

  function BulkApplied(s: seq<Issue>, ids: seq<IssueId>, u: BulkUpdates, now: int): (r: seq<Issue>)
    ensures |r| == |s|
    ensures forall k :: 0 <= k < |s| ==> r[k] == (if s[k].id in ids then ApplyBulk(s[k], u, now) else s[k])
  {
    seq(|s|, k requires 0 <= k < |s| => if s[k].id in ids then ApplyBulk(s[k], u, now) else s[k])
  }

  // ---------------------------------------------------------------------------
  // Listing (issues.js:21-38)

  /** The four query parameters; an absent or empty one is `""`. */
  datatype ListQuery = ListQuery(status: string, priority: string, category: string, search: string)

  /** The filter document the route builds, one optional condition per key. */
  datatype IssueFilter = IssueFilter(status: Option<string>, priority: Option<string>,
                                     category: Option<string>, search: Option<string>)

  predicate MatchesSearch(i: Issue, pat: string) {
    ContainsIgnoringCase(i.title, pat) || ContainsIgnoringCase(i.description, pat) || ContainsIgnoringCase(i.category, pat)
  }

  predicate MatchesFilter(f: IssueFilter, i: Issue) {
    (f.status.None? || StatusName(i.status) == f.status.value)
    && (f.priority.None? || PriorityName(i.priority) == f.priority.value)
    && (f.category.None? || i.category == f.category.value)
    && (f.search.None? || MatchesSearch(i, f.search.value))
  }

  function FilterFn(f: IssueFilter): Issue -> bool {
    (i: Issue) => MatchesFilter(f, i)
  }

  /** The conditions the route's filter document puts on an issue: every
      non-empty parameter must match. */
  predicate MatchesQuery(q: ListQuery, i: Issue) {
    && (q.status == "" || StatusName(i.status) == q.status)
    && (q.priority == "" || PriorityName(i.priority) == q.priority)
    && (q.category == "" || i.category == q.category)
    && (q.search == "" || MatchesSearch(i, q.search))
  }

  function QueryTest(q: ListQuery): Issue -> bool {
    (i: Issue) => MatchesQuery(q, i)
  }

  /** The filter document the route builds holds exactly the non-empty
      parameters, so it keeps the same issues as the query. */
  lemma FilterDocumentMeansQuery(s: seq<Issue>, q: ListQuery, f: IssueFilter)
    requires f.status == (if q.status != "" then Some(q.status) else None)
    requires f.priority == (if q.priority != "" then Some(q.priority) else None)
    requires f.category == (if q.category != "" then Some(q.category) else None)
    requires f.search == (if q.search != "" then Some(q.search) else None)
    ensures Filter(s, FilterFn(f)) == Filter(s, QueryTest(q))
  {
    forall i ensures FilterFn(f)(i) == QueryTest(q)(i) {
      assert MatchesFilter(f, i) == MatchesQuery(q, i);
    }
    FilterSameTest(s, FilterFn(f), QueryTest(q));
  }

  function CreatedAt(i: Issue): int { i.createdAt }

  function EntryCreatedAt(e: HistoryEntry): int { e.createdAt }

  // ---------------------------------------------------------------------------
  // The collection

  function IdOf(i: Issue): int { i.id }

  /** The position of the issue with id `id`, if there is one. */
  function IndexOf(s: seq<Issue>, id: IssueId): (r: Option<nat>)
    ensures r.Some? ==> r.value < |s| && s[r.value].id == id
    ensures r.None? <==> forall k :: 0 <= k < |s| ==> s[k].id != id
  {
    FindIndex(s, (i: Issue) => i.id == id)
  }

  function NotId(id: IssueId): Issue -> bool {
    (i: Issue) => i.id != id
  }

  function InIds(ids: seq<IssueId>): Issue -> bool {
    (i: Issue) => i.id in ids
  }

  function ForIssue(id: IssueId): HistoryEntry -> bool {
    (e: HistoryEntry) => e.issueId == id
  }

  /** Whoever may edit an issue: its creator or an elevated role. */
  predicate MayEdit(actor: Payload, i: Issue) {
    i.createdBy == actor.sub || IsElevated(actor.role)
  }

  class IssueService {
    var issues: seq<Issue>
    var history: seq<HistoryEntry>
    var nextIssueId: nat
    var nextEntryId: nat
    /** The latest time any route has written at. */
    ghost var clock: int

    /** Ids are handed out in order, and time only moves forward: every
        issue was updated no earlier than it was created and no later than
        the clock, and the ledger's entries are in time order, none after
        the clock. */
    ghost predicate Valid()
      reads this
    {
      KeysIncreasing(issues, IdOf)
      && (forall k :: 0 <= k < |issues| ==> issues[k].id < nextIssueId)
      && (forall k :: 0 <= k < |history| ==> history[k].id < nextEntryId)
      && (forall i :: i in issues ==> i.createdAt <= i.updatedAt <= clock)
      && (forall k :: 0 <= k < |history| ==> history[k].createdAt <= clock)
      && (forall j, k :: 0 <= j < k < |history| ==> history[j].createdAt <= history[k].createdAt)
    }

    /** An empty collection and ledger on a server started at `start`. */
    constructor (start: int)
      ensures Valid()
      ensures issues == [] && history == [] && clock == start
    {
      issues := [];
      history := [];
      nextIssueId := 0;
      nextEntryId := 0;
      clock := start;
    }

    /** Moving the clock forward keeps every time bound. */
    method Tick(now: int)
      requires Valid() && clock <= now
      modifies this
      ensures Valid() && clock == now
      ensures issues == old(issues) && history == old(history)
      ensures nextIssueId == old(nextIssueId) && nextEntryId == old(nextEntryId)
    {
      clock := now;
    }

    /** Writes one issue back at position `k`: its id stays, it was created
        no later than it was updated, and it was updated no later than the
        clock. */
    method UpdateKeepsInvariant(k: nat, updated: Issue)
      requires Valid() && k < |issues|
      requires updated.id == issues[k].id && updated.createdAt <= updated.updatedAt <= clock
      modifies this
      ensures Valid() && issues == old(issues)[k := updated]
      ensures history == old(history) && clock == old(clock)
      ensures nextIssueId == old(nextIssueId) && nextEntryId == old(nextEntryId)
    {
      var before := issues;
      var after := before[k := updated];
      forall j | 0 <= j < |after|
        ensures after[j].id == before[j].id
        ensures after[j].createdAt <= after[j].updatedAt <= clock
      {
        if j != k {
          assert before[j] in before;
        }
      }
      assert KeysIncreasing(after, IdOf);
      forall i | i in after
        ensures i.createdAt <= i.updatedAt <= clock
      {
        var j :| 0 <= j < |after| && after[j] == i;
      }
      issues := after;
    }

    /** A bulk update at the clock's time keeps every bound. */
    method BulkKeepsInvariant(ids: seq<IssueId>, u: BulkUpdates, now: int)
      requires Valid() && clock == now
      modifies this
      ensures Valid() && issues == BulkApplied(old(issues), ids, u, now)
      ensures history == old(history) && clock == old(clock)
      ensures nextIssueId == old(nextIssueId) && nextEntryId == old(nextEntryId)
    {
      var before := issues;
      var after := BulkApplied(before, ids, u, now);
      forall j | 0 <= j < |after|
        ensures after[j].id == before[j].id
        ensures after[j].createdAt <= after[j].updatedAt <= now
      {
        assert before[j] in before;
      }
      assert KeysIncreasing(after, IdOf);
      forall i | i in after
        ensures i.createdAt <= i.updatedAt <= now
      {
        var j :| 0 <= j < |after| && after[j] == i;
      }
      issues := after;
    }

    /** Appends one entry to the status-history ledger. */
    method Record(issueId: IssueId, status: Status, changedBy: UserId, now: int) returns (e: HistoryEntry)
      requires Valid() && clock == now
      modifies this
      ensures Valid() && clock == now
      ensures e == HistoryEntry(old(nextEntryId), issueId, status, changedBy, now)
      ensures history == old(history) + [e]
      ensures issues == old(issues) && nextIssueId == old(nextIssueId)
    {
      e := HistoryEntry(nextEntryId, issueId, status, changedBy, now);
      history := history + [e];
      nextEntryId := nextEntryId + 1;
    }

    /** `POST /issues`: validates, stores the new open issue created by the
        caller, and records its first status in the ledger. */
    method Create(actor: Payload, body: CreateBody, now: int) returns (r: Response<Issue>)
      requires Valid() && clock <= now
      modifies this
      ensures Valid()
      ensures r.Ok? ==> clock == now
      ensures ValidateCreate(body).Fail? ==> r == Fail(400, ValidateCreate(body).message) && unchanged(this)
      ensures ValidateCreate(body).Ok? ==>
        var f := ValidateCreate(body).value;
        && r == Ok(NewIssue(old(nextIssueId), f.title, f.description, f.category, Some(f.priority),
                            f.facility, actor.sub, f.slaDeadline, now))
        && issues == old(issues) + [r.value]
        && history == old(history) + [HistoryEntry(old(nextEntryId), r.value.id, Open, actor.sub, now)]
      ensures r.Ok? ==> r.value.status == Open && r.value.createdBy == actor.sub
                        && IndexOf(old(issues), r.value.id).None?
    {
      var v := ValidateCreate(body);
      if v.Fail? {
        return Fail(400, v.message);
      }
      var f := v.value;
      Tick(now);
      var issue := NewIssue(nextIssueId, f.title, f.description, f.category, Some(f.priority),
                            f.facility, actor.sub, f.slaDeadline, now);
      issues := issues + [issue];
      nextIssueId := nextIssueId + 1;
      var _ := Record(issue.id, issue.status, actor.sub, now);
      r := Ok(issue);
    }

    /** `GET /issues/:id`. */
    function Get(id: IssueId): (r: Response<Issue>)
      reads this
      ensures r.Ok? <==> exists k :: 0 <= k < |issues| && issues[k].id == id
      ensures r.Ok? ==> r.value in issues && r.value.id == id
      ensures r.Fail? ==> r == Fail(404, "Not found")
    {
      var k := IndexOf(issues, id);
      if k.None? then Fail(404, "Not found") else Ok(issues[k.value])
    }

    /** `GET /issues`: the issues matching every non-empty parameter, newest
        first. */
    method List(q: ListQuery) returns (r: seq<Issue>)
      ensures forall i :: i in r <==>
        i in issues
        && (q.status == "" || StatusName(i.status) == q.status)
        && (q.priority == "" || PriorityName(i.priority) == q.priority)
        && (q.category == "" || i.category == q.category)
        && (q.search == "" || MatchesSearch(i, q.search))
      ensures multiset(r) == multiset(Filter(issues, QueryTest(q)))
      ensures SortedDesc(r, CreatedAt)
    {
      var f := IssueFilter(None, None, None, None);
      if q.status != "" { f := f.(status := Some(q.status)); }
      if q.priority != "" { f := f.(priority := Some(q.priority)); }
      if q.category != "" { f := f.(category := Some(q.category)); }
      if q.search != "" { f := f.(search := Some(q.search)); }
      FilterDocumentMeansQuery(issues, q, f);
      var matching := Filter(issues, FilterFn(f));
      r := SortDesc(matching, CreatedAt);
      SortDescSameElements(matching, CreatedAt);
      forall i ensures i in r <==> i in issues && MatchesQuery(q, i) {
        assert QueryTest(q)(i) == MatchesQuery(q, i);
      }
    }

    /** `PATCH /issues/:id`: 400 on a bad body, then 404, then 403 unless the
        caller created the issue or is elevated. The ledger is untouched. */
    method Patch(actor: Payload, id: IssueId, body: PatchBody, now: int) returns (r: Response<Issue>)
      requires Valid() && clock <= now
      modifies this
      ensures Valid() && old(clock) <= clock <= now
      ensures history == old(history) && nextIssueId == old(nextIssueId) && nextEntryId == old(nextEntryId)
      ensures ValidatePatch(body).Fail? ==> r.Fail? && r.code == 400 && issues == old(issues)
      ensures ValidatePatch(body).Ok? && IndexOf(old(issues), id).None? ==>
        r == Fail(404, "Not found") && issues == old(issues)
      ensures ValidatePatch(body).Ok? && IndexOf(old(issues), id).Some? ==>
        var k := IndexOf(old(issues), id).value;
        if MayEdit(actor, old(issues)[k]) then
          r == Ok(ApplyPatch(old(issues)[k], ValidatePatch(body).value, now))
          && issues == old(issues)[k := r.value]
        else
          r == Fail(403, "Forbidden") && issues == old(issues)
    {
      var v := ValidatePatch(body);
      if v.Fail? {
        return Fail(400, v.message);
      }
      var k := IndexOf(issues, id);
      if k.None? {
        return Fail(404, "Not found");
      }
      var issue := issues[k.value];
      if !MayEdit(actor, issue) {
        return Fail(403, "Forbidden");
      }
      Tick(now);
      var updated := ApplyPatch(issue, v.value, now);
      UpdateKeepsInvariant(k.value, updated);
      r := Ok(updated);
    }

    /** `POST /issues/:id/status`: 400 on a bad status, then 404, then 403
        for a ranger; on success the issue takes the status (stamping
        `resolvedAt`/`closedAt`) and the ledger gains one entry with it. */
    method ChangeStatus(actor: Payload, id: IssueId, status: Option<string>, now: int)
      returns (r: Response<Issue>)
      requires Valid() && clock <= now
      modifies this
      ensures Valid() && old(clock) <= clock <= now
      ensures old(history) <= history && nextIssueId == old(nextIssueId)
      ensures ValidateStatus(status).Fail? ==> r.Fail? && r.code == 400 && unchanged(this)
      ensures ValidateStatus(status).Ok? && IndexOf(old(issues), id).None? ==>
        r == Fail(404, "Not found") && unchanged(this)
      ensures ValidateStatus(status).Ok? && IndexOf(old(issues), id).Some? && !CanChangeStatus(actor.role) ==>
        r == Fail(403, "Forbidden") && unchanged(this)
      ensures ValidateStatus(status).Ok? && IndexOf(old(issues), id).Some? && CanChangeStatus(actor.role) ==>
        var k := IndexOf(old(issues), id).value;
        var s := ValidateStatus(status).value;
        && r == Ok(ApplyStatus(old(issues)[k], s, now))
        && issues == old(issues)[k := r.value]
        && history == old(history) + [HistoryEntry(old(nextEntryId), id, s, actor.sub, now)]
    {
      var v := ValidateStatus(status);
      if v.Fail? {
        return Fail(400, v.message);
      }
      var k := IndexOf(issues, id);
      if k.None? {
        return Fail(404, "Not found");
      }
      if !CanChangeStatus(actor.role) {
        return Fail(403, "Forbidden");
      }
      Tick(now);
      var updated := ApplyStatus(issues[k.value], v.value, now);
      UpdateKeepsInvariant(k.value, updated);
      var _ := Record(id, v.value, actor.sub, now);
      r := Ok(updated);
    }

    /** `POST /issues/:id/assign`: 403 unless elevated, then 400 on a bad
        body, then 404; on success the assignee is set (or cleared by `null`)
        and the ledger gains an entry that always says `open`. */
    method Assign(actor: Payload, id: IssueId, assignedTo: Option<AssignValue>, now: int)
      returns (r: Response<Issue>)
      requires Valid() && clock <= now
      modifies this
      ensures Valid() && old(clock) <= clock <= now
      ensures old(history) <= history && nextIssueId == old(nextIssueId)
      ensures !IsElevated(actor.role) ==> r == Fail(403, "Forbidden") && unchanged(this)
      ensures IsElevated(actor.role) && ValidateAssign(assignedTo).Fail? ==>
        r.Fail? && r.code == 400 && unchanged(this)
      ensures IsElevated(actor.role) && ValidateAssign(assignedTo).Ok? && IndexOf(old(issues), id).None? ==>
        r == Fail(404, "Not found") && unchanged(this)
      ensures IsElevated(actor.role) && ValidateAssign(assignedTo).Ok? && IndexOf(old(issues), id).Some? ==>
        var k := IndexOf(old(issues), id).value;
        && r == Ok(ApplyAssign(old(issues)[k], ValidateAssign(assignedTo).value, now))
        && issues == old(issues)[k := r.value]
        && history == old(history) + [HistoryEntry(old(nextEntryId), id, Open, actor.sub, now)]
    {
      if !IsElevated(actor.role) {
        return Fail(403, "Forbidden");
      }
      var v := ValidateAssign(assignedTo);
      if v.Fail? {
        return Fail(400, v.message);
      }
      var k := IndexOf(issues, id);
      if k.None? {
        return Fail(404, "Not found");
      }
      Tick(now);
      var updated := ApplyAssign(issues[k.value], v.value, now);
      UpdateKeepsInvariant(k.value, updated);
      var _ := Record(id, Open, actor.sub, now);
      r := Ok(updated);
    }

    /** `POST /issues/:id/unassign`: 403 unless elevated, then 404; clears the
        assignee and writes nothing to the ledger. */
    method Unassign(actor: Payload, id: IssueId, now: int) returns (r: Response<Issue>)
      requires Valid() && clock <= now
      modifies this
      ensures Valid() && old(clock) <= clock <= now
      ensures history == old(history) && nextIssueId == old(nextIssueId) && nextEntryId == old(nextEntryId)
      ensures !IsElevated(actor.role) ==> r == Fail(403, "Forbidden") && issues == old(issues)
      ensures IsElevated(actor.role) && IndexOf(old(issues), id).None? ==>
        r == Fail(404, "Not found") && issues == old(issues)
      ensures IsElevated(actor.role) && IndexOf(old(issues), id).Some? ==>
        var k := IndexOf(old(issues), id).value;
        && r == Ok(ApplyAssign(old(issues)[k], None, now))
        && issues == old(issues)[k := r.value]
      ensures r.Ok? ==> r.value.assignedTo.None?
    {
      if !IsElevated(actor.role) {
        return Fail(403, "Forbidden");
      }
      var k := IndexOf(issues, id);
      if k.None? {
        return Fail(404, "Not found");
      }
      Tick(now);
      var updated := ApplyAssign(issues[k.value], None, now);
      UpdateKeepsInvariant(k.value, updated);
      r := Ok(updated);
    }

    /** `GET /issues/:id/status-history`: the ledger entries of one issue,
        newest first. An unknown id gives an empty list, not a 404. */
    function StatusHistory(id: IssueId): (r: seq<HistoryEntry>)
      reads this
      ensures forall e :: e in r <==> e in history && e.issueId == id
      ensures multiset(r) == multiset(Filter(history, ForIssue(id)))
      ensures SortedDesc(r, EntryCreatedAt)
    {
      var mine := Filter(history, ForIssue(id));
      SortDescSameElements(mine, EntryCreatedAt);
      SortDesc(mine, EntryCreatedAt)
    }

    /** `POST /issues/bulk`: 403 unless elevated, then 400 on a bad body; the
        updates are written to every listed issue that exists (unknown ids are
        skipped), no ledger entry is written, and the response lists the
        touched issues in collection order. */
    method Bulk(actor: Payload, body: BulkBody, now: int) returns (r: Response<seq<Issue>>)
      requires Valid() && clock <= now
      modifies this
      ensures Valid() && old(clock) <= clock <= now
      ensures history == old(history) && nextIssueId == old(nextIssueId) && nextEntryId == old(nextEntryId)
      ensures !IsElevated(actor.role) ==> r == Fail(403, "Forbidden") && issues == old(issues)
      ensures IsElevated(actor.role) && ValidateBulk(body).Fail? ==>
        r.Fail? && r.code == 400 && issues == old(issues)
      ensures IsElevated(actor.role) && ValidateBulk(body).Ok? ==>
        var (ids, u) := ValidateBulk(body).value;
        && issues == BulkApplied(old(issues), ids, u, now)
        && r == Ok(Filter(issues, InIds(ids)))
      ensures r.Ok? ==> forall i :: i in r.value ==> i in issues && i.id in body.issueIds.value
    {
      if !IsElevated(actor.role) {
        return Fail(403, "Forbidden");
      }
      var v := ValidateBulk(body);
      if v.Fail? {
        return Fail(400, v.message);
      }
      var (ids, u) := v.value;
      Tick(now);
      BulkKeepsInvariant(ids, u, now);
      r := Ok(Filter(issues, InIds(ids)));
    }

    /** `DELETE /issues/:id`: 403 unless elevated; otherwise the issue is gone
        if it was there and the answer is the same either way. Its ledger
        entries stay. */
    method Delete(actor: Payload, id: IssueId) returns (r: Response<string>)
      requires Valid()
      modifies this
      ensures Valid()
      ensures history == old(history) && nextIssueId == old(nextIssueId) && nextEntryId == old(nextEntryId)
      ensures !IsElevated(actor.role) ==> r == Fail(403, "Forbidden") && issues == old(issues)
      ensures IsElevated(actor.role) ==>
        r == Ok("Deleted")
        && (forall i :: i in issues <==> i in old(issues) && i.id != id)
        && IsSubsequence(issues, old(issues))
    {
      if !IsElevated(actor.role) {
        return Fail(403, "Forbidden");
      }
      FilterIsSubsequence(issues, NotId(id));
      FilterKeepsKeysIncreasing(issues, NotId(id), IdOf);
      issues := Filter(issues, NotId(id));
      r := Ok("Deleted");
    }
  }
}
