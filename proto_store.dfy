/** The localStorage prototype's issue store (src/context/IssueContext.jsx):
    a list of issues kept in component state and mirrored to storage on every
    change. Issues are identified by string ids; the assignee is an engineer's
    name. Updates are shallow merges of a partial record. */
module ProtoStore {
  import opened Common
  import opened Domain

  datatype ProtoComment = ProtoComment(id: string, author: string, text: string, timestamp: int)

  datatype ProtoIssue = ProtoIssue(
    id: string,
    title: string,
    description: string,
    category: string,
    priority: Priority,
    status: Status,
    facility: string,
    createdBy: string,
    assignedTo: Option<string>,
    createdAt: int,
    slaDeadline: int,
    resolvedAt: Option<int>,
    comments: seq<ProtoComment>,
    attachments: seq<string>)

  /** A partial issue: the keys an update object carries. `Some(None)` for an
      optional field writes `null`. */
  datatype ProtoUpdates = ProtoUpdates(
    title: Option<string>,
    description: Option<string>,
    category: Option<string>,
    priority: Option<Priority>,
    status: Option<Status>,
    facility: Option<string>,
    assignedTo: Option<Option<string>>,
    slaDeadline: Option<int>,
    resolvedAt: Option<Option<int>>,
    comments: Option<seq<ProtoComment>>)

  const NoUpdates := ProtoUpdates(None, None, None, None, None, None, None, None, None, None)

  /** What a caller passes to `createIssue`; `id` is present only if the
      caller supplies one, and then it wins over the generated one. */
  datatype ProtoDraft = ProtoDraft(
    id: Option<string>, title: string, description: string, category: string,
    priority: Priority, facility: string, createdBy: string, assignedTo: Option<string>)

  datatype CommentDraft = CommentDraft(id: Option<string>, author: string, text: string)

  /** The default deadline: eight hours, in milliseconds. */
  const DefaultSla: int := 8 * 60 * 60 * 1000

  /** `{ ...issue, ...updates }`. */
  function Merge(i: ProtoIssue, u: ProtoUpdates): (r: ProtoIssue)
    ensures r.id == i.id && r.createdBy == i.createdBy && r.createdAt == i.createdAt
    ensures r.attachments == i.attachments
    ensures r.status == u.status.GetOr(i.status)
    ensures r.assignedTo == u.assignedTo.GetOr(i.assignedTo)
    ensures r.resolvedAt == u.resolvedAt.GetOr(i.resolvedAt)
    ensures r.comments == u.comments.GetOr(i.comments)
    ensures r.title == u.title.GetOr(i.title) && r.description == u.description.GetOr(i.description)
    ensures r.category == u.category.GetOr(i.category) && r.priority == u.priority.GetOr(i.priority)
    ensures r.facility == u.facility.GetOr(i.facility) && r.slaDeadline == u.slaDeadline.GetOr(i.slaDeadline)
  {
    i.(title := u.title.GetOr(i.title),
       description := u.description.GetOr(i.description),
       category := u.category.GetOr(i.category),
       priority := u.priority.GetOr(i.priority),
       status := u.status.GetOr(i.status),
       facility := u.facility.GetOr(i.facility),
       assignedTo := u.assignedTo.GetOr(i.assignedTo),
       slaDeadline := u.slaDeadline.GetOr(i.slaDeadline),
       resolvedAt := u.resolvedAt.GetOr(i.resolvedAt),
       comments := u.comments.GetOr(i.comments))
  }

  /** Merging the same update twice is merging it once. */
  lemma MergeIdempotent(i: ProtoIssue, u: ProtoUpdates)
    ensures Merge(Merge(i, u), u) == Merge(i, u)
  {
  }

  /** The empty update changes nothing. */
  lemma MergeNothing(i: ProtoIssue)
    ensures Merge(i, NoUpdates) == i
  {
  }

  /** The list `updateIssue` builds: the update merged into every issue with
      that id, everything else identical, same length and order. */
  function UpdatedById(s: seq<ProtoIssue>, id: string, u: ProtoUpdates): (r: seq<ProtoIssue>)
    ensures |r| == |s|
    ensures forall k :: 0 <= k < |s| ==> r[k] == (if s[k].id == id then Merge(s[k], u) else s[k])
  {
    seq(|s|, k requires 0 <= k < |s| => if s[k].id == id then Merge(s[k], u) else s[k])
  }

  /** The list `bulkUpdate` builds: the update merged into every issue whose
      id is listed. */
  function BulkMerged(s: seq<ProtoIssue>, ids: seq<string>, u: ProtoUpdates): (r: seq<ProtoIssue>)
    ensures |r| == |s|
    ensures forall k :: 0 <= k < |s| ==> r[k] == (if s[k].id in ids then Merge(s[k], u) else s[k])
  {
    seq(|s|, k requires 0 <= k < |s| => if s[k].id in ids then Merge(s[k], u) else s[k])
  }

  /** A bulk update of one id is the single update of that id. */
  lemma BulkOfOneIsUpdate(s: seq<ProtoIssue>, id: string, u: ProtoUpdates)
    ensures BulkMerged(s, [id], u) == UpdatedById(s, id, u)
  {
  }

  /** Updating twice with the same fields gives what updating once gives. */
  lemma UpdateIdempotent(s: seq<ProtoIssue>, id: string, u: ProtoUpdates)
    ensures UpdatedById(UpdatedById(s, id, u), id, u) == UpdatedById(s, id, u)
  {
    forall k | 0 <= k < |s|
      ensures UpdatedById(UpdatedById(s, id, u), id, u)[k] == UpdatedById(s, id, u)[k]
    {
      MergeIdempotent(s[k], u);
    }
  }

  /** An update for an id nobody has leaves the list as it was. */
  lemma UpdateUnknownIdIsIdentity(s: seq<ProtoIssue>, id: string, u: ProtoUpdates)
    requires forall k :: 0 <= k < |s| ==> s[k].id != id
    ensures UpdatedById(s, id, u) == s
  {
  }

  /** The update `assignEngineer` applies: the assignee and `in-progress`. */
  function AssignUpdates(name: Option<string>): (u: ProtoUpdates)
    ensures u.assignedTo == Some(name) && u.status == Some(InProgress)
    ensures u.(assignedTo := None, status := None) == NoUpdates
  {
    NoUpdates.(assignedTo := Some(name), status := Some(InProgress))
  }

  function NewProtoIssue(d: ProtoDraft, now: nat): (i: ProtoIssue)
    ensures i.id == (if d.id.Some? then d.id.value else NatToString(now))
    ensures i.status == Open && i.createdAt == now && i.slaDeadline == now + DefaultSla
    ensures i.comments == [] && i.attachments == [] && i.resolvedAt.None?
    ensures i.title == d.title && i.description == d.description && i.category == d.category
    ensures i.priority == d.priority && i.facility == d.facility && i.createdBy == d.createdBy
    ensures i.assignedTo == d.assignedTo
  {
    ProtoIssue(d.id.GetOr(NatToString(now)), d.title, d.description, d.category, d.priority, Open,
               d.facility, d.createdBy, d.assignedTo, now, now + DefaultSla, None, [], [])
  }

  function NewProtoComment(c: CommentDraft, now: nat): (r: ProtoComment)
    ensures r.id == (if c.id.Some? then c.id.value else NatToString(now))
    ensures r.author == c.author && r.text == c.text && r.timestamp == now
  {
    ProtoComment(c.id.GetOr(NatToString(now)), c.author, c.text, now)
  }

  function HasId(id: string): ProtoIssue -> bool {
    (i: ProtoIssue) => i.id == id
  }

  class IssueStore {
    var issues: seq<ProtoIssue>
    /** The copy kept in browser storage. */
    var persisted: seq<ProtoIssue>

    /** The stored copy always mirrors the in-memory list. */
    ghost predicate Valid()
      reads this
    {
      persisted == issues
    }

    constructor (initial: seq<ProtoIssue>)
      ensures Valid() && issues == initial
    {
      issues := initial;
      persisted := initial;
    }

    /** `updateIssues`: the one way the list changes, in memory and storage. */
    method UpdateIssues(newIssues: seq<ProtoIssue>)
      modifies this
      ensures Valid()
      ensures issues == newIssues
    {
      issues := newIssues;
      persisted := newIssues;
    }

    /** `createIssue`: appends one open issue stamped now, due eight hours on. */
    method CreateIssue(draft: ProtoDraft, now: nat) returns (issue: ProtoIssue)
      modifies this
      ensures Valid()
      ensures issue == NewProtoIssue(draft, now)
      ensures issues == old(issues) + [issue]
    {
      issue := NewProtoIssue(draft, now);
      UpdateIssues(issues + [issue]);
    }

    /** `updateIssue`: shallow-merges the update into every issue with the id. */
    method UpdateIssue(id: string, u: ProtoUpdates)
      modifies this
      ensures Valid()
      ensures issues == UpdatedById(old(issues), id, u)
    {
      UpdateIssues(UpdatedById(issues, id, u));
    }

    /** `assignEngineer`: sets the assignee (or `null`) and always moves the
        issue to in-progress, even when clearing the assignee. */
    method AssignEngineer(id: string, name: Option<string>)
      modifies this
      ensures Valid()
      ensures issues == UpdatedById(old(issues), id, AssignUpdates(name))
      ensures forall k :: 0 <= k < |issues| && issues[k].id == id ==>
        issues[k].assignedTo == name && issues[k].status == InProgress
    {
      UpdateIssue(id, AssignUpdates(name));
    }

    /** `addComment`: nothing happens for an unknown id; otherwise the comment,
        stamped now, is appended to that issue's comments. */
    method AddComment(id: string, c: CommentDraft, now: nat)
      modifies this
      ensures old(Valid()) ==> Valid()
      ensures FindIndex(old(issues), HasId(id)).None? ==> issues == old(issues) && persisted == old(persisted)
      ensures FindIndex(old(issues), HasId(id)).Some? ==>
        var k := FindIndex(old(issues), HasId(id)).value;
        && Valid()
        && issues == UpdatedById(old(issues), id, NoUpdates.(comments := Some(old(issues)[k].comments + [NewProtoComment(c, now)])))
        && issues[k].comments == old(issues)[k].comments + [NewProtoComment(c, now)]
    {
      var k := FindIndex(issues, HasId(id));
      if k.Some? {
        var comments := issues[k.value].comments + [NewProtoComment(c, now)];
        UpdateIssue(id, NoUpdates.(comments := Some(comments)));
      }
    }

    /** `bulkUpdate`: merges the update into exactly the listed issues. */
    method BulkUpdate(ids: seq<string>, u: ProtoUpdates)
      modifies this
      ensures Valid()
      ensures issues == BulkMerged(old(issues), ids, u)
    {
      UpdateIssues(BulkMerged(issues, ids, u));
    }
  }
}
