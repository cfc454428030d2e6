/** The API front end's issue store (front/src/context/IssueContext.jsx): the
    issue list and engineer list the pages read, how each issue the server
    sends is normalised, and how every action changes the list. The server's
    answers are parameters (`Reply`); a date string is turned into a time by
    the given `parseDate`. Toast pop-ups are kept as a log. */
module FrontIssueContext {
  import opened Common
  import FrontAuth

  /** What the API answered: a value, or a failure with the server's message
      if it sent one. */
  datatype Reply<T> = Ok(value: T) | Failed(message: Option<string>)

  datatype Toast = Success(text: string) | Failure(text: string)

  /** A person reference as the server sends it: absent, a bare id, or a
      populated record. `Empty` is the literal `{}` the page substitutes. */
  datatype Ref = Null | Id(id: string) | Doc(id: string, name: string) | Empty

  /** JavaScript truthiness of a reference: only an absent value and the
      empty id string are false. */
  predicate Truthy(x: Ref) {
    match x
    case Null => false
    case Id(id) => id != ""
    case _ => true
  }

  /** `x?.name ? x : (x || fallback)`. */
  function NormaliseRef(x: Ref, fallback: Ref): Ref {
    if x.Doc? && x.name != "" then x else if Truthy(x) then x else fallback
  }

  /** The name test is redundant: a reference with a name is truthy, so the
      expression is `x || fallback`. */
  lemma NormaliseRefIsOr(x: Ref, fallback: Ref)
    ensures NormaliseRef(x, fallback) == (if Truthy(x) then x else fallback)
    ensures Truthy(x) ==> NormaliseRef(x, fallback) == x
    ensures !Truthy(x) ==> NormaliseRef(x, fallback) == fallback
  {
  }

  /** An issue as the server sends it; dates are ISO strings, possibly absent. */
  datatype RawIssue = RawIssue(
    _id: string, title: string, description: string, category: string,
    status: string, priority: string, createdAt: string,
    slaDeadline: Option<string>, resolvedAt: Option<string>, closedAt: Option<string>,
    createdBy: Ref, assignedTo: Ref)

  /** An issue as the pages see it. */
  datatype FrontIssue = FrontIssue(
    id: string, title: string, description: string, category: string,
    status: string, priority: string, createdAt: int,
    slaDeadline: Option<int>, resolvedAt: Option<int>, closedAt: Option<int>,
    createdBy: Ref, assignedTo: Ref)

  /** `d ? new Date(d) : null`: an absent or empty string gives null. */
  function DateOrNull(d: Option<string>, parseDate: string -> int): (r: Option<int>)
    ensures r.None? <==> d.None? || d.value == ""
    ensures r.Some? ==> r.value == parseDate(d.value)
  {
    if d.Some? && d.value != "" then Some(parseDate(d.value)) else None
  }

  /** The mapping `loadIssues` and `updateIssue` apply to each issue. */
  function Normalise(raw: RawIssue, parseDate: string -> int): (r: FrontIssue)
    ensures r.id == raw._id && r.createdAt == parseDate(raw.createdAt)
    ensures r.title == raw.title && r.description == raw.description && r.category == raw.category
    ensures r.status == raw.status && r.priority == raw.priority
    ensures r.slaDeadline.None? <==> raw.slaDeadline.None? || raw.slaDeadline.value == ""
    ensures r.resolvedAt.None? <==> raw.resolvedAt.None? || raw.resolvedAt.value == ""
    ensures r.closedAt.None? <==> raw.closedAt.None? || raw.closedAt.value == ""
    ensures r.assignedTo == (if Truthy(raw.assignedTo) then raw.assignedTo else Null)
    ensures r.createdBy == (if Truthy(raw.createdBy) then raw.createdBy else Empty)
    ensures r.assignedTo.Null? <==> !Truthy(raw.assignedTo)
  {
    NormaliseRefIsOr(raw.assignedTo, Null);
    NormaliseRefIsOr(raw.createdBy, Empty);
    FrontIssue(raw._id, raw.title, raw.description, raw.category, raw.status, raw.priority,
      parseDate(raw.createdAt),
      DateOrNull(raw.slaDeadline, parseDate), DateOrNull(raw.resolvedAt, parseDate),
      DateOrNull(raw.closedAt, parseDate),
      NormaliseRef(raw.createdBy, Empty), NormaliseRef(raw.assignedTo, Null))
  }

  /** `createIssue` converts only the creation time and the deadline; the
      resolution and closing times keep whatever the server sent, an absent
      one staying absent. */
  function NormaliseCreated(raw: RawIssue, parseDate: string -> int): (r: FrontIssue)
    ensures r.id == raw._id && r.createdAt == parseDate(raw.createdAt)
    ensures r.slaDeadline == Normalise(raw, parseDate).slaDeadline
    ensures r.assignedTo == Normalise(raw, parseDate).assignedTo
    ensures r.createdBy == Normalise(raw, parseDate).createdBy
    ensures r.title == raw.title && r.description == raw.description && r.category == raw.category
    ensures r.status == raw.status && r.priority == raw.priority
    ensures raw.resolvedAt.None? ==> r.resolvedAt.None?
    ensures raw.closedAt.None? ==> r.closedAt.None?
    ensures raw.resolvedAt.Some? ==> r.resolvedAt == Some(parseDate(raw.resolvedAt.value))
    ensures raw.closedAt.Some? ==> r.closedAt == Some(parseDate(raw.closedAt.value))
  {
    var n := Normalise(raw, parseDate);
    n.(resolvedAt := if raw.resolvedAt.Some? then Some(parseDate(raw.resolvedAt.value)) else None,
       closedAt := if raw.closedAt.Some? then Some(parseDate(raw.closedAt.value)) else None)
  }

  function NormaliseAll(raws: seq<RawIssue>, parseDate: string -> int): (r: seq<FrontIssue>)
    ensures |r| == |raws|
    ensures forall k :: 0 <= k < |raws| ==> r[k] == Normalise(raws[k], parseDate)
  {
    seq(|raws|, k requires 0 <= k < |raws| => Normalise(raws[k], parseDate))
  }

  /** `prev.map(issue => issue.id === issueId ? updated : issue)`. */
  function ReplaceById(issues: seq<FrontIssue>, issueId: string, updated: FrontIssue): (r: seq<FrontIssue>)
    ensures |r| == |issues|
    ensures forall k :: 0 <= k < |issues| ==> r[k] == (if issues[k].id == issueId then updated else issues[k])
  {
    seq(|issues|, k requires 0 <= k < |issues| => if issues[k].id == issueId then updated else issues[k])
  }

  /** Replacing again with the same record changes nothing more, and a list
      without that id is left as it was. */
  lemma ReplaceByIdIdempotent(issues: seq<FrontIssue>, issueId: string, updated: FrontIssue)
    requires updated.id == issueId
    ensures ReplaceById(ReplaceById(issues, issueId, updated), issueId, updated) == ReplaceById(issues, issueId, updated)
  {
  }

  lemma ReplaceByIdAbsent(issues: seq<FrontIssue>, issueId: string, updated: FrontIssue)
    requires forall k :: 0 <= k < |issues| ==> issues[k].id != issueId
    ensures ReplaceById(issues, issueId, updated) == issues
  {
  }

  function HasId(issueId: string): FrontIssue -> bool {
    (i: FrontIssue) => i.id == issueId
  }

  function KeepsId(issueId: string): FrontIssue -> bool {
    (i: FrontIssue) => i.id != issueId
  }

  /** `prev.filter(issue => issue.id !== issueId)`. */
  function RemoveById(issues: seq<FrontIssue>, issueId: string): (r: seq<FrontIssue>)
    ensures forall i :: i in r <==> i in issues && i.id != issueId
    ensures IsSubsequence(r, issues)
    ensures |r| == |issues| - Count(issues, HasId(issueId))
  {
    FilterIsSubsequence(issues, KeepsId(issueId));
    CountSplit(issues, issueId);
    Filter(issues, KeepsId(issueId))
  }

  /** Every issue either has the id or keeps it. */
  lemma {:induction false} CountSplit(issues: seq<FrontIssue>, issueId: string)
    ensures Count(issues, HasId(issueId)) + Count(issues, KeepsId(issueId)) == |issues|
  {
    if issues != [] {
      CountSplit(issues[1..], issueId);
    }
  }

  /** Deleting twice is deleting once. */
  lemma RemoveByIdIdempotent(issues: seq<FrontIssue>, issueId: string)
    ensures RemoveById(RemoveById(issues, issueId), issueId) == RemoveById(issues, issueId)
  {
    var once := RemoveById(issues, issueId);
    assert forall i :: i in once ==> KeepsId(issueId)(i);
    FilterAll(once, KeepsId(issueId));
  }

  datatype RawEngineer = RawEngineer(_id: string, name: string, workload: Option<nat>)
  datatype Engineer = Engineer(id: string, name: string, workload: nat)

  /** `{ id: eng._id, name: eng.name, workload: eng.workload || 0 }`. */
  function ToEngineers(raws: seq<RawEngineer>): (r: seq<Engineer>)
    ensures |r| == |raws|
    ensures forall k :: 0 <= k < |raws| ==>
      r[k].id == raws[k]._id && r[k].name == raws[k].name
      && r[k].workload == (if raws[k].workload.Some? then raws[k].workload.value else 0)
  {
    seq(|raws|, k requires 0 <= k < |raws| => Engineer(raws[k]._id, raws[k].name, raws[k].workload.GetOr(0)))
  }

  class IssueStore {
    var issues: seq<FrontIssue>
    var engineers: seq<Engineer>
    var loading: bool
    var toasts: seq<Toast>
    const parseDate: string -> int

    constructor (parseDate: string -> int)
      ensures issues == [] && engineers == [] && loading && toasts == []
      ensures this.parseDate == parseDate
    {
      issues := [];
      engineers := [];
      loading := true;
      toasts := [];
      this.parseDate := parseDate;
    }

    /** `loadIssues`: the list becomes the server's, normalised; a failure
        keeps the old list and reports it. Loading ends either way. */
    method LoadIssues(reply: Reply<seq<RawIssue>>)
      modifies this
      ensures !loading && engineers == old(engineers)
      ensures reply.Ok? ==> issues == NormaliseAll(reply.value, parseDate) && toasts == old(toasts)
      ensures reply.Failed? ==> issues == old(issues) && toasts == old(toasts) + [Failure("Failed to load issues")]
    {
      loading := true;
      if reply.Ok? {
        issues := NormaliseAll(reply.value, parseDate);
      } else {
        toasts := toasts + [Failure("Failed to load issues")];
      }
      loading := false;
    }

    /** `loadEngineers`: a failure is only logged to the console. */
    method LoadEngineers(reply: Reply<seq<RawEngineer>>)
      modifies this
      ensures issues == old(issues) && loading == old(loading) && toasts == old(toasts)
      ensures reply.Ok? ==> engineers == ToEngineers(reply.value)
      ensures reply.Failed? ==> engineers == old(engineers)
    {
      if reply.Ok? {
        engineers := ToEngineers(reply.value);
      }
    }

    /** The effect run when the signed-in user changes. Signed out, both lists
        are emptied without asking the server; signed in, both are loaded. */
    method UserChanged(signedIn: bool, issuesReply: Reply<seq<RawIssue>>, engineersReply: Reply<seq<RawEngineer>>)
      modifies this
      ensures !loading
      ensures !signedIn ==> issues == [] && engineers == [] && toasts == old(toasts)
      ensures signedIn && issuesReply.Ok? ==> issues == NormaliseAll(issuesReply.value, parseDate)
      ensures signedIn && engineersReply.Ok? ==> engineers == ToEngineers(engineersReply.value)
      ensures signedIn && issuesReply.Failed? ==> issues == old(issues)
      ensures signedIn && engineersReply.Failed? ==> engineers == old(engineers)
    {
      if !signedIn {
        issues := [];
        engineers := [];
        loading := false;
        return;
      }
      loading := true;
      LoadIssues(issuesReply);
      LoadEngineers(engineersReply);
      loading := false;
    }

    /** `createIssue`: the new issue is appended at the end and returned; a
        failure leaves the list unchanged and is rethrown (`None`). */
    method CreateIssue(reply: Reply<RawIssue>) returns (r: Option<FrontIssue>)
      modifies this
      ensures engineers == old(engineers) && loading == old(loading)
      ensures r.Some? <==> reply.Ok?
      ensures reply.Ok? ==>
        && r.value == NormaliseCreated(reply.value, parseDate)
        && issues == old(issues) + [r.value]
        && toasts == old(toasts) + [Success("Issue created successfully!")]
      ensures reply.Failed? ==>
        issues == old(issues)
        && toasts == old(toasts) + [Failure(FrontAuth.ErrorText(reply.message, "Failed to create issue"))]
    {
      match reply
      case Ok(raw) =>
        var created := NormaliseCreated(raw, parseDate);
        issues := issues + [created];
        toasts := toasts + [Success("Issue created successfully!")];
        r := Some(created);
      case Failed(message) =>
        toasts := toasts + [Failure(FrontAuth.ErrorText(message, "Failed to create issue"))];
        r := None;
    }

    /** `updateIssue`: every entry with that id is replaced by the server's
        copy; the others keep their place. */
    method UpdateIssue(issueId: string, reply: Reply<RawIssue>) returns (r: Option<FrontIssue>)
      modifies this
      ensures engineers == old(engineers) && loading == old(loading)
      ensures r.Some? <==> reply.Ok?
      ensures reply.Ok? ==>
        && r.value == Normalise(reply.value, parseDate)
        && issues == ReplaceById(old(issues), issueId, r.value)
        && toasts == old(toasts)
      ensures reply.Failed? ==>
        issues == old(issues)
        && toasts == old(toasts) + [Failure(FrontAuth.ErrorText(reply.message, "Failed to update issue"))]
    {
      match reply
      case Ok(raw) =>
        var updated := Normalise(raw, parseDate);
        issues := ReplaceById(issues, issueId, updated);
        r := Some(updated);
      case Failed(message) =>
        toasts := toasts + [Failure(FrontAuth.ErrorText(message, "Failed to update issue"))];
        r := None;
    }

    /** `deleteIssue`: on success every entry with that id goes and the rest
        keep their order. */
    method DeleteIssue(issueId: string, reply: Reply<()>) returns (ok: bool)
      modifies this
      ensures engineers == old(engineers) && loading == old(loading)
      ensures ok <==> reply.Ok?
      ensures reply.Ok? ==>
        issues == RemoveById(old(issues), issueId)
        && toasts == old(toasts) + [Success("Issue deleted successfully")]
      ensures reply.Failed? ==>
        issues == old(issues)
        && toasts == old(toasts) + [Failure(FrontAuth.ErrorText(reply.message, "Failed to delete issue"))]
    {
      if reply.Ok? {
        issues := RemoveById(issues, issueId);
        toasts := toasts + [Success("Issue deleted successfully")];
        ok := true;
      } else {
        toasts := toasts + [Failure(FrontAuth.ErrorText(reply.message, "Failed to delete issue"))];
        ok := false;
      }
    }

    /** The shape shared by assign, unassign, status change, comment and bulk
        update: the action is sent; only if it succeeds is the list reloaded
        and the success reported; a failure leaves the list as it was. */
    method ActThenReload(action: Reply<()>, reload: Reply<seq<RawIssue>>, success: string, fallback: string)
      returns (ok: bool)
      modifies this
      ensures engineers == old(engineers)
      ensures ok <==> action.Ok?
      ensures action.Failed? ==>
        issues == old(issues) && loading == old(loading)
        && toasts == old(toasts) + [Failure(FrontAuth.ErrorText(action.message, fallback))]
      ensures action.Ok? && reload.Ok? ==>
        issues == NormaliseAll(reload.value, parseDate)
        && toasts == old(toasts) + [Success(success)]
      ensures action.Ok? && reload.Failed? ==>
        issues == old(issues)
        && toasts == old(toasts) + [Failure("Failed to load issues"), Success(success)]
    {
      if action.Failed? {
        toasts := toasts + [Failure(FrontAuth.ErrorText(action.message, fallback))];
        return false;
      }
      LoadIssues(reload);
      toasts := toasts + [Success(success)];
      ok := true;
    }

    method AssignEngineer(action: Reply<()>, reload: Reply<seq<RawIssue>>) returns (ok: bool)
      modifies this
      ensures engineers == old(engineers)
      ensures ok <==> action.Ok?
      ensures action.Failed? ==>
        && issues == old(issues)
        && toasts == old(toasts) + [Failure(FrontAuth.ErrorText(action.message, "Failed to assign engineer"))]
      ensures action.Ok? && reload.Ok? ==>
        && issues == NormaliseAll(reload.value, parseDate)
        && toasts == old(toasts) + [Success("Engineer assigned successfully")]
    {
      ok := ActThenReload(action, reload, "Engineer assigned successfully", "Failed to assign engineer");
    }

    method UnassignEngineer(action: Reply<()>, reload: Reply<seq<RawIssue>>) returns (ok: bool)
      modifies this
      ensures engineers == old(engineers)
      ensures ok <==> action.Ok?
      ensures action.Failed? ==>
        && issues == old(issues)
        && toasts == old(toasts) + [Failure(FrontAuth.ErrorText(action.message, "Failed to unassign engineer"))]
      ensures action.Ok? && reload.Ok? ==>
        && issues == NormaliseAll(reload.value, parseDate)
        && toasts == old(toasts) + [Success("Engineer unassigned")]
    {
      ok := ActThenReload(action, reload, "Engineer unassigned", "Failed to unassign engineer");
    }

    /** The success text names the new status: `Status updated to ${status}`. */
    method UpdateStatus(status: string, action: Reply<()>, reload: Reply<seq<RawIssue>>) returns (ok: bool)
      modifies this
      ensures engineers == old(engineers)
      ensures ok <==> action.Ok?
      ensures action.Failed? ==>
        && issues == old(issues)
        && toasts == old(toasts) + [Failure(FrontAuth.ErrorText(action.message, "Failed to update status"))]
      ensures action.Ok? && reload.Ok? ==>
        && issues == NormaliseAll(reload.value, parseDate)
        && toasts == old(toasts) + [Success("Status updated to " + status)]
    {
      ok := ActThenReload(action, reload, "Status updated to " + status, "Failed to update status");
    }

    method AddComment(action: Reply<()>, reload: Reply<seq<RawIssue>>) returns (ok: bool)
      modifies this
      ensures engineers == old(engineers)
      ensures ok <==> action.Ok?
      ensures action.Failed? ==>
        && issues == old(issues)
        && toasts == old(toasts) + [Failure(FrontAuth.ErrorText(action.message, "Failed to add comment"))]
      ensures action.Ok? && reload.Ok? ==>
        && issues == NormaliseAll(reload.value, parseDate)
        && toasts == old(toasts) + [Success("Comment added")]
    {
      ok := ActThenReload(action, reload, "Comment added", "Failed to add comment");
    }

    method BulkUpdate(action: Reply<()>, reload: Reply<seq<RawIssue>>) returns (ok: bool)
      modifies this
      ensures engineers == old(engineers)
      ensures ok <==> action.Ok?
      ensures action.Failed? ==>
        && issues == old(issues)
        && toasts == old(toasts) + [Failure(FrontAuth.ErrorText(action.message, "Failed to update issues"))]
      ensures action.Ok? && reload.Ok? ==>
        && issues == NormaliseAll(reload.value, parseDate)
        && toasts == old(toasts) + [Success("Issues updated successfully")]
    {
      ok := ActThenReload(action, reload, "Issues updated successfully", "Failed to update issues");
    }
  }
}
