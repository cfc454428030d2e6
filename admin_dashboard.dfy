/** The administrator's dashboard (src/components/dashboards/AdminDashboard.jsx):
    headline counts, the unassigned list, the five most recent issues and the
    per-engineer active counts with their capped bar widths. */
module AdminDashboard {
  import opened Common
  import opened Domain
  import opened ProtoStore
  import SlaTimer

  /** `!i.assignedTo`: no assignee, or the empty name. */
  predicate Unassigned(i: ProtoIssue) {
    i.assignedTo.None? || i.assignedTo.value == ""
  }

  predicate NeedsAssignee(i: ProtoIssue) {
    Unassigned(i) && i.status != Closed
  }

  predicate OverdueAt(i: ProtoIssue, now: int) {
    !IsDone(i.status) && SlaTimer.IsOverdue(i.slaDeadline, now)
  }

  datatype Stats = Stats(total: nat, open: nat, inProgress: nat, resolved: nat, unassigned: nat, overdue: nat)

  /** The waiting-for-an-engineer list: no assignee and not closed. */
  function UnassignedIssues(issues: seq<ProtoIssue>): (r: seq<ProtoIssue>)
    ensures forall i :: i in r <==> i in issues && NeedsAssignee(i)
    ensures IsSubsequence(r, issues)
  {
    FilterIsSubsequence(issues, NeedsAssignee);
    Filter(issues, NeedsAssignee)
  }

  /** The stat cards. */
  function StatsOf(issues: seq<ProtoIssue>, now: int): (s: Stats)
    ensures s.total == |issues|
    ensures s.open == Count(issues, (i: ProtoIssue) => i.status == Open)
    ensures s.inProgress == Count(issues, (i: ProtoIssue) => i.status == InProgress)
    ensures s.resolved == Count(issues, (i: ProtoIssue) => IsDone(i.status))
    ensures s.unassigned == |UnassignedIssues(issues)|
    ensures s.overdue == Count(issues, (i: ProtoIssue) => OverdueAt(i, now))
    ensures s.open + s.inProgress + s.resolved <= s.total
    ensures s.resolved + s.overdue <= s.total
  {
    var open := (i: ProtoIssue) => i.status == Open;
    var inProgress := (i: ProtoIssue) => i.status == InProgress;
    var resolved := (i: ProtoIssue) => IsDone(i.status);
    var overdue := (i: ProtoIssue) => OverdueAt(i, now);
    var openOrIn := (i: ProtoIssue) => i.status == Open || i.status == InProgress;
    var three := (i: ProtoIssue) => openOrIn(i) || resolved(i);
    var doneOrLate := (i: ProtoIssue) => resolved(i) || overdue(i);
    CountDisjointUnion(issues, openOrIn, open, inProgress);
    CountDisjointUnion(issues, three, openOrIn, resolved);
    CountDisjointUnion(issues, doneOrLate, resolved, overdue);
    Stats(|issues|, Count(issues, open), Count(issues, inProgress), Count(issues, resolved),
          |UnassignedIssues(issues)|, Count(issues, overdue))
  }

  function CreatedAt(i: ProtoIssue): int { i.createdAt }

  /** The recent-issues panel. The sort runs on the shared list itself, so
      afterwards the whole list is newest first; the panel shows its first
      five. */
  method RecentIssues(a: array<ProtoIssue>) returns (recent: seq<ProtoIssue>)
    modifies a
    ensures multiset(a[..]) == multiset(old(a[..]))
    ensures SortedDesc(a[..], CreatedAt)
    ensures recent == a[..Min(5, a.Length)]
    ensures |recent| <= 5
    ensures forall j, k :: 0 <= j < |recent| <= k < a.Length ==> a[j].createdAt >= a[k].createdAt
  {
    var sorted := SortDesc(a[..], CreatedAt);
    var n := 0;
    while n < a.Length
      invariant 0 <= n <= a.Length
      invariant forall j :: 0 <= j < n ==> a[j] == sorted[j]
      invariant |sorted| == a.Length
    {
      a[n] := sorted[n];
      n := n + 1;
    }
    assert a[..] == sorted;
    recent := a[..Min(5, a.Length)];
    forall j, k | 0 <= j < |recent| <= k < a.Length
      ensures a[j].createdAt >= a[k].createdAt
    {
      SortedDescPairwise(a[..], CreatedAt, j, k);
    }
  }

  /** An engineer's active issues: assigned to their name and not closed. */
  function ActiveCount(issues: seq<ProtoIssue>, name: string): (n: nat)
    ensures n <= |issues|
    ensures n == |Filter(issues, (i: ProtoIssue) => i.assignedTo == Some(name) && i.status != Closed)|
  {
    Count(issues, (i: ProtoIssue) => i.assignedTo == Some(name) && i.status != Closed)
  }

  /** The workload bar: ten points per active issue, capped at 100. */
  function BarWidth(active: nat): (w: nat)
    ensures w <= 100
    ensures w == 100 <==> active >= 10
    ensures active < 10 ==> w == 10 * active
  {
    Min(10 * active, 100)
  }

  lemma BarWidthMonotone(a: nat, b: nat)
    requires a <= b
    ensures BarWidth(a) <= BarWidth(b)
  {
  }
}
