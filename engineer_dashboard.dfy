/** The engineer's dashboard (src/components/dashboards/EngineerDashboard.jsx):
    the engineer's issues picked out by assignee name, and the overdue and
    due-soon selections among those still unfinished. */
module EngineerDashboard {
  import opened Common
  import opened Domain
  import opened ProtoStore
  import SlaTimer

  function AssignedTo(name: string): ProtoIssue -> bool {
    (i: ProtoIssue) => i.assignedTo == Some(name)
  }

  /** Still open and past its deadline. */
  predicate OverdueAt(i: ProtoIssue, now: int) {
    !IsDone(i.status) && SlaTimer.IsOverdue(i.slaDeadline, now)
  }

  /** Still open and due within two hours, with time left. */
  predicate DueSoonAt(i: ProtoIssue, now: int) {
    !IsDone(i.status) && SlaTimer.IsUrgent(i.slaDeadline, now)
  }

  function Assigned(issues: seq<ProtoIssue>, name: string): (r: seq<ProtoIssue>)
    ensures forall i :: i in r <==> i in issues && i.assignedTo == Some(name)
    ensures IsSubsequence(r, issues)
  {
    FilterIsSubsequence(issues, AssignedTo(name));
    Filter(issues, AssignedTo(name))
  }

  function InProgressOf(mine: seq<ProtoIssue>): (r: seq<ProtoIssue>)
    ensures forall i :: i in r <==> i in mine && i.status == InProgress
  {
    Filter(mine, (i: ProtoIssue) => i.status == InProgress)
  }

  function OverdueOf(mine: seq<ProtoIssue>, now: int): (r: seq<ProtoIssue>)
    ensures forall i :: i in r <==> i in mine && OverdueAt(i, now)
  {
    Filter(mine, (i: ProtoIssue) => OverdueAt(i, now))
  }

  function NegDeadline(i: ProtoIssue): int { -i.slaDeadline }

  function DueSoon(now: int): ProtoIssue -> bool {
    (i: ProtoIssue) => DueSoonAt(i, now)
  }

  /** The due-soon issues, soonest deadline first. */
  function Upcoming(mine: seq<ProtoIssue>, now: int): (r: seq<ProtoIssue>)
    ensures forall i :: i in r <==> i in mine && DueSoonAt(i, now)
    ensures multiset(r) == multiset(Filter(mine, DueSoon(now)))
    ensures forall j, k :: 0 <= j < k < |r| ==> r[j].slaDeadline <= r[k].slaDeadline
  {
    var soon := Filter(mine, DueSoon(now));
    var r := SortDesc(soon, NegDeadline);
    SortDescSameElements(soon, NegDeadline);
    forall j, k | 0 <= j < k < |r|
      ensures r[j].slaDeadline <= r[k].slaDeadline
    {
      SortedDescPairwise(r, NegDeadline, j, k);
    }
    r
  }

  /** The panel shows at most three of them: the three soonest. */
  function UpcomingShown(mine: seq<ProtoIssue>, now: int): (r: seq<ProtoIssue>)
    ensures |r| <= 3
    ensures |r| == Min(3, Count(mine, DueSoon(now)))
    ensures forall i :: i in r ==> i in mine && DueSoonAt(i, now)
    ensures r == Upcoming(mine, now)[..|r|]
  {
    var all := Upcoming(mine, now);
    all[..Min(3, |all|)]
  }

  /** Every shown issue is due no later than any due-soon issue left out. */
  lemma ShownAreSoonest(mine: seq<ProtoIssue>, now: int, k: nat)
    requires |UpcomingShown(mine, now)| <= k < |Upcoming(mine, now)|
    ensures forall i :: i in UpcomingShown(mine, now) ==>
      i.slaDeadline <= Upcoming(mine, now)[k].slaDeadline
  {
    var all := Upcoming(mine, now);
    var shown := UpcomingShown(mine, now);
    forall i | i in shown
      ensures i.slaDeadline <= all[k].slaDeadline
    {
      var j :| 0 <= j < |shown| && shown[j] == i;
      assert all[j] == i;
    }
  }

  /** No issue is both overdue and due soon. */
  lemma OverdueAndUpcomingDisjoint(mine: seq<ProtoIssue>, now: int)
    ensures forall i :: !(i in OverdueOf(mine, now) && i in Upcoming(mine, now))
  {
  }

  /** The "Resolved" card: the engineer's issues that are resolved or closed. */
  function ResolvedCount(mine: seq<ProtoIssue>): (n: nat)
    ensures n <= |mine|
    ensures n + Count(mine, (i: ProtoIssue) => !IsDone(i.status)) == |mine|
  {
    var done := (i: ProtoIssue) => IsDone(i.status);
    var notDone := (i: ProtoIssue) => !IsDone(i.status);
    CountDisjointUnion(mine, (i: ProtoIssue) => true, done, notDone);
    CountTrue(mine, (i: ProtoIssue) => true);
    Count(mine, done)
  }
}
