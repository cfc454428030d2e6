/** The analytics page (src/pages/Analytics.jsx): issue counts by status, by
    priority and by category, each engineer's resolved and in-progress
    counts, the split of finished issues into on-time and late, and the SLA
    compliance percentage. Engineers are given by name. */
module Analytics {
  import opened Common
  import opened Domain
  import opened ProtoStore

  // ---------------------------------------------------------------------------
  // Status and priority distributions

  datatype StatusData = StatusData(open: nat, inProgress: nat, onHold: nat, resolved: nat, closed: nat)

  function HasStatus(s: Status): ProtoIssue -> bool {
    (i: ProtoIssue) => i.status == s
  }

  /** Every issue has exactly one status, so the five counts add up to the
      whole list. */
  lemma {:induction false} StatusCountsCoverAll(issues: seq<ProtoIssue>)
    ensures Count(issues, HasStatus(Open)) + Count(issues, HasStatus(InProgress))
          + Count(issues, HasStatus(OnHold)) + Count(issues, HasStatus(Resolved))
          + Count(issues, HasStatus(Closed)) == |issues|
  {
    if issues != [] {
      var t := issues[1..];
      StatusCountsCoverAll(t);
      CountHead(issues, HasStatus(Open));
      CountHead(issues, HasStatus(InProgress));
      CountHead(issues, HasStatus(OnHold));
      CountHead(issues, HasStatus(Resolved));
      CountHead(issues, HasStatus(Closed));
    }
  }

  /** The five status slices. */
  function StatusDistribution(issues: seq<ProtoIssue>): (d: StatusData)
    ensures d.open == Count(issues, HasStatus(Open))
    ensures d.inProgress == Count(issues, HasStatus(InProgress))
    ensures d.onHold == Count(issues, HasStatus(OnHold))
    ensures d.resolved == Count(issues, HasStatus(Resolved))
    ensures d.closed == Count(issues, HasStatus(Closed))
    ensures d.open + d.inProgress + d.onHold + d.resolved + d.closed == |issues|
  {
    StatusCountsCoverAll(issues);
    StatusData(Count(issues, HasStatus(Open)), Count(issues, HasStatus(InProgress)), Count(issues, HasStatus(OnHold)),
               Count(issues, HasStatus(Resolved)), Count(issues, HasStatus(Closed)))
  }

  datatype PriorityData = PriorityData(critical: nat, high: nat, medium: nat, low: nat)

  function HasPriority(p: Priority): ProtoIssue -> bool {
    (i: ProtoIssue) => i.priority == p
  }

  /** Likewise every issue has exactly one priority. */
  lemma {:induction false} PriorityCountsCoverAll(issues: seq<ProtoIssue>)
    ensures Count(issues, HasPriority(Critical)) + Count(issues, HasPriority(High))
          + Count(issues, HasPriority(Medium)) + Count(issues, HasPriority(Low)) == |issues|
  {
    if issues != [] {
      PriorityCountsCoverAll(issues[1..]);
    }
  }

  /** The four priority bars. */
  function PriorityDistribution(issues: seq<ProtoIssue>): (d: PriorityData)
    ensures d.critical == Count(issues, HasPriority(Critical))
    ensures d.high == Count(issues, HasPriority(High))
    ensures d.medium == Count(issues, HasPriority(Medium))
    ensures d.low == Count(issues, HasPriority(Low))
    ensures d.critical + d.high + d.medium + d.low == |issues|
  {
    PriorityCountsCoverAll(issues);
    PriorityData(Count(issues, HasPriority(Critical)), Count(issues, HasPriority(High)),
                 Count(issues, HasPriority(Medium)), Count(issues, HasPriority(Low)))
  }

  // ---------------------------------------------------------------------------
  // Category distribution: a dictionary filled by one pass over the issues

  function InCategory(c: string): ProtoIssue -> bool {
    (i: ProtoIssue) => i.category == c
  }

  predicate HasCategory(issues: seq<ProtoIssue>, c: string) {
    exists i :: i in issues && i.category == c
  }

  predicate Distinct(names: seq<string>) {
    forall j, k :: 0 <= j < k < |names| ==> names[j] != names[k]
  }

  /** `Object.entries(map)` for a dictionary whose keys were inserted in the
      order `order`. */
  function Entries(order: seq<string>, counts: map<string, nat>): (d: seq<(string, nat)>)
    requires forall c :: c in order ==> c in counts
    ensures |d| == |order|
    ensures forall k :: 0 <= k < |d| ==> d[k] == (order[k], counts[order[k]])
  {
    seq(|order|, k requires 0 <= k < |order| => (order[k], counts[order[k]]))
  }

  /** The sum of the bar heights. */
  function Total(d: seq<(string, nat)>): nat {
    if d == [] then 0 else Total(d[..|d| - 1]) + d[|d| - 1].1
  }

  lemma {:induction false} TotalAgree(d1: seq<(string, nat)>, d2: seq<(string, nat)>)
    requires |d1| == |d2|
    requires forall k :: 0 <= k < |d1| ==> d1[k].1 == d2[k].1
    ensures Total(d1) == Total(d2)
  {
    if d1 != [] {
      TotalAgree(d1[..|d1| - 1], d2[..|d2| - 1]);
    }
  }

  /** Raising one bar by one raises the sum by one. */
  lemma {:induction false} TotalBump(d1: seq<(string, nat)>, d2: seq<(string, nat)>, k: nat)
    requires |d1| == |d2| && k < |d1|
    requires d2[k].1 == d1[k].1 + 1
    requires forall j :: 0 <= j < |d1| && j != k ==> d1[j].1 == d2[j].1
    ensures Total(d2) == Total(d1) + 1
  {
    var n := |d1| - 1;
    if k == n {
      TotalAgree(d1[..n], d2[..n]);
    } else {
      TotalBump(d1[..n], d2[..n], k);
    }
  }

  /** `map[c] = (map[c] || 0) + 1`. */
  function Bump(counts: map<string, nat>, c: string): (r: map<string, nat>)
    ensures r.Keys == counts.Keys + {c}
    ensures r[c] == (if c in counts then counts[c] else 0) + 1
    ensures forall d :: d in counts && d != c ==> r[d] == counts[d]
  {
    counts[c := (if c in counts then counts[c] else 0) + 1]
  }

  /** The dictionary's key order: a key is placed when it is first written. */
  function Place(order: seq<string>, c: string): (r: seq<string>)
    ensures c in order ==> r == order
    ensures c !in order ==> r == order + [c]
  {
    if c in order then order else order + [c]
  }

  /** `counts` holds, for every category, how many issues of `s` have it;
      categories with no issue have no key. */
  ghost predicate Tallies(counts: map<string, nat>, s: seq<ProtoIssue>) {
    forall c :: Count(s, InCategory(c)) == (if c in counts then counts[c] else 0)
  }

  /** Keys are listed once each, in `order`, and every stored count is
      positive. */
  ghost predicate Shape(order: seq<string>, counts: map<string, nat>) {
    && Distinct(order)
    && (forall c :: c in counts <==> c in order)
    && (forall c :: c in counts ==> counts[c] > 0)
  }

  lemma TalliesStep(counts: map<string, nat>, issues: seq<ProtoIssue>, n: nat)
    requires n < |issues| && Tallies(counts, issues[..n])
    ensures Tallies(Bump(counts, issues[n].category), issues[..n + 1])
  {
    var s, x := issues[..n], issues[n];
    assert issues[..n + 1] == s + [x];
    forall c
      ensures Count(s + [x], InCategory(c)) == (if c in Bump(counts, x.category) then Bump(counts, x.category)[c] else 0)
    {
      CountSnoc(s, x, InCategory(c));
    }
  }

  /** Each bump adds one to the sum of the entries. */
  lemma TotalStep(order: seq<string>, counts: map<string, nat>, c: string)
    requires Distinct(order)
    requires forall d :: d in counts <==> d in order
    ensures Total(Entries(Place(order, c), Bump(counts, c))) == Total(Entries(order, counts)) + 1
  {
    var before := Entries(order, counts);
    var after := Entries(Place(order, c), Bump(counts, c));
    if c in order {
      var k :| 0 <= k < |order| && order[k] == c;
      TotalBump(before, after, k);
    } else {
      TotalAgree(before, after[..|order|]);
    }
  }

  lemma ShapeStep(order: seq<string>, counts: map<string, nat>, c: string)
    requires Shape(order, counts)
    ensures Shape(Place(order, c), Bump(counts, c))
  {
    var next := Place(order, c);
    if c !in order {
      forall j, k | 0 <= j < k < |next|
        ensures next[j] != next[k]
      {
        if k == |order| {
          assert next[j] == order[j];
        }
      }
    }
  }

  /** The `categoryMap` loop followed by `Object.entries`: one entry per
      distinct category, in the order the categories first appear, each with
      its number of issues; the entries add up to the whole list. */
  method CategoryDistribution(issues: seq<ProtoIssue>) returns (data: seq<(string, nat)>)
    ensures Distinct(Names(data))
    ensures forall k :: 0 <= k < |data| ==> HasCategory(issues, data[k].0)
    ensures forall i :: i in issues ==> exists k :: 0 <= k < |data| && data[k].0 == i.category
    ensures forall k :: 0 <= k < |data| ==> data[k].1 == Count(issues, InCategory(data[k].0))
    ensures Total(data) == |issues|
  {
    var counts: map<string, nat> := map[];
    var order: seq<string> := [];
    TallyStart(issues);
    for n := 0 to |issues|
      invariant Shape(order, counts)
      invariant Tallies(counts, issues[..n])
      invariant Total(Entries(order, counts)) == n
    {
      TallyStep(order, counts, issues, n);
      order := Place(order, issues[n].category);
      counts := Bump(counts, issues[n].category);
    }
    assert issues[..|issues|] == issues;
    data := Entries(order, counts);
    TalliedEntries(order, counts, issues, data);
  }

  lemma TallyStart(issues: seq<ProtoIssue>)
    ensures Shape([], map[]) && Tallies(map[], issues[..0])
  {
    assert issues[..0] == [];
  }

  /** One turn of the loop keeps all three invariants. */
  lemma TallyStep(order: seq<string>, counts: map<string, nat>, issues: seq<ProtoIssue>, n: nat)
    requires n < |issues|
    requires Shape(order, counts) && Tallies(counts, issues[..n])
    ensures Shape(Place(order, issues[n].category), Bump(counts, issues[n].category))
    ensures Tallies(Bump(counts, issues[n].category), issues[..n + 1])
    ensures Total(Entries(Place(order, issues[n].category), Bump(counts, issues[n].category)))
         == Total(Entries(order, counts)) + 1
  {
    var c := issues[n].category;
    ShapeStep(order, counts, c);
    TalliesStep(counts, issues, n);
    TotalStep(order, counts, c);
  }

  /** Reading off the finished dictionary: its entries name exactly the
      categories that occur, once each, with their counts. */
  lemma TalliedEntries(order: seq<string>, counts: map<string, nat>, issues: seq<ProtoIssue>, data: seq<(string, nat)>)
    requires Shape(order, counts)
    requires Tallies(counts, issues)
    requires data == Entries(order, counts)
    ensures Distinct(Names(data))
    ensures forall k :: 0 <= k < |data| ==> HasCategory(issues, data[k].0)
    ensures forall i :: i in issues ==> exists k :: 0 <= k < |data| && data[k].0 == i.category
    ensures forall k :: 0 <= k < |data| ==> data[k].1 == Count(issues, InCategory(data[k].0))
  {
    assert Names(data) == order;
    forall k | 0 <= k < |data|
      ensures HasCategory(issues, data[k].0)
    {
      assert Count(issues, InCategory(order[k])) > 0;
      var found := Filter(issues, InCategory(data[k].0));
      assert found[0] in found;
    }
    forall i | i in issues
      ensures exists k :: 0 <= k < |data| && data[k].0 == i.category
    {
      assert i in Filter(issues, InCategory(i.category));
      assert i.category in order;
    }
  }

  function Names(d: seq<(string, nat)>): (r: seq<string>)
    ensures |r| == |d|
    ensures forall k :: 0 <= k < |d| ==> r[k] == d[k].0
  {
    seq(|d|, k requires 0 <= k < |d| => d[k].0)
  }

  // ---------------------------------------------------------------------------
  // Engineer productivity

  /** The first space-free run of `s`: everything before its first space. */
  function UpToSpace(s: string): (r: string)
    ensures r <= s
    ensures ' ' !in r
    ensures |r| < |s| ==> s[|r|] == ' '
  {
    if s == [] || s[0] == ' ' then [] else [s[0]] + UpToSpace(s[1..])
  }

  /** `name.split(' ')[1] || name`: the second space-separated piece when
      there is one and it is not empty, otherwise the whole name. */
  function ChartLabel(name: string): (r: string)
    ensures ' ' !in name ==> r == name
    ensures r == name || (r != [] && ' ' !in r && Contains(name, " " + r))
  {
    var first := UpToSpace(name);
    if |first| == |name| then
      assert first == name;
      name
    else
      var second := UpToSpace(name[|first| + 1..]);
      if second == [] then name
      else
        assert name[|first|..|first| + 1 + |second|] == " " + second;
        ContainsAt(name, " " + second, |first|);
        second
  }

  /** The first run ends at the first space. */
  lemma {:induction false} UpToSpaceOf(a: string, b: string)
    requires ' ' !in a && (b == [] || b[0] == ' ')
    ensures UpToSpace(a + b) == a
    decreases |a|
  {
    if a == [] {
      assert a + b == b;
    } else {
      assert (a + b)[0] == a[0] && (a + b)[1..] == a[1..] + b;
      UpToSpaceOf(a[1..], b);
    }
  }

  /** A name of two or more words is labelled with its second word, and a
      name whose second piece is empty (two spaces in a row, or a trailing
      space) keeps its whole self. */
  lemma ChartLabelOfWords(first: string, second: string, rest: string)
    requires ' ' !in first && ' ' !in second
    requires rest == [] || rest[0] == ' '
    ensures second != [] ==> ChartLabel(first + " " + second + rest) == second
    ensures second == [] ==> ChartLabel(first + " " + rest) == first + " " + rest
  {
    var name := first + " " + second + rest;
    UpToSpaceOf(first, " " + second + rest);
    assert name == first + (" " + second + rest);
    assert name[|first| + 1..] == second + rest;
    UpToSpaceOf(second, rest);
    var name2 := first + " " + rest;
    UpToSpaceOf(first, " " + rest);
    assert name2 == first + (" " + rest);
    assert name2[|first| + 1..] == rest;
    UpToSpaceOf([], rest);
  }

  datatype Productivity = Productivity(shortName: string, resolved: nat, inProgress: nat)

  function ResolvedBy(name: string): ProtoIssue -> bool {
    (i: ProtoIssue) => i.assignedTo == Some(name) && IsDone(i.status)
  }

  function WorkingOn(name: string): ProtoIssue -> bool {
    (i: ProtoIssue) => i.assignedTo == Some(name) && i.status == InProgress
  }

  function AssignedTo(name: string): ProtoIssue -> bool {
    (i: ProtoIssue) => i.assignedTo == Some(name)
  }

  /** One engineer's bar pair. Issues are matched on the assignee's name; the
      two counts never exceed the issues assigned to that name. */
  function ProductivityOf(issues: seq<ProtoIssue>, name: string): (p: Productivity)
    ensures p.shortName == ChartLabel(name)
    ensures p.resolved == Count(issues, ResolvedBy(name))
    ensures p.inProgress == Count(issues, WorkingOn(name))
    ensures p.resolved + p.inProgress <= Count(issues, AssignedTo(name))
  {
    var either := (i: ProtoIssue) => ResolvedBy(name)(i) || WorkingOn(name)(i);
    CountDisjointUnion(issues, either, ResolvedBy(name), WorkingOn(name));
    CountMonotone(issues, either, AssignedTo(name));
    Productivity(ChartLabel(name), Count(issues, ResolvedBy(name)), Count(issues, WorkingOn(name)))
  }

  /** One bar pair per engineer, in the engineers' order. */
  function EngineerProductivity(issues: seq<ProtoIssue>, engineers: seq<string>): (r: seq<Productivity>)
    ensures |r| == |engineers|
    ensures forall k :: 0 <= k < |r| ==> r[k] == ProductivityOf(issues, engineers[k])
  {
    seq(|engineers|, k requires 0 <= k < |engineers| => ProductivityOf(issues, engineers[k]))
  }

  // ---------------------------------------------------------------------------
  // SLA performance

  predicate Finished(i: ProtoIssue) {
    IsDone(i.status)
  }

  /** Resolved no later than the deadline; an issue with no resolution time
      counts as neither on time nor late. */
  predicate OnTime(i: ProtoIssue) {
    i.resolvedAt.Some? && i.resolvedAt.value <= i.slaDeadline
  }

  predicate Late(i: ProtoIssue) {
    i.resolvedAt.Some? && i.resolvedAt.value > i.slaDeadline
  }

  datatype SlaSplit = SlaSplit(finished: nat, onTime: nat, late: nat)

  function SlaPerformance(issues: seq<ProtoIssue>): (s: SlaSplit)
    ensures s.finished == Count(issues, Finished)
    ensures s.onTime == Count(Filter(issues, Finished), OnTime)
    ensures s.late == Count(Filter(issues, Finished), Late)
    ensures s.onTime + s.late <= s.finished
    ensures s.onTime + s.late == s.finished <==> forall i :: i in issues && Finished(i) ==> i.resolvedAt.Some?
  {
    var done := Filter(issues, Finished);
    var stamped := (i: ProtoIssue) => i.resolvedAt.Some?;
    CountDisjointUnion(done, stamped, OnTime, Late);
    CountAllIff(done, stamped);
    SlaSplit(|done|, Count(done, OnTime), Count(done, Late))
  }

  /** A count reaches the length exactly when every element qualifies. */
  lemma {:induction false} CountAllIff<T(!new)>(s: seq<T>, p: T -> bool)
    ensures Count(s, p) == |s| <==> forall x :: x in s ==> p(x)
  {
    if s != [] {
      CountAllIff(s[1..], p);
      assert forall x :: x in s <==> x == s[0] || x in s[1..];
    }
  }

  /** Integer division brackets its dividend. */
  lemma DivBounds(x: nat, m: nat)
    requires 0 < m
    ensures m * (x / m) <= x < m * (x / m) + m
  {
  }

  /** A positive factor can be cancelled from a strict inequality. */
  lemma MulLtCancel(m: int, a: int, b: int)
    requires 0 < m && m * a < m * b
    ensures a < b
  {
  }

  /** `Math.round(100 * part / whole)` on exact rationals: the nearest
      integer, halves rounded up. */
  function RoundedPercent(part: nat, whole: nat): (r: nat)
    requires 0 < whole && part <= whole
    ensures r <= 100
    ensures 2 * whole * r <= 200 * part + whole < 2 * whole * (r + 1)
  {
    var m := 2 * whole;
    var r := (200 * part + whole) / m;
    DivBounds(200 * part + whole, m);
    assert m * r < m * 101;
    MulLtCancel(m, r, 101);
    r
  }

  /** The compliance card: 0 with nothing finished, else the rounded share of
      finished issues that met their deadline. */
  function Compliance(issues: seq<ProtoIssue>): (r: nat)
    ensures r <= 100
    ensures Count(issues, Finished) == 0 ==> r == 0
    ensures var n := Count(issues, Finished); var t := SlaPerformance(issues).onTime;
      n > 0 ==> 2 * n * r <= 200 * t + n < 2 * n * (r + 1)
  {
    var s := SlaPerformance(issues);
    if s.finished > 0 then RoundedPercent(s.onTime, s.finished) else 0
  }

  /** More issues on time never lowers the percentage. */
  lemma RoundedPercentMonotone(a: nat, b: nat, whole: nat)
    requires 0 < whole && a <= b <= whole
    ensures RoundedPercent(a, whole) <= RoundedPercent(b, whole)
  {
    var m := 2 * whole;
    var ra := RoundedPercent(a, whole);
    var rb := RoundedPercent(b, whole);
    assert m * ra <= 200 * a + whole <= 200 * b + whole < m * (rb + 1);
    MulLtCancel(m, ra, rb + 1);
  }

  /** Everything on time is 100%, nothing on time is 0%. */
  lemma RoundedPercentExtremes(whole: nat)
    requires 0 < whole
    ensures RoundedPercent(whole, whole) == 100
    ensures RoundedPercent(0, whole) == 0
  {
    var m := 2 * whole;
    var full := RoundedPercent(whole, whole);
    assert m * 100 < m * (full + 1);
    MulLtCancel(m, 100, full + 1);
    var none := RoundedPercent(0, whole);
    assert m * none < m * 1;
    MulLtCancel(m, none, 1);
  }
}
