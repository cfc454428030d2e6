/** The issue list page of the API front end (front/src/pages/Issues.jsx):
    the search and the two drop-down filters, the check-box selection used by
    bulk actions, and the red "overdue" card. */
module IssuesPage {
  import opened Common
  import opened FrontIssueContext

  const All := "all"

  /** The search box: the lower-cased term occurs in the lower-cased title,
      description or category. */
  predicate MatchesSearch(issue: FrontIssue, term: string) {
    || ContainsIgnoringCase(issue.title, term)
    || ContainsIgnoringCase(issue.description, term)
    || ContainsIgnoringCase(issue.category, term)
  }

  /** The whole test `filteredIssues` applies to one issue. */
  predicate Passes(issue: FrontIssue, term: string, statusFilter: string, priorityFilter: string) {
    && MatchesSearch(issue, term)
    && (statusFilter == All || issue.status == statusFilter)
    && (priorityFilter == All || issue.priority == priorityFilter)
  }

  function PassTest(term: string, statusFilter: string, priorityFilter: string): FrontIssue -> bool {
    (issue: FrontIssue) => Passes(issue, term, statusFilter, priorityFilter)
  }

  /** `filteredIssues`: the issues that pass, in the store's order. */
  function FilteredIssues(issues: seq<FrontIssue>, term: string, statusFilter: string, priorityFilter: string)
    : (r: seq<FrontIssue>)
    ensures forall i :: i in r <==> i in issues && Passes(i, term, statusFilter, priorityFilter)
    ensures IsSubsequence(r, issues)
  {
    FilterIsSubsequence(issues, PassTest(term, statusFilter, priorityFilter));
    Filter(issues, PassTest(term, statusFilter, priorityFilter))
  }

  /** An empty search term matches every issue, so with both drop-downs on
      "all" the page lists every issue. */
  lemma EmptySearchShowsEverything(issues: seq<FrontIssue>)
    ensures FilteredIssues(issues, "", All, All) == issues
  {
    forall i | i in issues
      ensures PassTest("", All, All)(i)
    {
      assert Lower("") == [];
      assert Contains(Lower(i.title), []);
    }
    FilterAll(issues, PassTest("", All, All));
  }

  /** The search ignores the case of the term. */
  lemma SearchIgnoresCase(issue: FrontIssue, term: string)
    ensures MatchesSearch(issue, Lower(term)) <==> MatchesSearch(issue, term)
  {
    LowerIdempotent(term);
  }

  /** Choosing a status only narrows the list shown for "all". */
  lemma StatusFilterNarrows(issues: seq<FrontIssue>, term: string, statusFilter: string, priorityFilter: string)
    ensures forall i :: i in FilteredIssues(issues, term, statusFilter, priorityFilter) ==>
      i in FilteredIssues(issues, term, All, priorityFilter) && (statusFilter == All || i.status == statusFilter)
  {
  }

  function NotId(id: string): string -> bool {
    (x: string) => x != id
  }

  /** `handleSelectIssue`: a selected id is removed (every copy), an
      unselected one is appended. */
  function ToggleSelection(selected: seq<string>, id: string): (r: seq<string>)
    ensures id in r <==> id !in selected
    ensures forall x :: x != id ==> (x in r <==> x in selected)
    ensures id !in selected ==> r == selected + [id]
    ensures id in selected ==> IsSubsequence(r, selected) && |r| < |selected|
  {
    if id in selected then
      FilterIsSubsequence(selected, NotId(id));
      FilterDrops(selected, NotId(id), id);
      Filter(selected, NotId(id))
    else selected + [id]
  }

  /** Toggling the same id twice restores which ids are selected, and an id
      that was not selected leaves the selection exactly as it was. */
  lemma ToggleSelectionTwice(selected: seq<string>, id: string)
    ensures forall x :: x in ToggleSelection(ToggleSelection(selected, id), id) <==> x in selected
    ensures id !in selected ==> ToggleSelection(ToggleSelection(selected, id), id) == selected
  {
    if id !in selected {
      FilterConcat(selected, [id], NotId(id));
      assert Filter([id], NotId(id)) == [];
      FilterAll(selected, NotId(id));
    }
  }

  function Ids(issues: seq<FrontIssue>): (r: seq<string>)
    ensures |r| == |issues|
    ensures forall k :: 0 <= k < |issues| ==> r[k] == issues[k].id
  {
    seq(|issues|, k requires 0 <= k < |issues| => issues[k].id)
  }

  /** `new Date(issue.slaDeadline)`: a missing deadline is the time 0. */
  function DeadlineTime(issue: FrontIssue): int {
    issue.slaDeadline.GetOr(0)
  }

  predicate Finished(issue: FrontIssue) {
    issue.status == "resolved" || issue.status == "closed"
  }

  /** The card's `isOverdue` as written. */
  predicate IsOverdueAsWritten(issue: FrontIssue, now: int) {
    DeadlineTime(issue) < now && !Finished(issue)
  }

  /** An issue created without a deadline (the create route lets it be left
      out) is shown as overdue at any time after 1970. */
  lemma MissingDeadlineShowsOverdue(issue: FrontIssue, now: int)
    requires issue.slaDeadline.None? && issue.status == "open" && now > 0
    ensures IsOverdueAsWritten(issue, now)
  {
  }

  /** The intended reading: an unfinished issue whose deadline has passed. */
  predicate IsOverdue(issue: FrontIssue, now: int) {
    issue.slaDeadline.Some? && issue.slaDeadline.value < now && !Finished(issue)
  }

  /** The two agree wherever there is a deadline, an issue with none is
      never overdue, and an overdue issue stays overdue as time passes. */
  lemma IsOverdueAgreesWithDeadline(issue: FrontIssue, now: int, later: int)
    requires now <= later
    ensures issue.slaDeadline.Some? ==> (IsOverdue(issue, now) <==> IsOverdueAsWritten(issue, now))
    ensures issue.slaDeadline.None? ==> !IsOverdue(issue, now)
    ensures IsOverdue(issue, now) ==> IsOverdue(issue, later)
    ensures IsOverdue(issue, now) ==> IsOverdueAsWritten(issue, now)
  {
  }

  /** The selection after select-all: when as many ids are selected as
      issues are shown it is cleared, otherwise it becomes exactly the shown
      issues' ids. Only the counts are compared. */
  function SelectAllResult(selected: seq<string>, shown: seq<FrontIssue>): (r: seq<string>)
    ensures |selected| == |shown| ==> r == []
    ensures |selected| != |shown| ==>
      && |r| == |shown|
      && (forall i :: i in shown ==> i.id in r)
      && (forall x :: x in r ==> exists i :: i in shown && i.id == x)
  {
    if |selected| == |shown| then []
    else
      var r := Ids(shown);
      assert forall k :: 0 <= k < |shown| ==> r[k] == shown[k].id;
      r
  }

  /** Select-all compares counts, not ids: one id selected while one other
      issue is shown clears the selection instead of selecting that issue. */
  lemma SelectAllComparesCounts(issue: FrontIssue, other: string)
    requires issue.id != other
    ensures SelectAllResult([other], [issue]) == []
  {
  }

  /** From an empty selection of a non-empty list, select-all selects every
      issue shown, and a second click clears the selection. */
  lemma SelectAllTwice(shown: seq<FrontIssue>)
    requires |shown| > 0
    ensures forall i :: i in shown ==> i.id in SelectAllResult([], shown)
    ensures SelectAllResult(SelectAllResult([], shown), shown) == []
  {
  }

  class IssueList {
    var searchTerm: string
    var statusFilter: string
    var priorityFilter: string
    var selected: seq<string>
    var showBulkActions: bool

    constructor ()
      ensures searchTerm == "" && statusFilter == All && priorityFilter == All
      ensures selected == [] && !showBulkActions
    {
      searchTerm := "";
      statusFilter := All;
      priorityFilter := All;
      selected := [];
      showBulkActions := false;
    }

    /** The list under the current search and filters. */
    function Shown(issues: seq<FrontIssue>): seq<FrontIssue>
      reads this
    {
      FilteredIssues(issues, searchTerm, statusFilter, priorityFilter)
    }

    /** The bulk-action bar is shown only when switched on and something is
        selected. */
    predicate BulkBarShown()
      reads this
    {
      showBulkActions && |selected| > 0
    }

    method SetFilters(term: string, status: string, priority: string)
      modifies this
      ensures searchTerm == term && statusFilter == status && priorityFilter == priority
      ensures selected == old(selected) && showBulkActions == old(showBulkActions)
    {
      searchTerm := term;
      statusFilter := status;
      priorityFilter := priority;
    }

    method SelectIssue(id: string)
      modifies this
      ensures selected == ToggleSelection(old(selected), id)
      ensures searchTerm == old(searchTerm) && statusFilter == old(statusFilter)
      ensures priorityFilter == old(priorityFilter) && showBulkActions == old(showBulkActions)
    {
      selected := ToggleSelection(selected, id);
    }

    /** `handleSelectAll`. */
    method SelectAll(issues: seq<FrontIssue>)
      modifies this
      ensures selected == SelectAllResult(old(selected), old(Shown(issues)))
      ensures searchTerm == old(searchTerm) && statusFilter == old(statusFilter)
      ensures priorityFilter == old(priorityFilter) && showBulkActions == old(showBulkActions)
    {
      var shown := Shown(issues);
      if |selected| == |shown| {
        selected := [];
      } else {
        selected := Ids(shown);
      }
    }

    /** The Bulk Actions button. */
    method ToggleBulkActions()
      modifies this
      ensures showBulkActions == !old(showBulkActions) && selected == old(selected)
      ensures searchTerm == old(searchTerm) && statusFilter == old(statusFilter)
      ensures priorityFilter == old(priorityFilter)
    {
      showBulkActions := !showBulkActions;
    }

    /** The bar's `onClear`. */
    method ClearSelection()
      modifies this
      ensures selected == [] && !BulkBarShown()
      ensures showBulkActions == old(showBulkActions) && searchTerm == old(searchTerm)
      ensures statusFilter == old(statusFilter) && priorityFilter == old(priorityFilter)
    {
      selected := [];
    }
  }
}
