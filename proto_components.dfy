/** The prototype's issue-editing widgets: the status menu
    (src/components/StatusUpdater.jsx), the engineer picker
    (src/components/EngineerAssignment.jsx) and the bulk toolbar
    (src/components/BulkActions.jsx). Each is a class holding its own
    component state; the store is passed in. Toast messages are left out. */
module ProtoComponents {
  import opened Common
  import opened Domain
  import opened ProtoStore

  /** The update the status menu sends: the status, plus `resolvedAt` = now
      when the status is resolved or closed. It never sends `closedAt`. */
  function StatusUpdates(s: Status, now: int): (u: ProtoUpdates)
    ensures u.status == Some(s)
    ensures IsDone(s) ==> u.resolvedAt == Some(Some(now))
    ensures !IsDone(s) ==> u.resolvedAt.None?
    ensures u.(status := None, resolvedAt := None) == NoUpdates
  {
    var updates := NoUpdates.(status := Some(s));
    if IsDone(s) then updates.(resolvedAt := Some(Some(now))) else updates
  }

  /** Choosing a status that is not terminal keeps whatever `resolvedAt` the
      issue already had, so reopening a resolved issue keeps its stamp. */
  lemma NonTerminalKeepsResolvedAt(i: ProtoIssue, s: Status, now: int)
    requires !IsDone(s)
    ensures Merge(i, StatusUpdates(s, now)).resolvedAt == i.resolvedAt
    ensures Merge(i, StatusUpdates(s, now)).status == s
  {
  }

  /** Closing through the menu stamps `resolvedAt` as if it were resolving. */
  lemma ClosingStampsResolvedAt(i: ProtoIssue, now: int)
    ensures Merge(i, StatusUpdates(Closed, now)).resolvedAt == Some(now)
  {
  }

  class StatusUpdater {
    const issueId: string
    var isOpen: bool

    constructor (issueId: string)
      ensures this.issueId == issueId && !isOpen
    {
      this.issueId := issueId;
      isOpen := false;
    }

    method Toggle()
      modifies this
      ensures isOpen == !old(isOpen)
    {
      isOpen := !isOpen;
    }

    /** `handleStatusChange`: one store update, then the menu closes. */
    method HandleStatusChange(store: IssueStore, s: Status, now: int)
      modifies this, store
      ensures store.Valid()
      ensures store.issues == UpdatedById(old(store.issues), issueId, StatusUpdates(s, now))
      ensures !isOpen
    {
      store.UpdateIssue(issueId, StatusUpdates(s, now));
      isOpen := false;
    }
  }

  /** `issue.assignedTo || null`: an empty name counts as no assignee. */
  function InitialSelection(assignedTo: Option<string>): (r: Option<string>)
    ensures r.Some? <==> assignedTo.Some? && assignedTo.value != ""
    ensures r.Some? ==> r == assignedTo
  {
    if assignedTo.Some? && assignedTo.value != "" then assignedTo else None
  }

  class EngineerAssignment {
    /** The issue as the component received it. */
    const issue: ProtoIssue
    var selectedEngineer: Option<string>
    var isOpen: bool

    constructor (issue: ProtoIssue)
      ensures this.issue == issue
      ensures selectedEngineer == InitialSelection(issue.assignedTo) && !isOpen
    {
      this.issue := issue;
      selectedEngineer := InitialSelection(issue.assignedTo);
      isOpen := false;
    }

    /** An engineer row is highlighted exactly when it is the selected one. */
    predicate IsAssigned(engineerName: string)
      reads this
    {
      selectedEngineer == Some(engineerName)
    }

    method Toggle()
      modifies this
      ensures isOpen == !old(isOpen) && selectedEngineer == old(selectedEngineer)
    {
      isOpen := !isOpen;
    }

    /** `handleAssign`: choosing the engineer the issue already has is refused
        and nothing changes; otherwise the store assigns (and marks the issue
        in progress), the choice is remembered and the menu closes. */
    method HandleAssign(store: IssueStore, engineerName: string) returns (accepted: bool)
      modifies this, store
      ensures accepted <==> issue.assignedTo != Some(engineerName)
      ensures !accepted ==> store.issues == old(store.issues) && store.persisted == old(store.persisted)
                            && selectedEngineer == old(selectedEngineer) && isOpen == old(isOpen)
      ensures accepted ==>
        && store.Valid()
        && store.issues == UpdatedById(old(store.issues), issue.id, AssignUpdates(Some(engineerName)))
        && selectedEngineer == Some(engineerName) && IsAssigned(engineerName) && !isOpen
    {
      if issue.assignedTo == Some(engineerName) {
        return false;
      }
      store.AssignEngineer(issue.id, Some(engineerName));
      selectedEngineer := Some(engineerName);
      isOpen := false;
      accepted := true;
    }

    /** `handleUnassign`: clears the assignee through the same store call, so
        the issue is also moved to in-progress. */
    method HandleUnassign(store: IssueStore)
      modifies this, store
      ensures store.Valid()
      ensures store.issues == UpdatedById(old(store.issues), issue.id, AssignUpdates(None))
      ensures forall k :: 0 <= k < |store.issues| && store.issues[k].id == issue.id ==>
        store.issues[k].assignedTo.None? && store.issues[k].status == InProgress
      ensures selectedEngineer.None? && !isOpen
    {
      store.AssignEngineer(issue.id, None);
      selectedEngineer := None;
      isOpen := false;
    }
  }

  /** The statuses the bulk menu offers: closing has its own button. */
  const BulkStatusChoices: seq<Status> := [Open, InProgress, OnHold, Resolved]

  lemma BulkMenuLacksClosed()
    ensures Closed !in BulkStatusChoices
    ensures forall s: Status :: s != Closed ==> s in BulkStatusChoices
  {
  }

  /** No bulk path touches `resolvedAt`. */
  lemma BulkPathsSetNoStamp(name: string, s: Status)
    ensures NoUpdates.(status := Some(s)).resolvedAt.None?
    ensures AssignUpdates(Some(name)).resolvedAt.None?
  {
  }

  class BulkActions {
    /** The ids the parent page has selected. */
    var selection: seq<string>
    var showStatusMenu: bool
    var showAssignMenu: bool

    /** At most one of the two menus is open. */
    ghost predicate Valid()
      reads this
    {
      !(showStatusMenu && showAssignMenu)
    }

    constructor (selection: seq<string>)
      ensures Valid() && this.selection == selection && !showStatusMenu && !showAssignMenu
    {
      this.selection := selection;
      showStatusMenu := false;
      showAssignMenu := false;
    }

    /** The status button toggles its menu and closes the other one. */
    method ToggleStatusMenu()
      modifies this
      ensures Valid()
      ensures showStatusMenu == !old(showStatusMenu) && !showAssignMenu && selection == old(selection)
    {
      showStatusMenu := !showStatusMenu;
      showAssignMenu := false;
    }

    method ToggleAssignMenu()
      modifies this
      ensures Valid()
      ensures showAssignMenu == !old(showAssignMenu) && !showStatusMenu && selection == old(selection)
    {
      showAssignMenu := !showAssignMenu;
      showStatusMenu := false;
    }

    /** `handleBulkStatusUpdate`: the status alone, on every selected issue;
        the menu closes and the selection is cleared. */
    method HandleBulkStatusUpdate(store: IssueStore, s: Status)
      requires Valid()
      modifies this, store
      ensures Valid() && store.Valid()
      ensures store.issues == BulkMerged(old(store.issues), old(selection), NoUpdates.(status := Some(s)))
      ensures !showStatusMenu && showAssignMenu == old(showAssignMenu) && selection == []
    {
      store.BulkUpdate(selection, NoUpdates.(status := Some(s)));
      showStatusMenu := false;
      selection := [];
    }

    /** `handleBulkAssign`: the engineer and in-progress, on every selected
        issue; the menu closes and the selection is cleared. */
    method HandleBulkAssign(store: IssueStore, engineerName: string)
      requires Valid()
      modifies this, store
      ensures Valid() && store.Valid()
      ensures store.issues == BulkMerged(old(store.issues), old(selection), AssignUpdates(Some(engineerName)))
      ensures !showAssignMenu && showStatusMenu == old(showStatusMenu) && selection == []
    {
      store.BulkUpdate(selection, AssignUpdates(Some(engineerName)));
      showAssignMenu := false;
      selection := [];
    }

    /** `handleBulkClose`: closed on every selected issue and the selection
        cleared; neither menu flag is touched. */
    method HandleBulkClose(store: IssueStore)
      requires Valid()
      modifies this, store
      ensures Valid() && store.Valid()
      ensures store.issues == BulkMerged(old(store.issues), old(selection), NoUpdates.(status := Some(Closed)))
      ensures showStatusMenu == old(showStatusMenu) && showAssignMenu == old(showAssignMenu) && selection == []
    {
      store.BulkUpdate(selection, NoUpdates.(status := Some(Closed)));
      selection := [];
    }

    /** `onClear`. */
    method Clear()
      modifies this
      ensures selection == [] && showStatusMenu == old(showStatusMenu) && showAssignMenu == old(showAssignMenu)
    {
      selection := [];
    }
  }
}
