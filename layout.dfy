/** The prototype's page frame (src/components/Layout.jsx): which sidebar
    entries a user may see, which entry is highlighted for the current path,
    the role caption under the user's name and the title in the top bar.
    The four role flags come from the signed-in user's role string, spelled
    as the prototype spells it (src/context/AuthContext.jsx). */
module Layout {
  import opened Common

  datatype Flags = Flags(isRanger: bool, isEngineer: bool, isAdmin: bool, isSuperAdmin: bool)

  /** The flags of a user with that role string, or of nobody. The prototype
      spells the top role `superadmin`. */
  function FlagsOf(role: Option<string>): (f: Flags)
    ensures role.None? ==> f == Flags(false, false, false, false)
    ensures f.isRanger <==> role == Some("ranger")
    ensures f.isEngineer <==> role == Some("engineer")
    ensures f.isAdmin <==> role == Some("admin")
    ensures f.isSuperAdmin <==> role == Some("superadmin")
    ensures !(f.isSuperAdmin && f.isAdmin) && !(f.isAdmin && f.isEngineer) && !(f.isEngineer && f.isRanger)
  {
    Flags(role == Some("ranger"), role == Some("engineer"), role == Some("admin"), role == Some("superadmin"))
  }

  datatype NavItem = NavItem(path: string, caption: string, roles: seq<string>)

  const DashboardPath := "/dashboard"
  const IssuesPath := "/issues"
  const CreatePath := "/issues/create"
  const AnalyticsPath := "/analytics"

  const NavItems: seq<NavItem> := [
    NavItem(DashboardPath, "Dashboard", ["all"]),
    NavItem(IssuesPath, "Issues", ["all"]),
    NavItem(CreatePath, "Create Issue", ["ranger", "admin", "superadmin"]),
    NavItem(AnalyticsPath, "Analytics", ["admin", "superadmin"])
  ]

  /** `canAccess`: open to all; else the super admin sees it; else the
      user's own role must be listed. */
  predicate CanAccess(f: Flags, item: NavItem) {
    || "all" in item.roles
    || f.isSuperAdmin
    || (f.isAdmin && "admin" in item.roles)
    || (f.isEngineer && "engineer" in item.roles)
    || (f.isRanger && "ranger" in item.roles)
  }

  function Paths(items: seq<NavItem>): (r: seq<string>)
    ensures |r| == |items|
    ensures forall k :: 0 <= k < |items| ==> r[k] == items[k].path
  {
    seq(|items|, k requires 0 <= k < |items| => items[k].path)
  }

  /** The sidebar: the entries the user may see, in their fixed order. */
  function Visible(f: Flags): (r: seq<NavItem>)
    ensures forall item :: item in r <==> item in NavItems && CanAccess(f, item)
    ensures IsSubsequence(r, NavItems)
  {
    FilterIsSubsequence(NavItems, (item: NavItem) => CanAccess(f, item));
    Filter(NavItems, (item: NavItem) => CanAccess(f, item))
  }

  /** Entries marked for everyone are shown to every user, signed in or not. */
  lemma OpenEntriesAlwaysVisible(f: Flags, item: NavItem)
    requires item in NavItems && "all" in item.roles
    ensures item in Visible(f)
  {
  }

  /** The super admin sees every entry. */
  lemma SuperAdminSeesEverything(f: Flags)
    requires f.isSuperAdmin
    ensures Visible(f) == NavItems
  {
    assert forall item :: item in NavItems ==> CanAccess(f, item);
    FilterAll(NavItems, (item: NavItem) => CanAccess(f, item));
  }

  /** No entry names the engineer role, so an engineer is allowed only the
      two open entries. */
  lemma EngineerSeesOnlyOpenEntries()
    ensures CanAccess(FlagsOf(Some("engineer")), NavItems[0]) && CanAccess(FlagsOf(Some("engineer")), NavItems[1])
    ensures !CanAccess(FlagsOf(Some("engineer")), NavItems[2]) && !CanAccess(FlagsOf(Some("engineer")), NavItems[3])
  {
    assert "engineer" !in NavItems[2].roles && "engineer" !in NavItems[3].roles;
  }

  /** A visitor with no role sees the same two entries. */
  lemma VisitorSeesOnlyOpenEntries(item: NavItem)
    ensures item in Visible(FlagsOf(None)) <==> item == NavItems[0] || item == NavItems[1]
  {
    var f := FlagsOf(None);
    assert f == Flags(false, false, false, false);
    assert "all" in NavItems[0].roles && "all" in NavItems[1].roles;
    assert NavItems[2].roles == ["ranger", "admin", "superadmin"] && "all" !in NavItems[2].roles;
    assert NavItems[3].roles == ["admin", "superadmin"] && "all" !in NavItems[3].roles;
    assert item in NavItems <==> item == NavItems[0] || item == NavItems[1] || item == NavItems[2] || item == NavItems[3];
  }

  /** A ranger may create issues but not see analytics; an admin sees both. */
  lemma RangerAndAdminEntries()
    ensures NavItems[2] in Visible(FlagsOf(Some("ranger")))
    ensures NavItems[3] !in Visible(FlagsOf(Some("ranger")))
    ensures NavItems[2] in Visible(FlagsOf(Some("admin"))) && NavItems[3] in Visible(FlagsOf(Some("admin")))
  {
    var ranger := FlagsOf(Some("ranger"));
    var admin := FlagsOf(Some("admin"));
    assert ranger == Flags(true, false, false, false);
    assert admin == Flags(false, false, true, false);
    assert NavItems[2].roles[0] == "ranger" && NavItems[2].roles[1] == "admin";
    assert NavItems[3].roles == ["admin", "superadmin"];
    assert "ranger" !in NavItems[3].roles && "all" !in NavItems[3].roles;
    assert CanAccess(ranger, NavItems[2]) && !CanAccess(ranger, NavItems[3]);
    assert NavItems[3].roles[0] == "admin";
    assert CanAccess(admin, NavItems[2]) && CanAccess(admin, NavItems[3]);
  }

  /** The `super_admin` spelling used elsewhere is not recognised here: such a
      user gets no flag and sees only the open entries. */
  lemma OtherSpellingSeesOnlyOpenEntries(item: NavItem)
    ensures FlagsOf(Some("super_admin")) == Flags(false, false, false, false)
    ensures item in Visible(FlagsOf(Some("super_admin"))) <==> item == NavItems[0] || item == NavItems[1]
  {
    var none := FlagsOf(Some("super_admin"));
    assert "super_admin" != "superadmin";
    assert none == Flags(false, false, false, false);
    assert forall it :: CanAccess(none, it) <==> "all" in it.roles;
    VisitorSeesOnlyOpenEntries(item);
    assert FlagsOf(None) == none;
  }

  /** An entry is highlighted on its own path, and, except for the dashboard,
      on any path that starts with it. */
  predicate IsActive(pathname: string, itemPath: string) {
    pathname == itemPath || (itemPath != DashboardPath && itemPath <= pathname)
  }

  lemma DashboardActiveOnlyOnItsPath(pathname: string)
    ensures IsActive(pathname, DashboardPath) <==> pathname == DashboardPath
  {
  }

  /** While creating an issue both the Issues and the Create Issue entries
      are highlighted. */
  lemma CreatePageHighlightsIssuesToo()
    ensures IsActive(CreatePath, IssuesPath) && IsActive(CreatePath, CreatePath)
    ensures !IsActive(CreatePath, DashboardPath) && !IsActive(CreatePath, AnalyticsPath)
  {
    assert CreatePath[1] != AnalyticsPath[1];
  }

  /** The match is on characters, not path segments. */
  lemma PrefixIsNotSegmentMatch()
    ensures IsActive("/issuesx", IssuesPath)
  {
  }

  /** `getRoleName`: the first flag that holds, in the order super admin,
      admin, engineer; "Ranger" when none does. */
  function RoleName(f: Flags): (r: string)
    ensures f.isSuperAdmin ==> r == "Zordon (Super Admin)"
    ensures !f.isSuperAdmin && f.isAdmin ==> r == "Admin"
    ensures !f.isSuperAdmin && !f.isAdmin && f.isEngineer ==> r == "Engineer"
    ensures !f.isSuperAdmin && !f.isAdmin && !f.isEngineer ==> r == "Ranger"
  {
    if f.isSuperAdmin then "Zordon (Super Admin)"
    else if f.isAdmin then "Admin"
    else if f.isEngineer then "Engineer"
    else "Ranger"
  }

  /** For a real user the caption names their role; a visitor with no role,
      and a user whose role string is not recognised, read as "Ranger". */
  lemma RoleNameOfRole(role: Option<string>)
    ensures role == Some("superadmin") ==> RoleName(FlagsOf(role)) == "Zordon (Super Admin)"
    ensures role == Some("admin") ==> RoleName(FlagsOf(role)) == "Admin"
    ensures role == Some("engineer") ==> RoleName(FlagsOf(role)) == "Engineer"
    ensures role !in {Some("superadmin"), Some("admin"), Some("engineer")} ==> RoleName(FlagsOf(role)) == "Ranger"
  {
  }

  /** `path.split('/').pop()`: everything after the last slash. */
  function LastSegment(path: string): (r: string)
    ensures '/' !in r
    ensures |r| <= |path| && r == path[|path| - |r|..]
    ensures |r| < |path| ==> path[|path| - |r| - 1] == '/'
  {
    if path == [] || path[|path| - 1] == '/' then []
    else LastSegment(path[..|path| - 1]) + [path[|path| - 1]]
  }

  function IsDash(c: char): bool { c == '-' }

  /** `s.replace('-', ' ')` with a string pattern: only the first dash
      becomes a space. */
  function ReplaceFirstDash(s: string): (r: string)
    ensures |r| == |s|
    ensures '-' !in s ==> r == s
    ensures '-' in s ==> exists k :: 0 <= k < |s| && s[k] == '-' && '-' !in s[..k]
                           && r == s[..k] + " " + s[k + 1..]
  {
    match FindIndex(s, IsDash)
    case None => s
    case Some(k) => s[..k] + " " + s[k + 1..]
  }

  /** The top-bar title: the last path segment with its first dash turned into
      a space, or "Dashboard" when the path ends in a slash. */
  function HeaderTitle(pathname: string): (r: string)
    ensures LastSegment(pathname) == [] ==> r == "Dashboard"
    ensures LastSegment(pathname) != [] ==> r == ReplaceFirstDash(LastSegment(pathname))
  {
    var title := ReplaceFirstDash(LastSegment(pathname));
    if title == [] then "Dashboard" else title
  }

  /** On the site root the title falls back to "Dashboard". */
  lemma HeaderTitleOfRoot()
    ensures HeaderTitle("/") == "Dashboard"
  {
    assert LastSegment("/") == [];
  }

  /** The last segment of a path ending in `/w` is `w`. */
  lemma {:induction false} LastSegmentAfterSlash(p: string, w: string)
    requires '/' !in w
    ensures LastSegment(p + "/" + w) == w
    decreases |w|
  {
    var path := p + "/" + w;
    if w != [] {
      var front := w[..|w| - 1];
      assert path[..|path| - 1] == p + "/" + front;
      assert w[|w| - 1] in w;
      LastSegmentAfterSlash(p, front);
      assert w == front + [w[|w| - 1]];
    }
  }

  /** On a page `…/w` the title is `w` with its first dash made a space. */
  lemma HeaderTitleOfPage(p: string, w: string)
    requires '/' !in w && w != []
    ensures HeaderTitle(p + "/" + w) == ReplaceFirstDash(w)
    ensures '-' !in w ==> HeaderTitle(p + "/" + w) == w
  {
    LastSegmentAfterSlash(p, w);
  }
}
