# Command Center issue tracker: a verified model

The Command Center is a small issue tracker with four roles: rangers report
issues, engineers work on them, and admins and the super admin run the
board. This Dafny project models three parts of it and proves what each
promises:

- **The REST API** (Express over MongoDB):
  - the issue routes, with an append-only status-history ledger;
  - the comment routes;
  - registration, login, token refresh and "who am I";
  - the authentication middleware;
  - the user and engineer-workload listings.

  Each collection is a `seq` field of a service class. Each route is a
  method whose `ensures` gives the HTTP outcome, with its status code and in
  the route's own check order, and the new state of the collections.
- **The API-backed React front end**:
  - the session holder with its browser storage;
  - the issue store that normalises the server's issues and keeps the page's list;
  - the issue list page: search, filters, selection and the overdue card;
  - the comment panel;
  - the sign-up page.

  The server's replies are parameters, and pop-up toasts are kept as a log.
- **The older localStorage prototype**:
  - the issue store, whose updates are shallow merges by id;
  - the status menu, the engineer picker and the bulk toolbar;
  - the SLA badge;
  - the engineer and admin dashboards;
  - the analytics page;
  - the page frame: navigation access, active entry, role caption and title;
  - the demo-account sign-in page.

Time is an integer number of milliseconds, passed as `now`. Password
hashing and comparison, e-mail syntax, token decoding, date parsing and
JSON encoding are function-typed parameters. The status, priority and role
enumerations live in `Domain`, with parsers proved to invert their wire
spellings. Shared sequence tools live in `Common`: filter, count, sort,
ASCII lower-casing, substring and trimming.

Where the two front ends or the two stores disagree with each other or with
the API, the model keeps both behaviours side by side and states the
difference as a lemma. Examples:

- The prototype spells the top role `superadmin`; the API spells it `super_admin`.
- Bulk resolution does not stamp `resolvedAt`; the status route does.
- The prototype's unassign still moves the issue to in-progress.

The model follows the code in one place where a reading of the intended
design differs. The assign route stores `assignedTo || null`, which reads as
if an empty string clears the assignee. But the request schema in front of
it rejects the empty string with a 400, so `ValidateAssign` refuses `""`,
and only an explicit `null` clears the assignee.

## Model

| member | source | states |
|---|---|---|
| Domain.ParseStatus | backend/src/models/Issue.js:9-14 | accepts exactly the five status spellings and returns the status with that spelling |
| Domain.StatusRoundTrip | backend/src/models/Issue.js:9-14 | parsing a status's spelling gives the status back |
| Domain.ParsePriority | backend/src/models/Issue.js:8 | accepts exactly the four priority spellings |
| Domain.PriorityRoundTrip | backend/src/models/Issue.js:8 | parsing a priority's spelling gives the priority back |
| Domain.ParseRole | backend/src/models/User.js:8-11 | accepts exactly the four role spellings, `super_admin` with an underscore |
| Domain.RoleRoundTrip | backend/src/models/User.js:8-11 | parsing a role's spelling gives the role back |
| BackendModels.NewIssue | backend/src/models/Issue.js:3-23 | a new issue is open, medium priority unless one is given, unassigned, without resolution or closing time, and created and updated now |
| BackendModels.NewUser | backend/src/models/User.js:3-15 | a new user keeps the given fields, has the role ranger unless one is given, and is created and updated now |
| IssueRoutes.RequiredText | backend/src/routes/issues.js:12-19 | a required text field passes exactly when present and non-empty; otherwise 400, with "is required" when it is missing |
| IssueRoutes.ValidateCreate | backend/src/routes/issues.js:12-19 | the create body passes exactly when title, description and category are non-empty and any priority is known; fields are kept and priority defaults to medium; failures are 400 |
| IssueRoutes.ValidatePatch | backend/src/routes/issues.js:109-116 | the update body passes exactly when every string sent is non-empty and any priority is known; the sent keys are kept as sent |
| IssueRoutes.Saved | backend/src/routes/issues.js:125-126 | saving changes the update time only when some field actually changed |
| IssueRoutes.ApplyPatch | backend/src/routes/issues.js:109-126 | a patch overwrites exactly the sent title, description, category, priority, facility and deadline; status, assignee, stamps, creator and creation time stay |
| IssueRoutes.ApplyPatchIdempotent | backend/src/routes/issues.js:125-126 | sending the same patch again changes nothing, not even the update time |
| IssueRoutes.ApplyPatchKeepsRequired | backend/src/routes/issues.js:109-116 | a validated patch never blanks a required field |
| IssueRoutes.ValidateStatus | backend/src/routes/issues.js:134-136 | the status body passes exactly when it carries one of the five spellings; otherwise 400 |
| IssueRoutes.ApplyStatus | backend/src/routes/issues.js:143-148 | the issue takes the new status; `resolved` stamps resolvedAt with now, `closed` stamps closedAt with now; no other field moves and no stamp is cleared |
| IssueRoutes.RunStatusSnoc | backend/src/routes/issues.js:143-148 | a run of status changes extended by one change is that change applied to the run's result |
| IssueRoutes.StampIsLastVisit | backend/src/routes/issues.js:146-147 | after any run of status changes, resolvedAt (closedAt) is the time of the latest change to resolved (closed), or its earlier value if there was none |
| IssueRoutes.LastVisitSomeIff | backend/src/routes/issues.js:146-147 | the latest visit is defined exactly when there was an initial one or the run reaches the target |
| IssueRoutes.StampSetIffVisited | backend/src/routes/issues.js:146-147 | a stamp is set after a run exactly when it was set before or the run reached that status; a stamp is never cleared |
| IssueRoutes.ValidateAssign | backend/src/routes/issues.js:161-163 | the assign body passes exactly when the key is present and is null or a non-empty id; null means no assignee |
| IssueRoutes.ApplyAssign | backend/src/routes/issues.js:168-186 | only the assignee changes, and the update time moves only if it differs |
| IssueRoutes.ValidateBulk | backend/src/routes/issues.js:198-201 | the bulk body passes exactly when it has at least one id and an updates object |
| IssueRoutes.ApplyBulk | backend/src/routes/issues.js:205-206 | a bulk `$set` overwrites exactly the sent keys, the creator included, with no validation; it sets no stamp of its own, keeps the id and creation time, and always refreshes the update time |
| IssueRoutes.BulkResolveDoesNotStamp | backend/src/routes/issues.js:203-206 | resolving through bulk leaves resolvedAt unset, whereas the status route stamps it |
| IssueRoutes.BulkCanBlankTitle | backend/src/routes/issues.js:198-206 | a bulk update can blank a required field that every other route keeps non-empty |
| IssueRoutes.BulkCanMoveEditRights | backend/src/routes/issues.js:200-206 | an `updates` object naming a new creator gives that user the creator's edit rights and takes them from the old creator |
| IssueRoutes.BulkApplied | backend/src/routes/issues.js:205-206 | the listed issues get the bulk update and every other issue is identical, in the same order |
| IssueRoutes.IndexOf | backend/src/routes/issues.js:119-120 | finds the position of the issue with the id, or reports that there is none |
| IssueRoutes.IssueService.constructor | backend/src/models/IssueStatusHistory.js:3-14 | an empty issue collection and an empty ledger, with the clock at the start time |
| IssueRoutes.IssueService.Tick | backend/src/models/Issue.js:22 | moving the clock forward keeps every timestamp bound: each issue created no later than updated and updated no later than the clock, the ledger in time order |
| IssueRoutes.IssueService.Record | backend/src/routes/issues.js:71-75 | one entry {issue, status, changedBy, now} is appended to the ledger; nothing else changes |
| IssueRoutes.IssueService.Create | backend/src/routes/issues.js:41-99 | a bad body is a 400 with nothing stored; otherwise the new open issue created by the caller is appended, with a fresh id, and exactly one ledger entry {issue, open, caller} is written |
| IssueRoutes.IssueService.Get | backend/src/routes/issues.js:101-107 | the issue with that id, or 404 when there is none |
| IssueRoutes.FilterDocumentMeansQuery | backend/src/routes/issues.js:22-33 | the filter document holding just the non-empty parameters keeps exactly the issues the query describes, in the same order |
| IssueRoutes.IssueService.List | backend/src/routes/issues.js:21-39 | exactly the issues matching every non-empty status, priority, category and search parameter, each as often as in the collection (a permutation of the filtered collection), newest first |
| IssueRoutes.IssueService.Patch | backend/src/routes/issues.js:118-132 | 400 on a bad body, then 404, then 403 unless creator or admin/super_admin; on success only that issue changes, by ApplyPatch; the ledger is untouched |
| IssueRoutes.IssueService.ChangeStatus | backend/src/routes/issues.js:138-159 | 400, then 404, then 403 for a ranger, each leaving everything unchanged; on success the issue gets ApplyStatus and exactly one ledger entry {issue, new status, caller} is appended |
| IssueRoutes.IssueService.Assign | backend/src/routes/issues.js:165-180 | 403 unless admin/super_admin, then 400, then 404; on success the assignee is set or cleared and one ledger entry always saying `open` is appended |
| IssueRoutes.IssueService.Unassign | backend/src/routes/issues.js:182-189 | 403 unless admin/super_admin, then 404; on success the assignee is cleared and the ledger is untouched |
| IssueRoutes.IssueService.StatusHistory | backend/src/routes/issues.js:191-196 | exactly the ledger entries of that issue, each as often as in the ledger, newest first; an unknown id gives an empty list |
| IssueRoutes.IssueService.Bulk | backend/src/routes/issues.js:203-208 | 403 unless admin/super_admin, then 400; the update goes to every listed issue that exists, no ledger entry is written, and the touched issues are returned |
| IssueRoutes.IssueService.Delete | backend/src/routes/issues.js:210-213 | 403 unless admin/super_admin; otherwise the issue is gone, the rest keep their order, the answer is the same whether it existed or not, and its ledger entries stay |
| CommentRoutes.CommentIndex | backend/src/routes/comments.js:35-36 | finds the position of the comment with the id, or reports that there is none |
| CommentRoutes.ValidateBody | backend/src/routes/comments.js:9-11 | the comment body passes exactly when present and non-empty; otherwise 400 |
| CommentRoutes.RemoveUniqueKey | backend/src/routes/comments.js:53 | with unique ids, removing one present id removes exactly one comment |
| CommentRoutes.CommentService.constructor | backend/src/routes/comments.js:13-18 | no comments |
| CommentRoutes.CommentService.ListFor | backend/src/routes/comments.js:13-18 | exactly the comments of that issue, each as often as stored (a permutation of the filtered collection), newest first |
| CommentRoutes.CommentService.Create | backend/src/routes/comments.js:20-28 | 400 on an empty body with nothing stored; otherwise one comment by the caller with that body is appended |
| CommentRoutes.CommentService.Edit | backend/src/routes/comments.js:34-44 | 400, then 404, then 403 unless author or admin/super_admin; on success only that comment's body changes, with its update time moving only if the text changed |
| CommentRoutes.CommentService.Delete | backend/src/routes/comments.js:46-55 | 404, then 403 unless author or admin/super_admin; on success exactly that comment is removed |
| AuthRoutes.ValidateRegister | backend/src/routes/auth.js:12-17 | the body passes exactly when the name is two UTF-16 code units or longer, the e-mail is valid, the password six or longer and any role one of the four; the role defaults to ranger |
| AuthRoutes.OneEmojiNameIsLongEnough | backend/src/routes/auth.js:13 | a name of one emoji is two code units long and passes the two-character minimum |
| AuthRoutes.SessionFor | backend/src/routes/auth.js:57-62 | an access token signed with `JWT_SECRET` and a refresh token signed with `REFRESH_SECRET`, each expiring after its configured lifetime, both carrying {sub, role, name} of the stored user, and the user's public summary |
| AuthRoutes.UserDirectory.constructor | backend/src/models/User.js:6 | an empty directory, in which e-mails and ids are unique |
| AuthRoutes.UserDirectory.IndexByEmail | backend/src/routes/auth.js:30 | finds the user with that e-mail, or reports that there is none |
| AuthRoutes.UserDirectory.IndexById | backend/src/routes/auth.js:118-128 | finds the user with that id, or reports that there is none |
| AuthRoutes.UserDirectory.Register | backend/src/routes/auth.js:19-90 | 400 on a bad body, 400 "Email already in use" for a taken e-mail, each adding nobody; otherwise exactly one user holding the password's hash is added, and its session is returned; e-mails stay unique |
| AuthRoutes.UserDirectory.Login | backend/src/routes/auth.js:97-109 | a session exactly when some user has the e-mail and the password matches its hash; an unknown e-mail and a wrong password give the same 401 |
| AuthRoutes.UserDirectory.RefreshAccess | backend/src/routes/auth.js:115-125 | 400 without a token; 401 unless it is an unexpired refresh token of a user who still exists; the new access token carries that user's current role and name |
| AuthRoutes.UserDirectory.Me | backend/src/routes/auth.js:127-130 | the caller's own record without the hash, or null once the account is gone |
| AuthRoutes.RegisterThenLogin | backend/src/routes/auth.js:19-109 | registering and then logging in with the same e-mail and password succeeds, with the registered role |
| Tokens.Sign | backend/src/utils/jwt.js:3 | a token signed with the given secret over the payload, expiring the given lifetime after the second it was signed |
| Tokens.SignAccess | backend/src/utils/jwt.js:6-7 | signed with `JWT_SECRET`, expiring after `JWT_EXPIRES_IN`, or one day when it is unset |
| Tokens.SignRefresh | backend/src/utils/jwt.js:9-10 | signed with `REFRESH_SECRET`, expiring after `REFRESH_EXPIRES_IN`, or seven days when it is unset |
| Tokens.Verify | backend/src/utils/jwt.js:12-13 | a payload exactly when the token was signed with that secret and has not expired, and then it is the token's own payload |
| Tokens.SignVerifyRoundTrip | backend/src/utils/jwt.js:3-4 | a signed token verifies with its payload until its lifetime has passed, and a different secret never accepts it |
| Tokens.KindsApartIffSecretsDiffer | backend/src/utils/jwt.js:6-13 | with distinct secrets neither verifier accepts the other kind of token; with equal secrets a fresh refresh token passes `verifyAccess` |
| Tokens.BearerToken | backend/src/middleware/auth.js:5-7 | a token exactly when the header starts with "Bearer " and has something after it; the token is the rest of the header |
| Tokens.BearerTokenOfPrefixed | backend/src/middleware/auth.js:6 | "Bearer " followed by a non-empty token gives that token |
| Tokens.Request.constructor | backend/src/middleware/auth.js:3 | a request with its header and no user attached |
| Tokens.RequireAuth | backend/src/middleware/auth.js:3-14 | passes exactly when the header's token verifies as an access token now, and then attaches its payload; otherwise 401 and the request's user is untouched |
| Tokens.RefreshTokenNeverAuthenticates | backend/src/middleware/auth.js:8 | when `JWT_SECRET` and `REFRESH_SECRET` differ, a refresh token never gets past the middleware |
| UserRoutes.ViewAll | backend/src/routes/users.js:13 | every user, in order, without the password hash |
| UserRoutes.ListUsers | backend/src/routes/users.js:10-15 | 403 unless admin/super_admin; otherwise the view of every user with the requested role, or of all users when no role is given, in collection order, one entry per user and without hashes |
| UserRoutes.Engineers | backend/src/routes/users.js:18-33 | one entry per engineer, in collection order, the k-th being the k-th engineer's view with the number of issues assigned to them that are open or in progress |
| UserRoutes.WorkloadSplits | backend/src/routes/users.js:22-25 | the workload is the engineer's open issues plus their in-progress ones, so on-hold does not count |
| UserRoutes.LeavingWorkloadLowersCount | backend/src/routes/users.js:22-25 | putting one of an engineer's counted issues on hold, resolving or closing it lowers their workload by exactly one |
| ProtoStore.Merge | src/context/IssueContext.jsx:114-121 | the shallow merge takes every sent field and keeps every other field, id included |
| ProtoStore.MergeIdempotent | src/context/IssueContext.jsx:114-121 | merging the same update twice is merging it once |
| ProtoStore.MergeNothing | src/context/IssueContext.jsx:114-121 | the empty update changes nothing |
| ProtoStore.UpdatedById | src/context/IssueContext.jsx:114-121 | the update goes to every issue with that id; every other issue is identical, same length and order |
| ProtoStore.BulkMerged | src/context/IssueContext.jsx:144-151 | the update goes to exactly the listed issues; every other issue is identical |
| ProtoStore.BulkOfOneIsUpdate | src/context/IssueContext.jsx:114-151 | a bulk update of one id is the single update of that id |
| ProtoStore.UpdateIdempotent | src/context/IssueContext.jsx:114-121 | updating twice with the same fields is updating once |
| ProtoStore.UpdateUnknownIdIsIdentity | src/context/IssueContext.jsx:114-121 | an update for an id nobody has leaves the list as it was |
| ProtoStore.AssignUpdates | src/context/IssueContext.jsx:123-128 | the assign update sets the assignee and in-progress and nothing else |
| ProtoStore.NewProtoIssue | src/context/IssueContext.jsx:99-112 | a new issue is open, created now, due eight hours later, with no comments, attachments or resolution time, and carries the caller's fields; a caller's id wins |
| ProtoStore.NewProtoComment | src/context/IssueContext.jsx:130-142 | a new comment is stamped now and carries the caller's author and text |
| ProtoStore.IssueStore.constructor | src/context/IssueContext.jsx:94-97 | the given list, with its stored copy equal to it |
| ProtoStore.IssueStore.UpdateIssues | src/context/IssueContext.jsx:94-97 | the list becomes the new one and the stored copy mirrors it |
| ProtoStore.IssueStore.CreateIssue | src/context/IssueContext.jsx:99-112 | exactly one new issue is appended at the end, and the stored copy mirrors the list |
| ProtoStore.IssueStore.UpdateIssue | src/context/IssueContext.jsx:114-121 | the list becomes UpdatedById of the old list |
| ProtoStore.IssueStore.AssignEngineer | src/context/IssueContext.jsx:123-128 | every issue with that id gets the assignee and in-progress; everything else is identical |
| ProtoStore.IssueStore.AddComment | src/context/IssueContext.jsx:130-142 | an unknown id changes nothing; otherwise one comment stamped now is appended to that issue's comments, keeping the earlier ones |
| ProtoStore.IssueStore.BulkUpdate | src/context/IssueContext.jsx:144-151 | the update goes to exactly the listed issues |
| ProtoComponents.StatusUpdates | src/components/StatusUpdater.jsx:18-28 | the update always sets the status, adds resolvedAt = now for resolved or closed and nothing else, and never sets closedAt |
| ProtoComponents.NonTerminalKeepsResolvedAt | src/components/StatusUpdater.jsx:18-28 | choosing a non-terminal status keeps the issue's earlier resolvedAt |
| ProtoComponents.ClosingStampsResolvedAt | src/components/StatusUpdater.jsx:21-23 | closing through the menu stamps resolvedAt as resolving does |
| ProtoComponents.StatusUpdater.constructor | src/components/StatusUpdater.jsx:8 | the menu starts closed |
| ProtoComponents.StatusUpdater.Toggle | src/components/StatusUpdater.jsx:35 | the menu flips |
| ProtoComponents.StatusUpdater.HandleStatusChange | src/components/StatusUpdater.jsx:18-28 | one store update with StatusUpdates, then the menu is closed |
| ProtoComponents.InitialSelection | src/components/EngineerAssignment.jsx:8 | the starting choice is the assignee, and an empty name counts as none |
| ProtoComponents.EngineerAssignment.constructor | src/components/EngineerAssignment.jsx:8-9 | the choice starts at the issue's assignee and the menu closed |
| ProtoComponents.EngineerAssignment.Toggle | src/components/EngineerAssignment.jsx:33 | the menu flips and the choice stays |
| ProtoComponents.EngineerAssignment.HandleAssign | src/components/EngineerAssignment.jsx:11-21 | the current assignee is refused with no change; otherwise the issue gets that engineer and in-progress, the row is marked assigned and the menu closes |
| ProtoComponents.EngineerAssignment.HandleUnassign | src/components/EngineerAssignment.jsx:23-28 | the assignee is cleared through the assign call, so the issue also becomes in-progress; the choice is cleared and the menu closes |
| ProtoComponents.BulkMenuLacksClosed | src/components/BulkActions.jsx:63-81 | the bulk status menu offers every status but closed |
| ProtoComponents.BulkPathsSetNoStamp | src/components/BulkActions.jsx:12-33 | no bulk update sets resolvedAt |
| ProtoComponents.BulkActions.constructor | src/components/BulkActions.jsx:9-10 | both menus start closed |
| ProtoComponents.BulkActions.ToggleStatusMenu | src/components/BulkActions.jsx:52-55 | the status menu flips and the assign menu closes |
| ProtoComponents.BulkActions.ToggleAssignMenu | src/components/BulkActions.jsx:91-93 | the assign menu flips and the status menu closes |
| ProtoComponents.BulkActions.HandleBulkStatusUpdate | src/components/BulkActions.jsx:12-17 | the status alone goes to every selected issue; the menu closes and the selection is cleared |
| ProtoComponents.BulkActions.HandleBulkAssign | src/components/BulkActions.jsx:19-27 | the engineer and in-progress go to every selected issue; the menu closes and the selection is cleared |
| ProtoComponents.BulkActions.HandleBulkClose | src/components/BulkActions.jsx:29-33 | closed goes to every selected issue and the selection is cleared |
| ProtoComponents.BulkActions.Clear | src/components/BulkActions.jsx:43 | the selection is emptied |
| SlaTimer.BandOf | src/components/SLATimer.jsx:6-27 | red exactly when overdue, yellow exactly when urgent, orange for up to four hours left otherwise, green beyond |
| SlaTimer.OverdueExcludesUrgent | src/components/SLATimer.jsx:8-10 | overdue and urgent never hold together |
| SlaTimer.DeadlineNowIsOrange | src/components/SLATimer.jsx:8-21 | a deadline equal to now is neither overdue nor urgent and shows orange |
| SlaTimer.BandMonotoneAwayFromDeadline | src/components/SLATimer.jsx:15-27 | away from the deadline instant, a nearer deadline never shows a less urgent band |
| SlaTimer.BandDropsAtDeadline | src/components/SLATimer.jsx:8-27 | a deadline of now shows orange while one a millisecond later shows yellow |
| SlaTimer.IntendedBandOf | src/components/SLATimer.jsx:15-27 | the banding with the deadline instant counted as urgent, equal to BandOf everywhere else |
| SlaTimer.IntendedBandMonotone | src/components/SLATimer.jsx:15-27 | with that banding, a nearer deadline never shows a less urgent band |
| SlaTimer.IntendedBandMonotoneInTime | src/components/SLATimer.jsx:15-27 | with that banding, the band never grows less urgent as time passes |
| SlaTimer.BadgeText | src/components/SLATimer.jsx:29-34 | "Overdue by …" when overdue, "… remaining" otherwise |
| EngineerDashboard.Assigned | src/components/dashboards/EngineerDashboard.jsx:13 | exactly the issues assigned to the engineer's name, in order |
| EngineerDashboard.InProgressOf | src/components/dashboards/EngineerDashboard.jsx:14 | exactly the engineer's in-progress issues |
| EngineerDashboard.OverdueOf | src/components/dashboards/EngineerDashboard.jsx:15-18 | exactly the engineer's unfinished issues past their deadline |
| EngineerDashboard.Upcoming | src/components/dashboards/EngineerDashboard.jsx:19-27 | exactly the engineer's unfinished issues due within two hours with time left, a permutation of that filter, sorted by deadline |
| EngineerDashboard.UpcomingShown | src/components/dashboards/EngineerDashboard.jsx:74 | the first three of those, or all when fewer |
| EngineerDashboard.ShownAreSoonest | src/components/dashboards/EngineerDashboard.jsx:19-27 | every shown issue is due no later than any due-soon issue left out |
| EngineerDashboard.OverdueAndUpcomingDisjoint | src/components/dashboards/EngineerDashboard.jsx:15-26 | no issue is both overdue and due soon |
| EngineerDashboard.ResolvedCount | src/components/dashboards/EngineerDashboard.jsx:60 | the resolved card counts the engineer's resolved or closed issues; with the unfinished ones it makes up all of them |
| AdminDashboard.UnassignedIssues | src/components/dashboards/AdminDashboard.jsx:22 | exactly the issues with no assignee that are not closed, in order |
| AdminDashboard.StatsOf | src/components/dashboards/AdminDashboard.jsx:10-20 | each card counts its own issues, the unassigned card equals the list's length, and the counts fit in the total |
| AdminDashboard.RecentIssues | src/components/dashboards/AdminDashboard.jsx:23-25 | sorts the shared list in place, newest first, as a permutation, and returns its first five, which are at least as new as every other |
| AdminDashboard.ActiveCount | src/components/dashboards/AdminDashboard.jsx:90 | the engineer's issues that are not closed |
| AdminDashboard.BarWidth | src/components/dashboards/AdminDashboard.jsx:105 | ten points per active issue, reaching the cap of 100 exactly at ten issues |
| AdminDashboard.BarWidthMonotone | src/components/dashboards/AdminDashboard.jsx:105 | more active issues never give a narrower bar |
| Analytics.StatusDistribution | src/pages/Analytics.jsx:24-46 | each slice counts the issues with its status, and the five add up to all issues |
| Analytics.StatusCountsCoverAll | src/pages/Analytics.jsx:24-46 | the five status counts add up to the number of issues |
| Analytics.PriorityDistribution | src/pages/Analytics.jsx:48-61 | each bar counts the issues with its priority, and the four add up to all issues |
| Analytics.PriorityCountsCoverAll | src/pages/Analytics.jsx:48-61 | the four priority counts add up to the number of issues |
| Analytics.CategoryDistribution | src/pages/Analytics.jsx:64-68 | one entry per distinct category that occurs, each with its number of issues; the entries add up to all issues |
| Analytics.TalliedEntries | src/pages/Analytics.jsx:64-68 | the finished dictionary names exactly the categories that occur, once each, with their counts |
| Analytics.ChartLabel | src/pages/Analytics.jsx:79 | a one-word name is its own label; any other label is a non-empty word that follows a space in the name |
| Analytics.ChartLabelOfWords | src/pages/Analytics.jsx:79 | a name of two or more words is labelled with its second word; an empty second piece gives the whole name |
| Analytics.ProductivityOf | src/pages/Analytics.jsx:71-83 | counts the resolved or closed and the in-progress issues assigned to the name; together they never exceed that name's issues |
| Analytics.EngineerProductivity | src/pages/Analytics.jsx:71-83 | one bar pair per engineer, in order |
| Analytics.SlaPerformance | src/pages/Analytics.jsx:86-94 | on time and late are counted among finished issues; they add up to the finished count exactly when every finished issue has a resolution time |
| Analytics.RoundedPercent | src/pages/Analytics.jsx:137 | the percentage rounded to the nearest integer, halves up, within 0 to 100 |
| Analytics.Compliance | src/pages/Analytics.jsx:137 | 0 with nothing finished, else the rounded share of finished issues that met their deadline |
| Analytics.RoundedPercentMonotone | src/pages/Analytics.jsx:137 | more issues on time never lowers the percentage |
| Analytics.RoundedPercentExtremes | src/pages/Analytics.jsx:137 | all on time is 100 and none on time is 0 |
| Layout.FlagsOf | src/context/AuthContext.jsx:41-44 | each flag holds exactly for its role spelled as the prototype spells it, none without a user, at most one at a time |
| Layout.Paths | src/components/Layout.jsx:43-58 | the entries' paths, in order |
| Layout.Visible | src/components/Layout.jsx:60-67 | exactly the entries the user may access, in their fixed order |
| Layout.OpenEntriesAlwaysVisible | src/components/Layout.jsx:60-61 | entries marked for everyone are visible to every user |
| Layout.SuperAdminSeesEverything | src/components/Layout.jsx:62 | the super admin sees every entry |
| Layout.EngineerSeesOnlyOpenEntries | src/components/Layout.jsx:43-64 | an engineer sees only Dashboard and Issues |
| Layout.VisitorSeesOnlyOpenEntries | src/components/Layout.jsx:60-67 | a visitor with no role sees only Dashboard and Issues |
| Layout.RangerAndAdminEntries | src/components/Layout.jsx:43-65 | a ranger sees Create Issue but not Analytics; an admin sees both |
| Layout.OtherSpellingSeesOnlyOpenEntries | src/components/Layout.jsx:60-67 | a `super_admin` role gets no flag here and sees only the open entries |
| Layout.DashboardActiveOnlyOnItsPath | src/components/Layout.jsx:100-101 | the dashboard entry is active only on its exact path |
| Layout.CreatePageHighlightsIssuesToo | src/components/Layout.jsx:100-101 | on the create page both Issues and Create Issue are highlighted |
| Layout.PrefixIsNotSegmentMatch | src/components/Layout.jsx:100-101 | the prefix test is on characters, so `/issuesx` highlights Issues |
| Layout.RoleName | src/components/Layout.jsx:36-41 | the first flag that holds names the role, in the order super admin, admin, engineer, with Ranger by default |
| Layout.RoleNameOfRole | src/components/Layout.jsx:36-41 | each known role gets its own caption; no role or an unknown one reads Ranger |
| Layout.LastSegment | src/components/Layout.jsx:152 | the part of the path after its last slash |
| Layout.ReplaceFirstDash | src/components/Layout.jsx:152 | only the first dash becomes a space |
| Layout.HeaderTitle | src/components/Layout.jsx:152 | the last segment with its first dash made a space, or "Dashboard" when it is empty |
| Layout.HeaderTitleOfRoot | src/components/Layout.jsx:152 | the site root is titled "Dashboard" |
| Layout.LastSegmentAfterSlash | src/components/Layout.jsx:152 | the last segment of a path ending in `/w` is `w` |
| Layout.HeaderTitleOfPage | src/components/Layout.jsx:152 | a page `…/w` is titled `w` with its first dash made a space |
| LoginPage.UsersFor | src/pages/Login.jsx:38 | the role's demo accounts, or none for a role without a table |
| LoginPage.DemoAccountsUnderTheirRole | src/pages/Login.jsx:13-28 | every demo account sits under its own role |
| LoginPage.SuperAdminSpelling | src/pages/Login.jsx:25-27 | only `superadmin` has an account; `super_admin` has none |
| LoginPage.FindUser | src/pages/Login.jsx:39-41 | the first account with exactly that e-mail and password, or none when no account has them |
| LoginPage.ProtoSession.constructor | src/context/AuthContext.jsx:14 | nobody signed in and nothing stored |
| LoginPage.ProtoSession.Login | src/context/AuthContext.jsx:26-29 | the user is signed in and stored |
| LoginPage.SignInPage.constructor | src/pages/Login.jsx:8 | an empty form |
| LoginPage.SignInPage.Submit | src/pages/Login.jsx:30-50 | no role: an error and nothing else; a match in the role's table: signed in and sent to the dashboard; no match: an error and nothing else |
| LoginPage.SignInPage.QuickLogin | src/pages/Login.jsx:52-56 | signs the given account in with no check and goes to the dashboard |
| LoginPage.SignInIsExact | src/pages/Login.jsx:38-44 | a successful sign-in is an account of the chosen role with exactly the typed e-mail and password |
| LoginPage.UnknownRoleSignsNobodyIn | src/pages/Login.jsx:38 | a role without a table signs nobody in |
| FrontAuth.FlagsOf | front/src/context/AuthContext.jsx:88-91 | each flag holds exactly for its role, with the top role spelled `super_admin`; none without a user |
| FrontAuth.AtMostOneFlag | front/src/context/AuthContext.jsx:88-91 | at most one flag holds, and one does exactly for the four API spellings |
| FrontAuth.ErrorText | front/src/context/AuthContext.jsx:51-69 | the server's message when present and non-empty, otherwise the fallback |
| FrontAuth.Stored | front/src/context/AuthContext.jsx:44-46 | both tokens and the user record are stored; other keys keep their values |
| FrontAuth.Cleared | front/src/context/AuthContext.jsx:77-79 | the three keys are gone; other keys keep their values |
| FrontAuth.AuthSession.constructor | front/src/context/AuthContext.jsx:16-17 | nobody signed in, loading, the browser's storage |
| FrontAuth.AuthSession.CheckAuth | front/src/context/AuthContext.jsx:19-37 | without a stored token, or with an empty one, nothing is asked; with one the server's user is taken, or on rejection the three keys are removed; loading ends |
| FrontAuth.AuthSession.Authenticate | front/src/context/AuthContext.jsx:39-73 | success stores both tokens and the user and signs the user in; failure changes nothing and returns the message |
| FrontAuth.AuthSession.Login | front/src/context/AuthContext.jsx:39-55 | the same, with "Login failed" as the fallback message |
| FrontAuth.AuthSession.Register | front/src/context/AuthContext.jsx:57-73 | the same, with "Registration failed" as the fallback message |
| FrontAuth.AuthSession.Logout | front/src/context/AuthContext.jsx:75-80 | signed out and the three keys removed |
| SignUp.FormError | front/src/pages/SignUp.jsx:24-37 | the first failing check, in the order empty field, password shorter than six UTF-16 code units, mismatch; none exactly when all pass |
| SignUp.PageChecksAgainstServer | front/src/pages/SignUp.jsx:24-46 | a form the page lets through meets the server's password rule; the server still decides on name length, e-mail and role |
| SignUp.OneLetterNamePassesOnlyThePage | front/src/pages/SignUp.jsx:24-37 | a one-letter name passes the page and is refused by the server |
| SignUp.SignUpPage.constructor | front/src/pages/SignUp.jsx:9-16 | an empty form with the role ranger, not loading |
| SignUp.SignUpPage.Edit | front/src/pages/SignUp.jsx:9-15 | the form is replaced and nothing else changes |
| SignUp.SignUpPage.Submit | front/src/pages/SignUp.jsx:20-57 | a failing check shows its message and registers nobody; otherwise register runs, and the page goes to the dashboard only on success; loading ends |
| FrontIssueContext.NormaliseRefIsOr | front/src/context/IssueContext.jsx:54-55 | the name test is redundant: the reference is kept when truthy, else the fallback |
| FrontIssueContext.DateOrNull | front/src/context/IssueContext.jsx:51-53 | an absent or empty date gives null, any other is parsed |
| FrontIssueContext.Normalise | front/src/context/IssueContext.jsx:47-56 | id from `_id`, dates parsed or null, a falsy assignee becomes null and a falsy creator becomes `{}` |
| FrontIssueContext.NormaliseCreated | front/src/context/IssueContext.jsx:83-90 | as Normalise for id, texts, status, priority, creation time, deadline and people; a resolution or closing time that was sent stays set, with its parsed time, and one not sent stays absent |
| FrontIssueContext.NormaliseAll | front/src/context/IssueContext.jsx:47-56 | every issue normalised, in order |
| FrontIssueContext.ReplaceById | front/src/context/IssueContext.jsx:114 | exactly the entries with that id are replaced; length and order kept |
| FrontIssueContext.ReplaceByIdIdempotent | front/src/context/IssueContext.jsx:114 | replacing again with the same record changes nothing more |
| FrontIssueContext.ReplaceByIdAbsent | front/src/context/IssueContext.jsx:114 | a list without the id is left as it was |
| FrontIssueContext.RemoveById | front/src/context/IssueContext.jsx:186 | every entry with that id goes, the rest keep their order, and the list shrinks by their number |
| FrontIssueContext.CountSplit | front/src/context/IssueContext.jsx:186 | every entry either has the id or keeps it |
| FrontIssueContext.RemoveByIdIdempotent | front/src/context/IssueContext.jsx:186 | deleting twice is deleting once |
| FrontIssueContext.ToEngineers | front/src/context/IssueContext.jsx:69-73 | id, name and workload of each engineer, a missing workload being 0 |
| FrontIssueContext.IssueStore.constructor | front/src/context/IssueContext.jsx:17-20 | empty lists, loading, no toasts |
| FrontIssueContext.IssueStore.LoadIssues | front/src/context/IssueContext.jsx:43-64 | the list becomes the server's, normalised; a failure keeps it and reports "Failed to load issues"; loading ends |
| FrontIssueContext.IssueStore.LoadEngineers | front/src/context/IssueContext.jsx:66-78 | the engineer list becomes the server's; a failure changes nothing |
| FrontIssueContext.IssueStore.UserChanged | front/src/context/IssueContext.jsx:23-41 | signed out, both lists are emptied; signed in, both are loaded; loading ends |
| FrontIssueContext.IssueStore.CreateIssue | front/src/context/IssueContext.jsx:80-99 | on success the new issue is appended at the end; on failure the list is unchanged and the message reported |
| FrontIssueContext.IssueStore.UpdateIssue | front/src/context/IssueContext.jsx:101-121 | on success the entries with that id are replaced by the server's copy; on failure nothing changes |
| FrontIssueContext.IssueStore.DeleteIssue | front/src/context/IssueContext.jsx:183-193 | on success every entry with that id is removed; on failure nothing changes |
| FrontIssueContext.IssueStore.ActThenReload | front/src/context/IssueContext.jsx:123-181 | the list is reloaded only after the action succeeds; a failed action leaves it and reports the message |
| FrontIssueContext.IssueStore.AssignEngineer | front/src/context/IssueContext.jsx:123-133 | reloads only after a successful assign |
| FrontIssueContext.IssueStore.UnassignEngineer | front/src/context/IssueContext.jsx:135-145 | reloads only after a successful unassign |
| FrontIssueContext.IssueStore.UpdateStatus | front/src/context/IssueContext.jsx:147-157 | reloads only after a successful status change, reporting the new status |
| FrontIssueContext.IssueStore.AddComment | front/src/context/IssueContext.jsx:159-169 | reloads only after the comment is accepted |
| FrontIssueContext.IssueStore.BulkUpdate | front/src/context/IssueContext.jsx:171-181 | reloads only after a successful bulk update |
| IssuesPage.FilteredIssues | front/src/pages/Issues.jsx:19-29 | exactly the issues matching the search in title, description or category, ignoring case, and both drop-downs; an order-preserving sublist |
| IssuesPage.EmptySearchShowsEverything | front/src/pages/Issues.jsx:19-29 | an empty search with both filters on "all" lists every issue |
| IssuesPage.SearchIgnoresCase | front/src/pages/Issues.jsx:21-23 | lower-casing the term does not change the result |
| IssuesPage.StatusFilterNarrows | front/src/pages/Issues.jsx:25 | choosing a status only narrows the list shown for "all" |
| IssuesPage.ToggleSelection | front/src/pages/Issues.jsx:31-37 | a selected id is removed, every copy, and an unselected one appended; other ids are unaffected |
| IssuesPage.ToggleSelectionTwice | front/src/pages/Issues.jsx:31-37 | toggling twice restores which ids are selected, and exactly the selection when the id was not in it |
| IssuesPage.Ids | front/src/pages/Issues.jsx:43 | the shown issues' ids, in order |
| IssuesPage.MissingDeadlineShowsOverdue | front/src/pages/Issues.jsx:164-167 | an open issue with no deadline shows overdue at any time after 1970 |
| IssuesPage.IsOverdueAgreesWithDeadline | front/src/pages/Issues.jsx:164-167 | the corrected test agrees with the card wherever there is a deadline, never flags an issue without one, and stays true as time passes |
| IssuesPage.SelectAllResult | front/src/pages/Issues.jsx:39-45 | clears the selection when its size equals the shown count, else selects exactly the shown issues' ids |
| IssuesPage.SelectAllComparesCounts | front/src/pages/Issues.jsx:40 | the counts are compared, not the ids: one other id selected with one issue shown clears the selection |
| IssuesPage.SelectAllTwice | front/src/pages/Issues.jsx:39-45 | from nothing selected, select-all selects every shown issue and a second click clears it |
| IssuesPage.IssueList.constructor | front/src/pages/Issues.jsx:13-17 | empty search, both filters "all", nothing selected, bulk bar off |
| IssuesPage.IssueList.SetFilters | front/src/pages/Issues.jsx:13-15 | the search and filters change and the selection stays |
| IssuesPage.IssueList.SelectIssue | front/src/pages/Issues.jsx:31-37 | the selection is toggled by ToggleSelection |
| IssuesPage.IssueList.SelectAll | front/src/pages/Issues.jsx:39-45 | the selection becomes SelectAllResult of the shown list |
| IssuesPage.IssueList.ToggleBulkActions | front/src/pages/Issues.jsx:102 | the bulk bar switch flips |
| IssuesPage.IssueList.ClearSelection | front/src/pages/Issues.jsx:114-117 | the selection is emptied, so the bulk bar is hidden |
| CommentSystem.AuthorOf | front/src/components/CommentSystem.jsx:26 | the populated name, else the raw id, else "Unknown"; a shown text is never empty |
| CommentSystem.View | front/src/components/CommentSystem.jsx:23-29 | id, author, text, parent and time of a loaded comment |
| CommentSystem.ViewAll | front/src/components/CommentSystem.jsx:23-29 | every loaded comment mapped, in order |
| CommentSystem.RootComments | front/src/components/CommentSystem.jsx:92 | exactly the comments without a parent, in order |
| CommentSystem.Replies | front/src/components/CommentSystem.jsx:93 | exactly the comments whose parent is that comment, in order |
| CommentSystem.RootsAndRepliesSplit | front/src/components/CommentSystem.jsx:92-93 | every comment is top-level or a reply to its parent, and never both for a real parent id |
| CommentSystem.ServerCommentsAreTopLevel | front/src/components/CommentSystem.jsx:92-93 | comments from the server, which stores no parent, are all top-level and none has replies |
| CommentSystem.ToggleReply | front/src/components/CommentSystem.jsx:181 | clicking the comment being answered closes the form; clicking another opens its own |
| CommentSystem.ToggleReplyTwice | front/src/components/CommentSystem.jsx:181 | two clicks on a comment leave its form as it was, and a form open elsewhere ends up closed |
| CommentSystem.CommentPanel.constructor | front/src/components/CommentSystem.jsx:12-16 | no comments, loading, empty drafts, no reply form open |
| CommentSystem.CommentPanel.Load | front/src/components/CommentSystem.jsx:18-38 | the comments become the server's, mapped; a failure keeps them; loading ends |
| CommentSystem.CommentPanel.ClickReply | front/src/components/CommentSystem.jsx:181 | the reply form is toggled by ToggleReply |
| CommentSystem.CommentPanel.SubmitComment | front/src/components/CommentSystem.jsx:40-63 | a blank draft is refused with a warning and nothing is sent; otherwise the draft is sent, and cleared and the comments reloaded only if it was accepted |
| CommentSystem.CommentPanel.SubmitReply | front/src/components/CommentSystem.jsx:65-90 | a blank reply is refused; otherwise it is sent as a plain comment without its parent, and only on success the text is cleared and the form closed |

## Left out

- Database I/O is not modelled: the readiness check answering 503, the re-fetch after saving, `populate`, and the 500 answers on a storage error. Each collection is an in-memory sequence, and every route runs as one sequential step.
- Concurrency is not modelled: interleaved requests, the non-atomic save of an issue followed by its ledger entry, and `Promise.all` in the front store. These are lost.
- bcrypt and the JSON Web Token library are replaced by parameters. `hash`, `compare` and `decode` are functions; a token is modelled by its signing secret, payload and expiry.
- Tokens.SignAccess, Tokens.SignRefresh: the lifetime settings are taken as whole seconds; the duration text (`1d`, `7d`, `2h`) that the token library parses is not modelled, nor is the error thrown when a secret is unset.
- The request-validation wrapper is not modelled. Each schema's rules are written out directly, and only the first failing key's message is kept.
- `backend/src/middleware/roles.js` is not part of this model. Its `requireRole` is taken to answer 403 when the caller's role is not listed.
- Attachments, the HTTP client's interceptors and token-refresh retry, and the mock data and storage loading of the prototype are not modelled. The prototype store's stored copy is a mirror field.
- Rendering, menu positioning and date formatting with date-fns or `toLocaleString` are not modelled. Where a text depends on a formatted distance, that distance is a parameter.
- The analytics page's random seven-day trend uses `Math.random` and is not modelled.
- The other dashboards, the issue detail and create pages, and the prototype's auth context are not modelled. The auth context only supplies the role flags to the page frame.
- IssueRoutes.IssueService.List: the search parameter is compiled into a case-insensitive regular expression. The model reads it as a literal, ASCII case-insensitive substring, so metacharacters are not interpreted.
- IssuesPage.FilteredIssues: `toLowerCase` is modelled on ASCII letters only; Unicode case folding is not captured.
- Common.Trim: whitespace is the ASCII space, tab, line feed, carriage return, vertical tab, form feed, the no-break space and the byte-order mark; the other Unicode spaces and line terminators that `trim` removes are not captured.
- IssueRoutes.ApplyBulk: the bulk `$set` runs without the schema's enum validators, so the database could receive an out-of-range status or priority, or a `null` creator. The model's typed update record cannot express such values, nor keys outside the issue schema; the creation time and the id are taken as not writable.
- IssueRoutes.IssueService.Create: the response's `createdBy` and `assignedTo` are bare ids; the populated user records are not modelled.
- Analytics.RoundedPercent: `Math.round` on a floating-point quotient is modelled as exact rounding of the rational, halves up. Binary rounding artefacts at exact halves are not captured.
- Analytics.CategoryDistribution: `Object.entries` lists integer-like keys first in numeric order. The model keeps every key in first-insertion order.
- FrontIssueContext.NormaliseCreated: the resolution and closing times are passed through, but the model does not distinguish a missing key from an explicit `null`.
- FrontAuth.AuthSession.CheckAuth: it requires that nobody is signed in yet, which holds because the check runs once, on mount.
- IssueRoutes.IssueService: the clock is assumed never to run backwards, so each writing route requires `now` no earlier than the last write. Only the update time and the ledger times are bounded by it; `resolvedAt` and `closedAt` are not, because a bulk update can write any value there.
- AdminDashboard.BarWidth: the width is computed as `(n / 10) * 100` in floating point; the model uses the exact integer `10 * n`.
- The admin-only visibility of the issue page's bulk-action button is not modelled, because it is rendering only.
- Toast pop-ups are kept as a log, or as the page's error text; their styling and timing are not modelled.

## Findings

| source | as written | input that shows it | evidently intended | confidence | as-written member | corrected member |
|---|---|---|---|---|---|---|
| src/components/SLATimer.jsx:8-27 | urgent requires strictly positive time left, so a deadline of exactly now falls through to the orange band | deadline = now shows orange, and deadline = now + 1 ms shows yellow | the badge grows more urgent as the deadline nears, with the deadline instant counted as urgent | medium, not executed | SlaTimer.BandDropsAtDeadline | SlaTimer.IntendedBandOf |
| front/src/pages/Issues.jsx:164-167 | `new Date(issue.slaDeadline)` on the null that normalisation gives a missing deadline is time 0 | an open issue created without a deadline, which the create route allows, shows overdue at any now > 0 | an issue without a deadline is never overdue | medium, not executed | IssuesPage.MissingDeadlineShowsOverdue | IssuesPage.IsOverdueAgreesWithDeadline |
