# Smart rental management client: a Dafny model of its decision logic

The smart rental management frontend is a React client for landlords,
caretakers, tenants and an admin. The backend enforces the rules on rent,
relocations and audits. The client still holds many small decisions of its
own:

- which role may open which page;
- how the session cell reacts to bootstrap, login and logout;
- what the login, registration and password forms accept;
- how activity logs, visits, agreements and maintenance requests are
  exported to CSV, quoted or not;
- how the log and visit lists page through their records;
- which buttons a row offers for a given status;
- how a list held by a page changes after a successful call;
- how breadcrumbs and menu links are built from paths and labels.

This project states each of these decisions in Dafny and proves what the
pages promise about them. Every page with state (`useState` cells written
by handlers) becomes a class. Its handlers are methods with `modifies`
clauses, and each HTTP call is an `Outcome` parameter: success with the
answer's `data`, or failure. Pure computations (filters, maps, guards,
CSV lines, the route table) are functions. The lemmas beside them connect
them to an independent statement: a round trip, an iff, an ordering or an
invariant.

Shared modules:

- `Json`: the JavaScript values the pages handle, with the semantics of
  truthiness, `||`, `??`, `?.`, `String(x)` and `Array.prototype.join`.
- `Text`: the `\s` class, ASCII case mapping, `trim`, `split` and `join`.
- `Seqs`: order-preserving filters and `slice(-n)`.
- `Outcomes`: `Option` and `Outcome`.
- `JsNumber`: `Number` of a string or a response value, on exact values,
  and the `<` that converts its right side.
- `Storage`: `localStorage`, as a class over a map.
- `Csv`: the quoted writer, an RFC 4180 reader (section 2 of RFC 4180)
  used to state the round trip, and the unquoted writer.
- `Pagination`: skip, page count, the three kinds of Next, the window of
  a client-side page and the footer range.
- `ListUpdates`: the map and filter updaters keyed on `_id`.
- `MaintenanceStatus`: the status counts and badges.
- `AppRoutes` and `RouteAccess`: the route table and what it guarantees
  about guards.

## Model

| member | source | states |
|---|---|---|
| ProtectedRoute.Decide | src/components/ProtectedRoute.jsx:10-28 | loading shows the placeholder whatever the user and role; no user redirects to /login; a given role that differs from the user's redirects to /unauthorized; children render iff not loading, a user is present and the role is absent or equal; the redirect to "/" is never produced |
| ProtectedRoute.UnauthorizedOnlyForUsers | src/components/ProtectedRoute.jsx:19-21 | the /unauthorized redirect happens only for a present user with a role mismatch, never instead of /login |
| AppRoutes.Resolve | src/App.js:90-160 | the selected route is a declared route or the catch-all NotFound, and its pattern matches the lower-cased segments |
| RouteAccess.PublicPathsUnguarded | src/App.js:92-101 | a pathname matched by a public route (landing, splash, register, login, both reset-password routes, verify-account, request-reset, about, services) is rendered with no guard |
| RouteAccess.AdminPathsNeedAdmin | src/App.js:104-115 | /dashboard and every /admin/... path is guarded for role "admin" or is unlisted and shows NotFound, and each declared admin path resolves to its own route |
| RouteAccess.TenantPathsNeedAnyUser | src/App.js:117-129 | /tenant and its children need only a signed-in user of any role, unlisted children show NotFound, and each declared tenant path resolves to its own route |
| RouteAccess.LandlordPathsNeedLandlord | src/App.js:132-147 | every /landlord/... path, listed or not, is guarded for "landlord"; each declared path resolves to its own route and unlisted ones show NotFound inside the guard |
| RouteAccess.CaretakerPathsNeedCaretaker | src/App.js:149-157 | every /caretaker/... path is guarded for "caretaker" or is unlisted and falls through to the unguarded NotFound; each declared path resolves to its own route |
| RouteAccess.AdminRouteReached | src/App.js:104-115 | the admin family's first-match search reaches each admin route at the path it spells out |
| RouteAccess.AdminVisit | src/App.js:104-115 | at a declared admin path the page renders iff the session has loaded and the user is an admin; another signed-in role goes to /unauthorized, no user to /login |
| RouteAccess.TenantVisit | src/App.js:117-129 | at a declared tenant path the page renders iff the session has loaded and a user is signed in, a landlord included; no user goes to /login |
| RouteAccess.LandlordVisit | src/App.js:132-147 | at any /landlord/... path the page renders iff the session has loaded and the user is a landlord; another role goes to /unauthorized, no user to /login |
| RouteAccess.CaretakerVisit | src/App.js:149-157 | at a declared caretaker path the page renders iff the session has loaded and the user is a caretaker; another role goes to /unauthorized, and with no user once loaded it goes to /login |
| RouteAccess.PublicVisit | src/App.js:92-101 | a public path renders its page for everyone, signed in or not, even while the session loads |
| RouteAccess.UndeclaredTopLevel | src/App.js:159 | /unauthorized and /aboutus, which no route declares, resolve to the unguarded catch-all |
| RouteAccess.UnauthorizedLandsOnNotFound | src/App.js:159 | /unauthorized is not declared, so the guard's forbidden redirect shows the unguarded NotFound page |
| RouteAccess.ResetPasswordFormRoute | src/App.js:96 | /reset-password with no token shows the public form of resetpassword.jsx |
| RouteAccess.ResetPasswordTokenRoute | src/App.js:99 | /reset-password/:token shows the other, token-taking reset page, also public |
| AuthContext.AuthProvider.constructor | src/context/AuthContext.jsx:12-13 | initially no user and loading |
| AuthContext.AuthProvider.FetchUser | src/context/AuthContext.jsx:18-31 | the profile on success, null on failure, loading false either way, the stored token untouched |
| AuthContext.AuthProvider.Login | src/context/AuthContext.jsx:33-56 | success stores `String(data.token)` under 'token', sets the user to `data.user` and returns the response; failure changes neither |
| AuthContext.AuthProvider.Logout | src/context/AuthContext.jsx:58-70 | the token and the user are cleared only after the backend confirms; a failure keeps both |
| AuthContext.AuthProvider.ContextValue | src/context/AuthContext.jsx:73 | the context exposes the current user and loading flag, and reading `token` from it gives undefined |
| LoginForm.LoginPage.constructor | src/components/loginComponent.jsx:9-10 | the identifier is prefilled with the stored 'rememberedLogin' and remember is true iff that value is non-empty |
| LoginForm.LoginPage.HandleChange | src/components/loginComponent.jsx:27-33 | a checkbox writes its checked flag, any other input its value, and only the named field changes |
| LoginForm.IsEmailIffShape | src/components/loginComponent.jsx:35 | `isEmail` holds iff some white-space-free slice has the shape x@y.z with x, y and z non-empty |
| LoginForm.IsEmailHasAt | src/components/loginComponent.jsx:35 | an identifier `isEmail` accepts contains '@', so the registration form's separate '@' test adds nothing |
| LoginForm.PhoneIsNotEmail | src/components/loginComponent.jsx:35-36 | an identifier `isPhone` accepts (ten or more ASCII digits, nothing else) is never an email |
| LoginForm.Payload | src/components/loginComponent.jsx:48 | the payload's `emailOrPhone` is the identifier itself and its password the password |
| LoginForm.InvalidIdentifierUnreachable | src/components/loginComponent.jsx:48-56 | past the empty-field check the payload's identifier is truthy, so the "valid email or phone" rejection never fires |
| LoginForm.AfterLogin | src/components/loginComponent.jsx:62-71 | after a login, storage holds the token and the user, 'rememberedLogin' is the identifier iff remember is checked and is absent otherwise, and every other key is kept |
| LoginForm.AfterLoginAbsorbsToken | src/components/loginComponent.jsx:62-71 | the page writing the token again after the session store has written it changes nothing |
| LoginForm.LoginPage.HandleSubmit | src/components/loginComponent.jsx:38-79 | an empty identifier or password sends nothing; a rejected login changes neither storage nor user; a successful one stores the session and navigates to `redirectTo \|\| "/"` |
| LoginForm.LoginPage.StoreSession | src/components/loginComponent.jsx:62-71 | the storage becomes `AfterLogin` of the old storage |
| RegisterForm.Validate | src/components/registerComponent.jsx:21-34 | the error map's keys are among the six fields: fullName and phone iff blank after trim, email iff no '@' or no `\S+@\S+\.\S+` match, password iff shorter than 8 UTF-16 units or without A-Z or 0-9, confirmPassword iff it differs, role iff empty |
| RegisterForm.EmailErrorIffNoMatch | src/components/registerComponent.jsx:25 | there is an email error exactly when the regex finds no match: the '@' test is implied |
| RegisterForm.ValidFormHasNoErrors | src/components/registerComponent.jsx:21-34 | a form that meets every rule yields the empty error map |
| RegisterForm.SurrogatePairsCount | src/components/registerComponent.jsx:27 | the length counts UTF-16 units: "Aa1" and three emoji is six characters, nine units, and passes the rule |
| RegisterForm.RegisterPage.constructor | src/components/registerComponent.jsx:8-17 | six empty fields, no errors, not loading |
| RegisterForm.RegisterPage.HandleChange | src/components/registerComponent.jsx:36-38 | exactly the named field changes |
| RegisterForm.RegisterPage.HandleSubmit | src/components/registerComponent.jsx:40-58 | errors are stored and nothing is sent iff `Validate` finds any; otherwise the post goes out and success navigates to /login |
| ResetPassword.StrongIffPattern | src/components/resetpassword.jsx:14-15 | `isStrongPassword` holds iff each lookahead finds its class on a single line and the string is at least 8 UTF-16 units long |
| ResetPassword.StrongPassesRegistration | src/components/resetpassword.jsx:14-15 | a strong reset password also passes the registration rule |
| ResetPassword.RegistrationIsLaxer | src/components/resetpassword.jsx:14-15 | "ABCDEFG1" passes registration but is not strong: registration does not ask for a lower-case letter |
| ResetPassword.Check | src/components/resetpassword.jsx:21-32 | a missing token is reported first, then a weak password, then a mismatch; the request goes out only when all three pass, with `newPassword` the password |
| ResetPassword.TokenParam | src/components/resetpassword.jsx:7 | the `:token` parameter is present only when the matched pattern has a parameter segment |
| ResetPassword.MountedWithoutToken | src/components/resetpassword.jsx:7-21 | mounted at /reset-password, the page never has a token, so every submit stops at the first check |
| ResetPassword.ResetPasswordPage.constructor | src/components/resetpassword.jsx:11-12 | an empty password and confirmation, not loading |
| ResetPassword.ResetPasswordPage.HandleChange | src/components/resetpassword.jsx:17 | exactly the named field changes |
| ResetPassword.ResetPasswordPage.HandleReset | src/components/resetpassword.jsx:19-40 | the outcome follows `Check`, and only a passing check sends the new password |
| RequestReset.PatternIffDecomposes | src/components/RequestResetPage.jsx:10-11 | the anchored pattern holds iff the text is x@y.z with x, y, z non-empty and free of white space and '@' |
| RequestReset.ValidEmailShape | src/components/RequestResetPage.jsx:10-11 | a valid address, after trimming, has exactly one '@', no white space, a non-empty local part and a '.' after the '@' with a character on each side |
| RequestReset.RequestResetPage.constructor | src/components/RequestResetPage.jsx:6-7 | an empty email, not loading |
| RequestReset.RequestResetPage.SetEmail | src/components/RequestResetPage.jsx:6 | the field takes the typed value |
| RequestReset.RequestResetPage.HandleSubmit | src/components/RequestResetPage.jsx:13-30 | an invalid address sends nothing; a valid one sends the trimmed address, and the field is cleared only on success |
| Csv.Escape | src/components/UnifiedLandlordDashboard.jsx:166 | escaping adds exactly one character per '"' in the cell |
| Csv.QuoteRoundTrip | src/components/UnifiedLandlordDashboard.jsx:166 | stripping the outer quotes of a quoted cell and collapsing each '""' gives the cell back |
| Csv.RecordRoundTrip | src/components/UnifiedLandlordDashboard.jsx:166 | a quoted record reads back cell for cell under section 2 of RFC 4180 |
| Csv.DocumentRoundTrip | src/components/UnifiedLandlordDashboard.jsx:156-167 | a quoted document reads back row for row and cell for cell whatever the cells contain |
| Csv.UnquotedColumns | src/components/LandlordDashboard.jsx:62-66 | a comma-joined record splits into one column per cell plus one per comma inside a cell |
| Csv.UnquotedColumnsExact | src/components/LandlordDashboard.jsx:62-66 | the column count is right iff no cell contains a comma |
| Csv.UnquotedRecordRoundTrip | src/components/LandlordDashboard.jsx:62-66 | without commas in the cells, splitting the joined record gives the cells back |
| Csv.UnquotedLines | src/components/LandlordDashboard.jsx:62-66 | an unquoted document has one line per record plus one per line break inside a cell |
| ActivityFeed.NameOr | src/components/UnifiedLandlordDashboard.jsx:160-161 | a string house or tenant is taken as it is, an object gives its title or fullName, anything else "" |
| ActivityFeed.LogRows | src/components/UnifiedLandlordDashboard.jsx:158-164 | one row per log, row `i` being the cells of log `i` |
| ActivityFeed.LogTable | src/components/UnifiedLandlordDashboard.jsx:156-163 | the header, then one five-cell row per log, in order |
| ActivityFeed.LogCells | src/components/UnifiedLandlordDashboard.jsx:159-163 | five cells: the type or ""; a string house or tenant as it is, an object's truthy title or fullName as `String` renders it, otherwise ""; the status or ""; the formatted date |
| ActivityFeed.QuotedExportReadsBack | src/components/LandlordDashboardPage.jsx:230-242 | the quoted log export reads back as the header and one five-cell row per log, cell for cell |
| ActivityFeed.PlainTable | src/components/CaretakerDashboardHome.jsx:70-73 | the unquoted export's rows: the header, then five `join`-rendered cells per log |
| ActivityFeed.PlainCells | src/components/CaretakerDashboardHome.jsx:72 | five cells: type, house, person and status each as `join` renders them (`null` and `undefined` as ""), then the formatted date |
| ActivityFeed.PlainRecordColumns | src/components/LandlordDashboard.jsx:62-66 | each unquoted log line has five columns plus one per comma in its cells |
| ActivityFeed.CommaInHouseShiftsColumns | src/components/CaretakerDashboardHome.jsx:70-73 | a house named "A, B" turns a five-column line into a six-column one |
| ActivityFeed.ChartData | src/components/UnifiedLandlordDashboard.jsx:238-243 | the chart shows the last min(6, n) monthly entries, in their original order |
| ActivityFeed.PagesOf | src/components/landlordDash.jsx:192 | `Math.ceil(total / limit)` of the total as `Number` converts it; NaN and the infinities pass through |
| ActivityFeed.Ceil | src/components/landlordDash.jsx:192 | `Math.ceil` is the least integer at or above its argument |
| ActivityFeed.CeilUnique | src/components/landlordDash.jsx:192 | an integer with its predecessor below x and itself at or above x is `Math.ceil(x)` |
| ActivityFeed.PagesOfCount | src/components/landlordDash.jsx:192 | for a count of records, `Math.ceil(total / limit)` is the least number of pages that hold them |
| ActivityFeed.PagesOfNumeral | src/components/landlordDash.jsx:90 | a total sent as the string "20" gives the same page count as the number 20 |
| ActivityFeed.LogFeed.constructor | src/components/ActivityLog.jsx:10-14 | page 1, no type, no logs, total 0 |
| ActivityFeed.LogFeed.Query | src/components/UnifiedLandlordDashboard.jsx:92 | the query's skip is `(page - 1) * limit` and it carries the type and the limit |
| ActivityFeed.LogFeed.Prev | src/components/UnifiedLandlordDashboard.jsx:504 | Prev never goes below page 1 and changes nothing else |
| ActivityFeed.LogFeed.Next | src/components/CaretakerDashboardHome.jsx:268 | Next moves on iff `page * limit < total` with the total converted by `Number` (a string "20" counts, `undefined` never does); for a numeric total this is `GuardedNext` |
| ActivityFeed.LogFeed.NextClamped | src/components/landlordDash.jsx:311-325 | with the controls shown (`totalPages > 1`), Next moves to min(page + 1, totalPages), or on by one when totalPages is infinite; for a numeric total totalPages is `TotalPages` |
| ActivityFeed.LogFeed.SelectType | src/components/ActivityLog.jsx:40-51 | a type button sets the type and keeps the page |
| ActivityFeed.LogFeed.SelectTypeFromStart | src/components/landlordDash.jsx:276 | a type button that also goes back to page 1 |
| ActivityFeed.LogFeed.LoadWithDefaults | src/components/landlordDash.jsx:82-95 | success stores `logs \|\| []` and `total \|\| 0`, a string or negative total kept as sent; failure, or a missing body that makes `res.data.logs` throw, empties the page and sets the total to 0 |
| ActivityFeed.LogFeed.LoadRaw | src/components/CaretakerDashboardHome.jsx:40-51 | success stores the logs and total as sent, `undefined` included; failure, or a missing body that makes `res.data.logs` throw, changes nothing |
| Pagination.Skip | src/components/LandlordDashboard.jsx:37 | `(page - 1) * limit` records come before the first record of a page |
| Pagination.SkipAdjacent | src/components/ActivityLog.jsx:18 | consecutive pages ask for adjacent, non-overlapping runs of records |
| Pagination.TotalPages | src/components/landlordDash.jsx:192 | `Math.ceil(total / limit)` is the least number of pages of `limit` records that hold `total` |
| Pagination.PrevPage | src/components/CaretakerDashboardHome.jsx:259 | Prev gives max(page - 1, 1) |
| Pagination.GuardedNext | src/components/CaretakerDashboardHome.jsx:268 | Next increments iff `page * limit < total` |
| Pagination.ClampedNext | src/components/landlordDash.jsx:324 | Next gives min(page + 1, totalPages) |
| Pagination.UnboundedNext | src/components/CaretakerMaintenance.jsx:244 | Next always increments |
| Pagination.GuardedButtonsStayInRange | src/components/LandlordDashboardPage.jsx:537-548 | Prev and the guarded Next keep the page within the pages that hold records |
| Pagination.GuardedNextShowsRecords | src/components/LandlordDashboard.jsx:230 | a page the guarded Next reaches still starts inside the records |
| Pagination.UnboundedNextLeavesRange | src/components/CaretakerTenantRegistration.jsx:222 | from the last page, the unbounded Next reaches a page that starts past every record |
| Pagination.ClampedButtonsStayInRange | src/components/landlordDash.jsx:314-325 | with the clamped buttons the page stays within 1..totalPages |
| Pagination.ShowControlsIffOverflow | src/components/landlordDash.jsx:311 | the controls appear iff `totalPages > 1` iff the records do not fit on one page |
| Pagination.Window | src/components/CaretakerVisits.jsx:73-74 | a page's window holds at most `limit` records, in order, and is empty past the end |
| Pagination.FooterMatchesWindow | src/components/CaretakerVisits.jsx:272 | on a page that starts inside the records, the footer's range from `(page-1)*limit+1` to `min(page*limit, total)` counts exactly the records in the window |
| LandlordStats.MaintenanceSummary | src/components/UnifiedLandlordDashboard.jsx:66-72 | each maintenance counter is the answer's value when truthy, else 0; `monthlyData` defaults to {} |
| LandlordStats.Summary | src/components/landlordDash.jsx:56-74 | houses and rentDue default with `\|\|`, the other counters with `??`, so only null or undefined becomes 0 |
| LandlordStats.NonCounters | src/components/landlordDash.jsx:58-73 | the object-valued keys are not counters |
| LandlordStats.SummaryWithPending | src/components/UnifiedLandlordDashboard.jsx:63-82 | the same summary plus `pendingMaintenance`, defaulted with `??` |
| LandlordStats.FreshStats | src/components/UnifiedLandlordDashboard.jsx:63-82 | a successful fetch replaces the stats with the summary of `res.data \|\| {}` |
| LandlordStats.FreshStatsNoPending | src/components/landlordDash.jsx:56-74 | the same summary without `pendingMaintenance` |
| LandlordStats.MergeSuccess | src/components/LandlordDashboardPage.jsx:79-101 | the summary overrides the answer, which overrides the previous stats |
| LandlordStats.MergeFailure | src/components/LandlordDashboardPage.jsx:104-123 | the failure path writes each summary key from the previous value or its default |
| LandlordStats.FailureKeepsKnown | src/components/LandlordDashboardPage.jsx:104-123 | a failed fetch keeps every value already known: truthy objects, non-nullish counters, every other field |
| LandlordStats.FailureFillsGaps | src/components/LandlordDashboardPage.jsx:104-123 | a missing counter becomes 0 and a missing object its empty default |
| LandlordStats.FailureIdempotent | src/components/LandlordDashboardPage.jsx:104-123 | failing twice is the same as failing once |
| LandlordStats.PendingDefaultsDiffer | src/components/LandlordDashboardPage.jsx:85-98 | a maintenance `pending` of "" becomes 0 through `\|\|` but is copied as "" into `pendingMaintenance` through `??` |
| LandlordStats.DefaulterCount | src/components/LandlordDashboardPage.jsx:151-157 | the count is `res.data.count` when not nullish, else the length of the list |
| LandlordStats.DefaulterCountsAgree | src/components/landlordDash.jsx:106 | `count ?? defaulters?.length ?? 0` gives the same count as the list-based form |
| LandlordStats.WithDefaulters | src/components/LandlordDashboardPage.jsx:155-158 | only the `defaulters` field of the stats changes |
| LandlordStats.HouseCount | src/components/LandlordDashboardPage.jsx:181 | an array answer counts its items, otherwise `data.length ?? 0` |
| LandlordStats.HousesWithTotal | src/components/LandlordDashboardPage.jsx:184 | houses get the new total and keep occupied and vacant, defaulting them to 0 |
| LandlordStats.FetchHouseCount | src/components/LandlordDashboardPage.jsx:177-189 | the stats are unchanged when the house total is already truthy or the call fails |
| LandlordStats.HouseCountSettles | src/components/LandlordDashboardPage.jsx:178 | after a successful non-zero count the total is known and is never fetched again |
| LandlordStats.StatsCell.RefreshFresh | src/components/UnifiedLandlordDashboard.jsx:57-87 | success replaces the stats with `FreshStats`; failure keeps them |
| LandlordStats.StatsCell.constructor | src/components/UnifiedLandlordDashboard.jsx:40-46 | no stats and no defaulters |
| LandlordStats.StatsCell.RefreshFreshNoPending | src/components/landlordDash.jsx:50-79 | success replaces the stats with `FreshStatsNoPending`; failure keeps them |
| LandlordStats.StatsCell.RefreshMerging | src/components/LandlordDashboardPage.jsx:64-127 | success merges, failure fills gaps |
| LandlordStats.StatsCell.LoadDefaulters | src/components/LandlordDashboardPage.jsx:147-158 | success stores `defaulters \|\| []` and the count; failure changes nothing |
| LandlordStats.StatsCell.LoadHouseCount | src/components/LandlordDashboardPage.jsx:177-189 | the stats become `FetchHouseCount` of the old stats |
| LandlordStats.ReminderButton.SendReminder | src/components/UnifiedLandlordDashboard.jsx:122-137 | a falsy tenant id does nothing; otherwise a reminder is delivered iff one endpoint succeeds, and `loadingNotifyId` ends null |
| LandlordStats.ReminderButton.constructor | src/components/UnifiedLandlordDashboard.jsx:48 | no reminder in flight |
| CaretakerMaintenance.ActionsFor | src/components/CaretakerMaintenance.jsx:228-230 | Mark In Progress iff the status is not "in-progress", Mark Completed iff not "completed", Delete always |
| CaretakerMaintenance.ActionsMoveForward | src/components/CaretakerMaintenance.jsx:228-229 | each row offers a status button, and pressing one reaches a status where that button is gone |
| CaretakerMaintenance.RequestRows | src/components/CaretakerMaintenance.jsx:101-108 | one row per request, row `i` being the cells of request `i` |
| CaretakerMaintenance.RequestTable | src/components/CaretakerMaintenance.jsx:99-109 | a six-cell header, then six cells per request in order |
| CaretakerMaintenance.DateCell | src/components/CaretakerMaintenance.jsx:106-107 | a falsy date gives "", a truthy one its formatted text |
| CaretakerMaintenance.RequestCells | src/components/CaretakerMaintenance.jsx:102-107 | six cells: a nullish house title, tenant name or status gives "", a string one itself, and the two dates go through `DateCell` |
| CaretakerMaintenance.ExportReadsBack | src/components/CaretakerMaintenance.jsx:98-110 | the quoted export reads back as the header and one six-cell row per request |
| CaretakerMaintenance.LoadedTotal | src/components/CaretakerMaintenance.jsx:38 | a total in the answer that is not nullish is taken as it is |
| CaretakerMaintenance.LoadedTotalShapes | src/components/CaretakerMaintenance.jsx:38 | an array answer counts its items; an object with the list but no total leaves the total undefined |
| CaretakerMaintenance.MaintenancePage.constructor | src/components/CaretakerMaintenance.jsx:13-19 | four empty filters, page 1, limit 8, the modal closed, an empty form |
| CaretakerMaintenance.MaintenancePage.Params | src/components/CaretakerMaintenance.jsx:34-35 | the query holds skip, limit and every filter key |
| CaretakerMaintenance.MaintenancePage.SetFilter | src/components/CaretakerMaintenance.jsx:174-197 | a filter change goes back to page 1 and replaces only its own key |
| CaretakerMaintenance.MaintenancePage.Prev | src/components/CaretakerMaintenance.jsx:242 | Prev never goes below 1 |
| CaretakerMaintenance.MaintenancePage.Next | src/components/CaretakerMaintenance.jsx:244 | Next always increments, with no upper bound |
| CaretakerMaintenance.MaintenancePage.SetCreating | src/components/CaretakerMaintenance.jsx:158 | New Request opens the modal and Cancel closes it, keeping what was typed |
| CaretakerMaintenance.MaintenancePage.EditNewRequest | src/components/CaretakerMaintenance.jsx:255-259 | the modal's inputs write the form |
| CaretakerMaintenance.MaintenancePage.CreateRequest | src/components/CaretakerMaintenance.jsx:61-73 | a missing house or issue sends nothing; success closes the modal and empties the form; failure keeps both |
| CaretakerMaintenance.MaintenancePage.Load | src/components/CaretakerMaintenance.jsx:32-42 | success stores `requests \|\| data \|\| []` and `LoadedTotal`; failure changes nothing |
| MaintenanceStatus.CountStatus | src/components/CaretakerDashboardHome.jsx:108-112 | a status count is at most the list length and is 0 iff no item has that status |
| MaintenanceStatus.StatusCounts | src/components/CaretakerMaintenance.jsx:274-278 | the three counts are those of "pending", "in-progress" and "completed" |
| MaintenanceStatus.CountsPartition | src/components/CaretakerDashboardHome.jsx:108-112 | the counts add up to at most the list length, and to exactly it iff every item has one of the three statuses |
| MaintenanceStatus.BadgeOf | src/components/MaintenanceManagement.jsx:266-270 | yellow for "pending", blue for "in-progress", green for anything else |
| MaintenanceStatus.OptionsAndBadges | src/components/MaintenanceManagement.jsx:15 | the select offers three distinct statuses with three distinct badges; any other status wears the "completed" green |
| MaintenanceManagement.WithStatus | src/components/MaintenanceManagement.jsx:90-92 | only requests whose `_id` matches get the new status; length, order and every other field stay |
| MaintenanceManagement.LastChoiceWins | src/components/MaintenanceManagement.jsx:90-92 | two updates of the same request leave only the second status |
| MaintenanceManagement.SameStatusNoChange | src/components/MaintenanceManagement.jsx:90-92 | re-selecting the current status leaves the list as it was |
| MaintenanceManagement.MaintenanceBoard.HandleStatusUpdate | src/components/MaintenanceManagement.jsx:79-98 | the patch carries the new status; only a 200 answer rewrites the list; any other answer or a thrown error leaves it |
| MaintenanceManagement.MaintenanceBoard.constructor | src/components/MaintenanceManagement.jsx:21 | an empty request list |
| CaretakerVisits.Params | src/components/CaretakerVisits.jsx:43-45 | the query holds skip, limit and status, and `houseId` only when the house filter is set |
| CaretakerVisits.Filtered | src/components/CaretakerVisits.jsx:69-71 | a visit is kept iff it is in the list and passes every filter that is set |
| CaretakerVisits.NarrowBoth | src/components/CaretakerVisits.jsx:70-71 | the two narrowing steps together keep exactly `Filtered` |
| CaretakerVisits.WindowMatches | src/components/CaretakerVisits.jsx:73-74 | every visit of the window is a visit of the list that passes the filters |
| CaretakerVisits.ClientPage | src/components/CaretakerVisits.jsx:68-74 | the fallback's total is the number of filtered visits and its page the window of that filtered list |
| CaretakerVisits.DeclineTarget | src/components/CaretakerVisits.jsx:252 | when `v._1d` is falsy, Decline passes `v._id` |
| CaretakerVisits.ButtonsReachBackend | src/components/CaretakerVisits.jsx:243-252 | both buttons send actions the guard accepts and aim at the row's own `_id` when it has no `_1d` |
| CaretakerVisits.VisitRows | src/components/CaretakerVisits.jsx:104-115 | one row per visit, row `i` being the cells of visit `i` |
| CaretakerVisits.VisitTable | src/components/CaretakerVisits.jsx:102-116 | the header, then seven cells per visit on the page |
| CaretakerVisits.LocationOf | src/components/CaretakerVisits.jsx:109 | a string location is itself; otherwise the location's address, "" when that is nullish |
| CaretakerVisits.VisitCells | src/components/CaretakerVisits.jsx:105-114 | seven cells: a nullish tenant name gives "", a string one itself; the phone, email and house title are each `String(x ?? "")`; the location cell is `LocationOf`, the status is rendered as it is, undefined included, and the last cell is the stamp |
| CaretakerVisits.ExportReadsBack | src/components/CaretakerVisits.jsx:101-117 | the quoted export reads back row for row; a visit with no status exports "undefined" |
| CaretakerVisits.VisitsPage.constructor | src/components/CaretakerVisits.jsx:15-22 | no filters, page 1, limit 8, total 0, server paging assumed |
| CaretakerVisits.VisitsPage.FetchVisits | src/components/CaretakerVisits.jsx:40-81 | a paged answer is taken as sent; otherwise the unpaged answer feeds the client-side page; when both fail list and total stay |
| CaretakerVisits.VisitsPage.SetStatusFilter | src/components/CaretakerVisits.jsx:158 | the status filter changes and the page goes back to 1 |
| CaretakerVisits.VisitsPage.SetHouseFilter | src/components/CaretakerVisits.jsx:172 | the house filter changes and the page goes back to 1 |
| CaretakerVisits.VisitsPage.Prev | src/components/CaretakerVisits.jsx:185 | Prev never goes below 1 |
| CaretakerVisits.VisitsPage.Next | src/components/CaretakerVisits.jsx:192-200 | Next moves on exactly when `page * limit < total` under JavaScript's converting `<` (a numeric-string total such as "20" counts as its number); for a numeric total that is the integer comparison of `GuardedNext` |
| CaretakerVisits.VisitsPage.NextAfterFallbackShowsVisits | src/components/CaretakerVisits.jsx:192-200 | after a fallback load Next never leads past the filtered visits |
| CaretakerVisits.RespondToVisit | src/components/CaretakerVisits.jsx:84-98 | only "approve" and "decline" are ever sent |
| CaretakerTenantRegistration.EditsNeverComplete | src/components/CaretakerTenantRegistration.jsx:89-94 | with an empty tenant id no sequence of modal edits makes the agreement form complete |
| CaretakerTenantRegistration.SignIffUnsignedInCsv | src/components/CaretakerTenantRegistration.jsx:129-208 | a row offers Sign iff its exported Signed cell reads "No" |
| CaretakerTenantRegistration.AgreementBody | src/components/CaretakerTenantRegistration.jsx:123-130 | one row per agreement, row `i` being the cells of agreement `i` |
| CaretakerTenantRegistration.AgreementTable | src/components/CaretakerTenantRegistration.jsx:121-130 | a six-cell header, then six cells per agreement in order |
| CaretakerTenantRegistration.SignedCell | src/components/CaretakerTenantRegistration.jsx:129 | "Yes" iff `isSigned` is truthy, else "No" |
| CaretakerTenantRegistration.AgreementCells | src/components/CaretakerTenantRegistration.jsx:123-129 | six cells: nullish names and rent give "", string ones themselves, the dates go through the date rule, the last is `SignedCell` |
| CaretakerTenantRegistration.ExportReadsBack | src/components/CaretakerTenantRegistration.jsx:120-132 | the quoted export reads back as `AgreementTable`, row for row and cell for cell |
| CaretakerTenantRegistration.AgreementRows | src/components/CaretakerTenantRegistration.jsx:129-208 | every row has six cells and its Signed cell is "No" iff it offers Sign |
| CaretakerTenantRegistration.RegistrationPage.constructor | src/components/CaretakerTenantRegistration.jsx:11-26 | empty forms, page 1, limit 8, no agreement being created |
| CaretakerTenantRegistration.RegistrationPage.Params | src/components/CaretakerTenantRegistration.jsx:44-47 | the query is skip and limit |
| CaretakerTenantRegistration.RegistrationPage.EditForm | src/components/CaretakerTenantRegistration.jsx:153-165 | the form takes the edited value; the agreement modal, the page and the list are kept |
| CaretakerTenantRegistration.RegistrationPage.RegisterTenant | src/components/CaretakerTenantRegistration.jsx:65-85 | no name or email sends nothing (the phone may be empty); success empties the form; failure keeps it |
| CaretakerTenantRegistration.RegistrationPage.EditAgreement | src/components/CaretakerTenantRegistration.jsx:233-239 | one modal input changes one field |
| CaretakerTenantRegistration.RegistrationPage.CancelAgreement | src/components/CaretakerTenantRegistration.jsx:242 | Cancel sets the agreement being created to null |
| CaretakerTenantRegistration.RegistrationPage.CreateAgreement | src/components/CaretakerTenantRegistration.jsx:89-107 | the five fields are sent only when all are non-empty; success clears the agreement being created; while the modal has never opened nothing is sent |
| CaretakerTenantRegistration.RegistrationPage.Load | src/components/CaretakerTenantRegistration.jsx:42-55 | success stores `agreements \|\| data` and the same total rule as the maintenance page |
| CaretakerTenantRegistration.RegistrationPage.Prev | src/components/CaretakerTenantRegistration.jsx:220 | Prev never goes below 1 |
| CaretakerTenantRegistration.RegistrationPage.Next | src/components/CaretakerTenantRegistration.jsx:222 | Next always increments |
| CaretakerRelocations.Params | src/components/CaretakerRelocations.jsx:36 | the query holds page, limit and status, and `houseId` only when the house filter is set |
| CaretakerRelocations.ActionsFor | src/components/CaretakerRelocations.jsx:135-142 | Approve iff pending with completed maintenance, the note iff pending otherwise, Decline iff pending |
| CaretakerRelocations.ActionsPartition | src/components/CaretakerRelocations.jsx:135-142 | a pending row shows exactly one of Approve and the note beside Decline; other rows show nothing |
| CaretakerRelocations.RelocationsBoard.constructor | src/components/CaretakerRelocations.jsx:9-20 | an empty list, no filters, page 1, no decline in progress |
| CaretakerRelocations.RelocationsBoard.Query | src/components/CaretakerRelocations.jsx:36 | the query of the current state |
| CaretakerRelocations.RelocationsBoard.SetStatusFilter | src/components/CaretakerRelocations.jsx:94 | the status filter changes and the page goes back to 1 |
| CaretakerRelocations.RelocationsBoard.SetHouseFilter | src/components/CaretakerRelocations.jsx:103 | the house filter changes and the page goes back to 1 |
| CaretakerRelocations.RelocationsBoard.Load | src/components/CaretakerRelocations.jsx:33-48 | success stores `relocations \|\| []`; failure keeps the list; loading ends false |
| CaretakerRelocations.RelocationsBoard.OpenDecline | src/components/CaretakerRelocations.jsx:141 | Decline on a row opens the modal for that row's id |
| CaretakerRelocations.RelocationsBoard.EditReason | src/components/CaretakerRelocations.jsx:154 | the text area writes the reason |
| CaretakerRelocations.RelocationsBoard.CancelDecline | src/components/CaretakerRelocations.jsx:158 | Cancel closes the modal and keeps the reason |
| CaretakerRelocations.RelocationsBoard.Decline | src/components/CaretakerRelocations.jsx:62-73 | the patch names the row and carries the reason; success clears both, failure keeps both |
| Relocations.ControlsFor | src/components/Relocations.jsx:94-131 | Approve and Decline iff pending, the driver form iff approved, the label iff assigned, nothing otherwise |
| Relocations.ChoicesMoveOn | src/components/Relocations.jsx:97-103 | after either button the row no longer offers Approve and Decline |
| Relocations.DriverInputs | src/components/Relocations.jsx:111-118 | every approved row's input shows the one shared driver id |
| Relocations.RelocationsPage.SetDriverId | src/components/Relocations.jsx:117 | typing in any approved row changes what every approved row shows |
| Relocations.RelocationsPage.constructor | src/components/Relocations.jsx:9-11 | an empty list, not loading, an empty driver id |
| Relocations.RelocationsPage.Load | src/components/Relocations.jsx:13-25 | success stores `requests \|\| []`; failure keeps the list; loading ends false |
| Relocations.RelocationsPage.AssignDriver | src/components/Relocations.jsx:39-54 | an empty driver id sends nothing; success clears the shared id, failure keeps it |
| RelocationViewer.BuildParams | src/components/RelocationViewer.jsx:13-16 | the query meets `QueryFor`: exactly the non-empty filters among status, from and to, each with its value |
| RelocationViewer.QueryForUnique | src/components/RelocationViewer.jsx:13-16 | `QueryFor` pins the query: two queries for the same filters are equal |
| RelocationViewer.Normalise | src/components/RelocationViewer.jsx:19 | an array answer is kept, else a truthy `requests`, else []; a null answer fails |
| RelocationViewer.NormaliseVersusMaintenance | src/components/RelocationViewer.jsx:19 | agrees with the maintenance page's `requests \|\| data \|\| []` except on an object without `requests` |
| RelocationViewer.ButtonsFor | src/components/RelocationViewer.jsx:113-128 | Assign Driver iff approved, Mark Completed iff assigned |
| RelocationViewer.ButtonsExclusive | src/components/RelocationViewer.jsx:113-128 | no row shows both buttons; other statuses show none |
| RelocationViewer.AssignDriver | src/components/RelocationViewer.jsx:43-53 | a cancelled or empty prompt sends nothing; otherwise the patch carries the driver id |
| RelocationViewer.MarkComplete | src/components/RelocationViewer.jsx:30-41 | the patch goes out iff the confirmation is accepted |
| RelocationViewer.ViewerPage.constructor | src/components/RelocationViewer.jsx:6-8 | an empty list and no filters |
| RelocationViewer.ViewerPage.SetStatusFilter | src/components/RelocationViewer.jsx:63 | only the status filter changes |
| RelocationViewer.ViewerPage.SetFrom | src/components/RelocationViewer.jsx:76 | the from date changes and the to date is kept |
| RelocationViewer.ViewerPage.SetTo | src/components/RelocationViewer.jsx:83 | the to date changes and the from date is kept |
| RelocationViewer.ViewerPage.Load | src/components/RelocationViewer.jsx:11-24 | the query sent is the one `QueryFor` pins for the current filters; the normalised answer replaces the list; a failed call or normalisation keeps it |
| JsNumber.NumberOf | src/components/TenantRelocationPage.jsx:44-45 | `Number(s)`: surrounding white space is ignored, a blank string is 0, otherwise the trimmed literal is read |
| JsNumber.Numeric | src/components/TenantRelocationPage.jsx:44-45 | a literal of decimal digits reads as their value |
| JsNumber.Unsigned | src/components/TenantRelocationPage.jsx:44-45 | an unsigned literal's finite value is never negative, and a run of digits is its value |
| JsNumber.Decimal | src/components/TenantRelocationPage.jsx:44-45 | a mantissa is never negative, and a run of digits is its value |
| JsNumber.NumberOfDigits | src/components/TenantRelocationPage.jsx:44-45 | a run of digits reads as its value |
| JsNumber.DigitsValueOfDigits | src/components/TenantRelocationPage.jsx:44-45 | the decimal digits of n read back as n |
| JsNumber.OneDecimal | src/components/TenantRelocationPage.jsx:65 | `Number` of two digits around a '.' is the first plus a tenth of the second |
| JsNumber.SignedDigits | src/components/TenantRelocationPage.jsx:45 | a sign and a run of digits read as the value, negated after '-' |
| JsNumber.MinusForm | src/components/TenantRelocationPage.jsx:45 | "-1", a basement floor, reads as -1 |
| JsNumber.ExponentDigits | src/components/TenantRelocationPage.jsx:65 | digits, 'e' and digits read as the mantissa times that power of ten |
| JsNumber.ExponentForm | src/components/TenantRelocationPage.jsx:65 | "3e0" reads as 3 |
| JsNumber.PrefixedDigits | src/components/TenantRelocationPage.jsx:44-45 | `0x`, `0o` or `0b` and digits of that base read in that base |
| JsNumber.PrefixedForm | src/components/TenantRelocationPage.jsx:44-45 | "0x3" reads as 3 |
| JsNumber.NumberOfLetters | src/components/TenantRelocationPage.jsx:65 | a word of lower-case letters is NaN, with or without an 'e' |
| JsNumber.TextRefused | src/components/TenantRelocationPage.jsx:65 | `Number("abc")` is NaN |
| JsNumber.BlankRefused | src/components/TenantRelocationPage.jsx:65 | `Number(" ")` is 0 |
| JsNumber.NumberOfNumToStr | src/components/CaretakerDashboardHome.jsx:268 | `String(n)` read back by `Number` is n, for every integer |
| JsNumber.LessThanNumber | src/components/CaretakerDashboardHome.jsx:268 | against a number, `<` is the comparison of integers |
| JsNumber.LessThanNumeral | src/components/CaretakerDashboardHome.jsx:268 | against the decimal string of n, `<` compares with n |
| JsNumber.NeverLessThanNaN | src/components/CaretakerDashboardHome.jsx:268 | nothing is less than `undefined` or a plain object |
| TenantRelocation.WholeRatings | src/components/TenantRelocationPage.jsx:65 | a whole-number answer is accepted iff it is 1 to 5 |
| TenantRelocation.FractionalRatingPasses | src/components/TenantRelocationPage.jsx:65 | "2.5" passes and is sent as 2.5 |
| TenantRelocation.PlusForm | src/components/TenantRelocationPage.jsx:65 | "+3" passes and reads as 3 |
| TenantRelocation.ExponentRating | src/components/TenantRelocationPage.jsx:65 | "3e0" passes and reads as 3 |
| TenantRelocation.InfinityRefused | src/components/TenantRelocationPage.jsx:65 | "Infinity" is a number but fails the range |
| TenantRelocation.RatingsRefused | src/components/TenantRelocationPage.jsx:65 | Cancel, "", text and a blank answer are refused |
| TenantRelocation.Rate | src/components/TenantRelocationPage.jsx:61-80 | a rating is sent iff it passes the check; it carries `Number(rating)`, between 1 and 5, the request id and the feedback |
| TenantRelocation.RateCellFor | src/components/TenantRelocationPage.jsx:160-168 | Rate iff completed and not rated, "Rated" iff rated, "-" otherwise |
| TenantRelocation.RelocationForm.constructor | src/components/TenantRelocationPage.jsx:8-15 | empty fields, size "small", not loading |
| TenantRelocation.RelocationForm.Edit | src/components/TenantRelocationPage.jsx:88-125 | the inputs write their fields |
| TenantRelocation.RelocationForm.Submit | src/components/TenantRelocationPage.jsx:34-59 | an empty field sends nothing; otherwise distance and floor go out as `Number` reads them (signs, exponents and base prefixes included), success resets the fields and the size to "small", failure keeps them |
| TenantRelocation.RelocationForm.Load | src/components/TenantRelocationPage.jsx:17-28 | success stores `data.requests` with no fallback |
| TenantManagement.Filtered | src/components/TenantManagement.jsx:126-128 | a tenant is shown iff it has a name whose lower case contains the lower-cased search |
| TenantManagement.FilteredKeepsOrder | src/components/TenantManagement.jsx:126-128 | the shown tenants are an order-preserving sublist of all tenants |
| TenantManagement.EmptySearch | src/components/TenantManagement.jsx:127 | an empty search shows exactly the tenants with a name |
| TenantManagement.SearchIgnoresCase | src/components/TenantManagement.jsx:127 | the search ignores the case of what is typed |
| TenantManagement.LongerSearchNarrows | src/components/TenantManagement.jsx:127 | typing more never brings back a hidden tenant |
| TenantManagement.StatusOf | src/components/TenantManagement.jsx:91 | "Expired" iff the lease end is a valid date before now |
| TenantManagement.ExpiryIsFinal | src/components/TenantManagement.jsx:203-205 | an expired lease stays expired at every later instant |
| TenantManagement.TenantCells | src/components/TenantManagement.jsx:84-92 | a row exists iff both lease dates format (`format` throws on an invalid date); then seven cells: a nullish name gives "" and a string one itself, the email and phone are rendered as `join` does (nullish as ""), a house with a truthy title shows it and one without shows "N/A", the formatted dates, and the last cell reads "Expired" iff the lease status is expired |
| TenantManagement.TenantRows | src/components/TenantManagement.jsx:83-92 | rows for all tenants iff every tenant's dates format, none otherwise; row `i` is the cells of tenant `i` |
| TenantManagement.TenantTable | src/components/TenantManagement.jsx:83-93 | iff every tenant's dates format: the header, then one row per tenant of the whole list |
| TenantManagement.ExportCsv | src/components/TenantManagement.jsx:80-94 | a CSV text is produced iff every tenant's lease dates format |
| TenantManagement.TenantLineColumns | src/components/TenantManagement.jsx:93 | a tenant's line splits into seven columns iff no cell holds a comma |
| TenantManagement.TenantsPage.constructor | src/components/TenantManagement.jsx:11-14 | an empty list, loading, an empty form and search |
| TenantManagement.TenantsPage.Visible | src/components/TenantManagement.jsx:126-128 | the rows on screen are the search applied to the loaded list |
| TenantManagement.TenantsPage.SetSearch | src/components/TenantManagement.jsx:144 | only the search changes |
| TenantManagement.TenantsPage.EditNewTenant | src/components/TenantManagement.jsx:161-173 | only the form changes |
| TenantManagement.TenantsPage.Load | src/components/TenantManagement.jsx:18-30 | success stores `tenants \|\| []`; failure keeps the list; loading ends false |
| TenantManagement.TenantsPage.AddTenant | src/components/TenantManagement.jsx:33-49 | all three fields are needed or nothing is sent; the form goes out with role "tenant"; success empties it, failure keeps it |
| ListUpdates.With | src/components/MaintenanceManagement.jsx:91 | the spread copy sets one key and copies every other key |
| ListUpdates.SetWhere | src/components/MaintenanceManagement.jsx:90-92 | records with the id get the new field, every other record stays, the length stays |
| ListUpdates.WithTwice | src/components/MaintenanceManagement.jsx:91 | writing the same key twice keeps only the second value |
| ListUpdates.SetWhereKeepsIds | src/components/MaintenanceManagement.jsx:91 | an update of a field other than `_id` keeps every record's id |
| ListUpdates.SetWhereAbsent | src/components/MaintenanceManagement.jsx:90-92 | a list without the id is left exactly as it was |
| ListUpdates.SetWhereLastWins | src/components/MaintenanceManagement.jsx:90-92 | a second update of the same records overrides the first |
| ListUpdates.RemoveWhere | src/components/HouseManagementTable.jsx:32 | the survivors are exactly the records without the id |
| ListUpdates.RemoveWhereKeepsOrder | src/components/HouseManagementTable.jsx:32 | the survivors keep their order |
| ListUpdates.RemoveWhereLength | src/components/HouseManagementTable.jsx:32 | the length drops by the number of matching records |
| ListUpdates.RemoveWhereIdempotent | src/components/HouseManagementTable.jsx:32 | removing twice is removing once |
| HouseManagementTable.HouseTable.constructor | src/components/HouseManagementTable.jsx:8-10 | an empty list, loading |
| HouseManagementTable.HouseTable.Load | src/components/HouseManagementTable.jsx:13-22 | success stores `houses \|\| []`; failure keeps the list; loading ends false |
| HouseManagementTable.HouseTable.Delete | src/components/HouseManagementTable.jsx:27-36 | nothing is sent without the confirmation; success removes exactly the houses with the id, in order; failure changes nothing |
| HouseManagementTable.DeleteLeaves | src/components/HouseManagementTable.jsx:32 | no house with the id remains, every other house does, and the length drops by the matches |
| AdminStaffPage.Flip | src/components/AdminStaffPage.jsx:33 | `isSuspended` becomes the negation of the old flag and every other field is copied |
| AdminStaffPage.FlipWhere | src/components/AdminStaffPage.jsx:30-37 | exactly the users with the id are flipped; the others and the length stay |
| AdminStaffPage.FlipWhereTwice | src/components/AdminStaffPage.jsx:30-37 | flipping twice restores the list when the flags are booleans |
| AdminStaffPage.FlipTwice | src/components/AdminStaffPage.jsx:33 | a user whose flag is a boolean comes back after two flips |
| AdminStaffPage.FlipTwiceAddsFlag | src/components/AdminStaffPage.jsx:33 | a user with no flag gets an explicit `false` after two flips |
| AdminStaffPage.StaffBoard.Load | src/components/AdminStaffPage.jsx:10-19 | success stores the list; failure keeps it; loading ends false |
| AdminStaffPage.StaffBoard.constructor | src/components/AdminStaffPage.jsx:6-7 | an empty staff list, loading |
| AdminStaffPage.StaffBoard.ToggleStatus | src/components/AdminStaffPage.jsx:25-43 | the body asks for the negated flag; success flips the matching users, failure changes nothing |
| AdminStaffPage.BodyAgreesWithFlip | src/components/AdminStaffPage.jsx:27-33 | the body sent and the local flip agree on the new flag |
| StaffListPage.RowNumber | src/components/StaffListPage.jsx:104 | the row number is `(page - 1) * 10 + index + 1` |
| StaffListPage.RowNumbersDistinct | src/components/StaffListPage.jsx:104 | rows of pages from 1 on are numbered within their page's range, and two rows share a number iff they are the same row |
| StaffListPage.Label | src/components/StaffListPage.jsx:119 | the button says Unsuspend iff the user is suspended |
| StaffListPage.ActionFor | src/components/StaffListPage.jsx:33-34 | the corrected action is "unsuspend" for a suspended user and "suspend" otherwise |
| StaffListPage.ActionAsWritten | src/components/StaffListPage.jsx:33-34 | as written, a suspended user is sent "suspend" and any other user "unsuspend" |
| StaffListPage.ActionMatchesLabel | src/components/StaffListPage.jsx:117-119 | the corrected action is the one the label names, and it flips the user |
| StaffListPage.StaffList.constructor | src/components/StaffListPage.jsx:8-12 | an empty list, no search, page 1 of 1, loading |
| StaffListPage.StaffList.Params | src/components/StaffListPage.jsx:19 | the query is the search, the page and limit 10 |
| StaffListPage.StaffList.Search | src/components/StaffListPage.jsx:50-52 | a new search goes back to page 1 |
| StaffListPage.StaffList.HandlePageChange | src/components/StaffListPage.jsx:59-61 | the page changes only to a page in 1..totalPages, so a page in range stays in range |
| StaffListPage.StaffList.Load | src/components/StaffListPage.jsx:15-29 | success stores the list, the page count and the current page as sent; failure keeps them |
| StaffListPage.StaffList.ToggleStatus | src/components/StaffListPage.jsx:31-34 | the request is the one line 117 builds: `action` is the as-written action, which always differs from the label the button shows, and `userId` is the user's `_id` |
| TenantChatRoom.FirstCaretakerMessage | src/components/TenantChatRoom.jsx:49 | the first message whose sender or receiver has role "caretaker", or none |
| TenantChatRoom.CaretakerId | src/components/TenantChatRoom.jsx:48-51 | the corrected receiver: the `_id` of the caretaker party of the found message, undefined when there is none |
| TenantChatRoom.CaretakerIdAsWritten | src/components/TenantChatRoom.jsx:48-51 | as written: undefined with no caretaker message, else the found message's sender id when truthy, else its receiver id |
| TenantChatRoom.ChatRoom.constructor | src/components/TenantChatRoom.jsx:6-8 | the house as given, no messages, empty text |
| TenantChatRoom.ChatRoom.Mount | src/components/TenantChatRoom.jsx:12-23 | messages are fetched iff the house id is truthy; a success with a body stores `data.messages` as sent, while a failure or a `null` body (which throws) keeps the list |
| TenantChatRoom.ChatRoom.SetText | src/components/TenantChatRoom.jsx:8 | only the text changes |
| TenantChatRoom.ChatRoom.Send | src/components/TenantChatRoom.jsx:31-50 | blank text sends nothing; otherwise the text goes to the receiver the code as written picks (`senderId` of the found message, else its `receiverId`); only a successful send clears it |
| Breadcrumbs.Segments | src/components/LandlordSidebarLayout.jsx:19-21 | every segment of the pathname kept for the crumbs is non-empty and holds no '/' |
| Breadcrumbs.Capitalise | src/components/LandlordSidebarLayout.jsx:24 | the first character upper-cased, the rest unchanged, the length kept |
| Breadcrumbs.Prettify | src/components/CaretakerLayout.jsx:24-26 | a caretaker crumb name has no '-', the same length as its segment, and each word start upper-cased |
| Breadcrumbs.AfterDashStartsWord | src/components/CaretakerLayout.jsx:25-26 | the character after each dash starts a word and is upper-cased |
| Breadcrumbs.Crumbs | src/components/TenantSidebarLayout.jsx:17-23 | one crumb per non-empty segment; crumb i's path is '/' followed by segments 0..i joined by '/', and its name is that segment's display form, of the same length |
| Breadcrumbs.RootHasNoCrumbs | src/components/AdminLayout.jsx:18-24 | "/" has no crumbs |
| Breadcrumbs.PathsGrow | src/components/AdminLayout.jsx:22 | every crumb path is a proper prefix of every later one |
| Breadcrumbs.CrumbPathsDistinct | src/components/LandlordSidebarLayout.jsx:23 | the crumb paths are pairwise distinct |
| Breadcrumbs.LastCrumbIsNormalPath | src/components/CaretakerLayout.jsx:18-22 | the last crumb's path is the pathname without empty segments, and its own trail is the same |
| Breadcrumbs.LinksBeforeLast | src/components/LandlordSidebarLayout.jsx:91-96 | every crumb but the last is a link; the last is plain text |
| Navbar.LinkAsWritten | src/components/Navbar.jsx:48 | "Home" links to "/"; every link starts with '/' and is at most one character longer than its label |
| Navbar.LinkAsWrittenIsClean | src/components/Navbar.jsx:79 | after its leading '/', a link has no white space and no capital |
| Navbar.AboutUsLinkAsWritten | src/components/Navbar.jsx:48 | "About Us" links to /aboutus |
| Navbar.AsWrittenAboutUsIsNotFound | src/components/Navbar.jsx:48 | as written, the About Us link shows NotFound |
| Navbar.Link | src/components/Navbar.jsx:48 | the corrected link: "About Us" goes to /about, the others as written |
| Navbar.LinksReachTheirPages | src/components/Navbar.jsx:42-51 | with the corrected links every menu item reaches its page on a public route |
| Navbar.NavigationBar.constructor | src/components/Navbar.jsx:7-8 | not scrolled, menu closed |
| Navbar.NavigationBar.Icon | src/components/Navbar.jsx:62 | the close icon iff the menu is open |
| Navbar.NavigationBar.OnScroll | src/components/Navbar.jsx:11 | `scrolled` iff `scrollY > 50` |
| Navbar.NavigationBar.ToggleMenu | src/components/Navbar.jsx:60 | the menu button flips the menu |
| Navbar.NavigationBar.FollowMobileLink | src/components/Navbar.jsx:79-81 | a mobile link closes the menu, keeps `scrolled`, and leads to the link as written, so "About Us" goes to /aboutus |
| TenantChatRoom.AsWrittenPicksTenant | src/components/TenantChatRoom.jsx:50 | as written, a tenant-to-caretaker message first yields the tenant's own id as receiver |
| TenantChatRoom.CaretakerIdIsCaretaker | src/components/TenantChatRoom.jsx:49-50 | the corrected receiver always has role caretaker, and it agrees with the code as written when the caretaker sent the message |
| StaffListPage.AsWrittenContradictsLabel | src/components/StaffListPage.jsx:33-120 | as written, each press sends the opposite of its label and leaves the user as suspended as before |

## Left out

- HTTP traffic: each `axios` call is an `Outcome` parameter. The nested
  fallback endpoints are left out: the dashboard fallback of
  `fetchDefaulters` (src/components/LandlordDashboardPage.jsx:159-173) and
  the second endpoint of `sendReminder`, which appears only as a second
  outcome. Status codes other than the 200 test of
  `handleStatusUpdate` are not modelled.
- src/utils/axiosInstance.js is not part of this model: it only logs
  rate-limit headers.
- Timers, polling intervals, visibility handling, the `Date.now() % 2`
  refresh choice and `lodash.debounce`: a debounced search is modelled as
  the call that finally happens.
- Locale formatting: dates, money and month names are parameters
  (`Value -> string`) or opaque strings. A lease end is a parsed
  millisecond count, `None` for an invalid date. The tenant list's
  date-fns `format` is a parameter `Value -> Option<string>`, `None`
  where it throws on an invalid date.
- Rendering, charts, toasts, Blob downloads, `window.open` and printing:
  the model stops at the CSV text and the data behind each chart.
- Concurrency: `Promise.all` fetches are treated as one outcome per call.
- Unicode: case mapping is ASCII only, and `\s` covers the JavaScript
  white-space set of the Basic Multilingual Plane as a fixed list. String
  lengths count UTF-16 units only in the password rules; elsewhere no
  length is compared.
- Numbers: counts, totals and pages are unbounded integers, and `Number`
  (JsNumber) yields exact values: no rounding to double precision, no
  overflow to Infinity for long literals, and no negative zero. `Number`
  and the converting `<` are modelled where the source relies on them:
  the rating, the relocation form, the activity total and the caretaker
  visits total.
- Json.Spread (and Json.Fields, the properties a spread copies): an
  array or a string spreads nothing here, where JavaScript copies its
  index keys ("0", "1", and so on) with the elements or characters as
  values. This reaches LandlordStats.MergeSuccess when the answer body is
  an array or a string (`{...prev, ...base}` with `base = res.data || {}`),
  and ListUpdates.With when a list item is one; the model's contracts
  for them describe object bodies and object items.
- Response bodies of `null`: `Json.Get` reads a field of `null` as
  `undefined`, where `res.data.x` throws and the handler takes its catch
  path. ActivityFeed.LogFeed.LoadWithDefaults and
  ActivityFeed.LogFeed.LoadRaw and TenantChatRoom.ChatRoom.Mount take
  the catch path as the source does; the handlers below do not.
- HouseManagementTable.HouseTable.Load: a `null` body stores `[]` where
  the source keeps the list.
- CaretakerMaintenance.MaintenancePage.Load: a `null` body stores `[]` and
  a total of 0 where the source keeps both.
- AuthContext.AuthProvider.Login: a `null` body stores the token
  "undefined" where the source rejects the login.
- Relocations.RelocationsPage.Load, TenantManagement.TenantsPage.Load,
  CaretakerRelocations.RelocationsBoard.Load,
  CaretakerTenantRegistration.RegistrationPage.Load,
  TenantRelocation.RelocationForm.Load,
  LandlordStats.StatsCell.LoadDefaulters and
  LandlordStats.StatsCell.LoadHouseCount: a `null` body is read as an
  answer without the field, not as a failed call.
- AdminStaffPage.StaffBoard.Load and StaffListPage.StaffList.Load: the
  answer is typed as the list, or the page record, the backend sends; a
  body of another shape is not modelled.
- Handlers whose only effect is a call followed by a refetch are modelled
  through the gating that offers them, not as methods. These are
  approving a caretaker relocation, updating a relocation status, marking
  or deleting a maintenance request, signing an agreement and the
  houses-dropdown fetches.
- TenantManagement's edit and delete of a tenant and its PDF export: they
  are outside the named operations.
- The layouts' logout buttons and the login page's forgot-password modal.
- CaretakerVisits.VisitsPage.FetchVisits: when the fallback answer is
  neither an array nor an object whose `visits` is an array, the model
  turns server paging off and stores an empty list and a total of 0. The
  source turns server paging off too, but then:
  - with a status or house filter set it throws at `filter`, so the list
    and total stay;
  - with no filter, a string answer (the body or its `visits`) makes the
    total its length and the list a slice of its characters;
  - with no filter, any other value sets the total to its `length`
    (`undefined` for an object without one) and then throws at `slice`,
    so the old list stays;
  - a `null` body throws at `.visits`, so the list and total stay.
  The method also requires `page >= 1`, which every reachable page
  satisfies.
- AuthContext.AuthProvider.Logout follows the code: local state is cleared
  only after the backend confirms. A description of the system as always
  clearing local state on logout does not match the code.
- LoginForm.LoginPage.HandleSubmit models the page-side storage writes
  through `StoreSession`. It does not model the second `login` call path
  through the context's own storage write, which `AfterLoginAbsorbsToken`
  shows to be the same write.
- The constructors and the state-changing methods above state their whole
  new state with `old(...)`. Their partners are the lemmas about the
  functions they call.

## Findings

| source | as written | input that shows it | evidently intended | confidence | as-written member | corrected member |
|---|---|---|---|---|---|---|
| src/components/Navbar.jsx:48 | "About Us" links to `/aboutus`, which no route declares | clicking "About Us" in the menu | the link goes to the declared `/about` route (src/App.js:100) | not executed | Navbar.AsWrittenAboutUsIsNotFound | Navbar.LinksReachTheirPages |
| src/components/TenantChatRoom.jsx:50 | the receiver is the found message's sender id when present, else its receiver id | messages start with the tenant's own message to the caretaker | the receiver is the caretaker party of the found message | not executed | TenantChatRoom.AsWrittenPicksTenant | TenantChatRoom.CaretakerIdIsCaretaker |
| src/components/StaffListPage.jsx:117 | `toggleStatus(user._id, user.isSuspended)` passes the current flag as `suspend` | pressing "Unsuspend" on a suspended user sends "suspend" | pass `!user.isSuspended`, so the action matches the label | not executed | StaffListPage.AsWrittenContradictsLabel | StaffListPage.ActionMatchesLabel |
