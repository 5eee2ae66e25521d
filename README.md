# SecureCall CRM dashboard: a verified model of its rules

SecureCall CRM (dial-craft) is a collections call-centre dashboard. It is a
React front end over constant demo data. This project models in Dafny the
small rules that the front end contains, and proves properties about them:

- the account search, the disposition search plus category filter, and the
  report type filter, all stable order-preserving filters;
- the keyed list updates: switching a disposition code on or off, stamping a
  generated report, and rotating a skipped customer to the back of the call queue;
- the call console, a state machine (dialing, connected, on hold, ended,
  cleared) whose timer counts only while connected, and its `MM:SS` duration display;
- the upload page's simulated upload, the record it prepends to the history,
  and the statistics derived from that history;
- the sign-in form's empty-field guard and role inference from the email address;
- the role-filtered sidebar, the role-to-dashboard dispatch and the role badge;
- the session held by the application shell and its two route tables.

One module per source file: `Accounts`, `Dispositions`, `CallCenter`,
`Reports`, `UploadData`, `Auth` (the sign-in form), `AppSidebar`, `Dashboard`
and `App`. Three shared modules sit under them:

- `Text` models the JavaScript string operations the pages use: `trim`,
  ASCII `toLowerCase`/`toUpperCase`, `includes`, and decimal `toString`.
- `Seqs` models `Array.prototype.filter` and `filter(...).length`. It proves
  that a filter keeps exactly the passing elements, in their original order.
- `Wrappers` holds an `Option` type for the source's nullable values.

Pure code is modelled as functions. Code that changes React state step by
step is modelled as a class whose methods are the handlers:

- `CallCenter.CallConsole` for the call console;
- `UploadData.UploadPage` for the upload page;
- `Auth.LoginForm` for the sign-in form;
- `App.Session` for the signed-in user.

Timer callbacks become separate methods that a caller invokes in order.
Clock readings and random draws become parameters. The draws are
constrained to the integer ranges that the code produces.

## Model

| member | source | states |
|---|---|---|
| Text.BlankIff | src/pages/Accounts.tsx:96 | `!query.trim()` holds exactly when the string is empty or every character is ECMAScript whitespace |
| Text.ContainsIff | src/pages/Accounts.tsx:102-104 | `includes` as used here holds exactly when the pattern occurs at some position of the string |
| Text.ContainsLower | src/pages/Accounts.tsx:102 | a match survives folding both sides to lower case |
| Text.MissingChar | src/pages/Accounts.tsx:102-104 | a string lacking some character of the pattern does not include the pattern |
| Text.DecimalRoundTrip | src/pages/CallCenter.tsx:86 | `toString` of a natural number is a digit string whose value is that number |
| Text.Trim | src/pages/Accounts.tsx:96 | `trim` returns a contiguous piece of the input with only whitespace cut on either side, neither starting nor ending with whitespace |
| Text.Contains | src/pages/Accounts.tsx:102-104 | a string includes a pattern only if the pattern is no longer than it |
| Seqs.FilterMembership | src/pages/Accounts.tsx:101 | an element is in a filter's result iff it is in the input and passes the predicate |
| Seqs.Filter | src/pages/Accounts.tsx:101-105 | `filter` returns no more elements than its input, each of them from the input and passing the predicate |
| Seqs.FilterIsSubsequence | src/pages/Accounts.tsx:101 | the filter result is the input at strictly increasing positions, so input order is kept |
| Seqs.KeptIndicesComplete | src/pages/Accounts.tsx:101 | every input position whose element passes is among the kept positions |
| Seqs.FilterIdempotent | src/pages/Reports.tsx:124-126 | filtering again with the same predicate changes nothing |
| Seqs.CountSplit | src/pages/Dispositions.tsx:165-170 | counts under two complementary predicates add up to the length |
| Text.TrimStart | src/pages/Accounts.tsx:96 | the leading-whitespace cut of `trim` removes only whitespace and leaves a suffix of the input that does not start with whitespace |
| Text.TrimEnd | src/pages/Accounts.tsx:96 | the trailing-whitespace cut of `trim` removes only whitespace and leaves a prefix of the input that does not end with whitespace |
| Text.TrimStartEmptyIff | src/pages/Accounts.tsx:96 | cutting leading whitespace leaves nothing iff every character is whitespace |
| Text.TrimEndEmptyIff | src/pages/Accounts.tsx:96 | cutting trailing whitespace leaves nothing iff every character is whitespace |
| Text.LowerChar | src/pages/Accounts.tsx:102 | `toLowerCase` maps each of A-Z to its letter in a-z (code point plus 32) and leaves every other character alone |
| Text.UpperChar | src/pages/Dashboard.tsx:164 | `toUpperCase` maps each of a-z to its letter in A-Z (code point minus 32) and leaves every other character alone |
| Text.LowerOfUpper | src/pages/Dashboard.tsx:164 | lower-casing after upper-casing is the same as lower-casing |
| Text.Lower | src/pages/Accounts.tsx:102 | `toLowerCase` keeps the length and lower-cases each character in place |
| Text.ContainsEmpty | src/pages/Dispositions.tsx:159-160 | every string includes the empty string, so an empty query matches everything |
| Text.DecimalString | src/pages/CallCenter.tsx:86 | `toString` of a natural number is a non-empty run of digits with no leading zero unless the number is 0; one digit iff the number is below 10 and two for 10 to 99 |
| Text.DecimalLeadingZero | src/pages/CallCenter.tsx:86 | padding a digit string with a leading '0' keeps its value |
| Seqs.FilterAllPass | src/pages/Reports.tsx:124-126 | when every element passes, filtering returns the input |
| Seqs.FilterNonePass | src/components/layout/AppSidebar.tsx:65-66 | when no element passes, filtering returns the empty list |
| Seqs.FilterEmptyIff | src/pages/Accounts.tsx:305 | the filter result is empty iff no element passes |
| Seqs.FilterCongruent | src/pages/Dispositions.tsx:158-163 | predicates agreeing on every element give the same result |
| Seqs.FilterAppend | src/components/layout/AppSidebar.tsx:65-66 | filtering a concatenation concatenates the filtered parts |
| Accounts.HandleSearch | src/pages/Accounts.tsx:94-107 | the query is stored verbatim; a blank query shows every seed account; otherwise an account is shown iff it is a seed account matching on lower-cased name, raw phone or lower-cased id |
| Accounts.Search | src/pages/Accounts.tsx:96-105 | the shown list is never longer than the account list and holds only its accounts |
| Accounts.SearchForgetsHistory | src/pages/Accounts.tsx:97-101 | the shown list depends on the latest query only, never on the previous view |
| Accounts.BlankQueryShowsAll | src/pages/Accounts.tsx:96-99 | an empty or whitespace-only query returns the list unchanged |
| Accounts.SearchMembership | src/pages/Accounts.tsx:101-105 | for a non-blank query, an account is kept iff its name or id contains the query ignoring case, or its phone contains the query exactly |
| Accounts.SearchIsSubsequence | src/pages/Accounts.tsx:101-105 | the result is an order-preserving subsequence of the input and no longer than it |
| Accounts.SearchIdempotent | src/pages/Accounts.tsx:101-105 | searching the result again with the same query changes nothing |
| Accounts.InitialViewIsBlankSearch | src/pages/Accounts.tsx:91-92 | the mount state equals what an empty search produces |
| Accounts.NoResultsIff | src/pages/Accounts.tsx:305-310 | the empty-state message appears iff the query is not blank and no seed account matches it |
| Accounts.DelinquentCountCounts | src/pages/Accounts.tsx:197 | the delinquent count counts exactly the delinquent accounts and is at most the list length |
| Accounts.DelinquentCount | src/pages/Accounts.tsx:197 | the Delinquent card never counts more accounts than there are |
| Accounts.MissingFirstCharNoMatch | src/pages/Accounts.tsx:101-105 | an account none of whose fields holds the query's first character (case-folded for name and id) does not match |
| Accounts.Search555ShowsAll | src/pages/Accounts.tsx:30-71 | searching the four seed accounts for "555" keeps all of them: every phone number has the 555 area code |
| Accounts.MockAccountsMissZzz | src/pages/Accounts.tsx:30-71 | no seed account matches "zzz" |
| Accounts.SearchZzzShowsNone | src/pages/Accounts.tsx:305-310 | searching the seed data for "zzz" shows the empty state |
| Accounts.MockDelinquentCount | src/pages/Accounts.tsx:197 | the Delinquent card shows 1 for the seed accounts |
| Dispositions.FilteredDispositions | src/pages/Dispositions.tsx:158-163 | a code is shown iff its label or key contains the query ignoring case and the category select is "all" or its category |
| Dispositions.EmptyQueryAllShowsEverything | src/pages/Dispositions.tsx:158-163 | an empty query with "all" shows every code in order |
| Dispositions.FilteredIsSubsequence | src/pages/Dispositions.tsx:158-163 | the shown codes are an order-preserving subsequence |
| Dispositions.UnknownCategoryShowsNothing | src/pages/Dispositions.tsx:161 | a category string naming no category shows nothing |
| Dispositions.StatsAddUp | src/pages/Dispositions.tsx:165-170 | the contact, no-contact and outcome counters add up to the total |
| Dispositions.Stats | src/pages/Dispositions.tsx:165-170 | the total is the number of codes and each category counter is at most the total |
| Dispositions.ToggleActive | src/pages/Dispositions.tsx:172-178 | length is kept; records with the id have `isActive` negated and every other field unchanged; other records are unchanged |
| Dispositions.ToggleTwiceIsIdentity | src/pages/Dispositions.tsx:172-178 | toggling the same id twice restores the list |
| Dispositions.ToggleUnknownIdIsIdentity | src/pages/Dispositions.tsx:172-178 | an id no record carries leaves the list unchanged |
| Dispositions.ToggleKeepsStats | src/pages/Dispositions.tsx:165-178 | toggling never changes the category counters |
| Dispositions.ToggleKeepsCount | src/pages/Dispositions.tsx:165-178 | toggling keeps the count of each category |
| Dispositions.ToggleKeepsDeleteRule | src/pages/Dispositions.tsx:350 | the delete button is disabled iff the code is a default one, before and after any toggle |
| Dispositions.CategoryLabelInjective | src/pages/Dispositions.tsx:144-151 | different categories get different labels |
| Dispositions.CategoryLabel | src/pages/Dispositions.tsx:144-151 | every category gets one of its three labels, never "Other" |
| CallCenter.Pad2 | src/pages/CallCenter.tsx:86 | `padStart(2, '0')` of a number gives digits whose value is the number; two of them iff it is below 100; a leading zero iff it is below 10 |
| CallCenter.FormatDuration | src/pages/CallCenter.tsx:83-87 | the display is a duration text whose minutes field reads back as `seconds / 60` and whose two-digit seconds field reads back as `seconds % 60` (so below 60); it is five characters iff the duration is under 6000 s |
| CallCenter.DurationParts | src/pages/CallCenter.tsx:86 | the minutes and the two second digits can be cut back out of the rendered text around the colon |
| CallCenter.FormatDurationRoundTrip | src/pages/CallCenter.tsx:83-87 | reading the display back gives the duration |
| CallCenter.ParseDuration | src/pages/CallCenter.tsx:83-87 | reading a duration text gives the number of seconds whose minutes and seconds are the two fields |
| CallCenter.ParseDurationRoundTrip | src/pages/CallCenter.tsx:83-87 | every duration text is the display of the duration it reads back as |
| CallCenter.SixtyFiveSecondsDisplay | src/pages/CallCenter.tsx:83-87 | 65 s is shown as "01:05" |
| CallCenter.SkipQueue | src/pages/CallCenter.tsx:148-151 | the skipped customer, one attempt more, is last; the entries before it are the queued customers with another id |
| CallCenter.SkipQueueKeepsOrder | src/pages/CallCenter.tsx:149 | the customers ahead keep their relative order |
| CallCenter.SkipQueueLength | src/pages/CallCenter.tsx:148-151 | the length changes by one minus the number of entries with the skipped id, so it is unchanged when the customer was queued once |
| CallCenter.CallConsole.constructor | src/pages/CallCenter.tsx:99-104 | the console starts with the demo queue, no call, no customer, empty notes and no disposition |
| CallCenter.CallConsole.StartCall | src/pages/CallCenter.tsx:120-126 | the customer is set and the call is dialing at duration 0; the rest of the state is unchanged |
| CallCenter.CallConsole.StartAutoDialing | src/pages/CallCenter.tsx:207-218 | with no call active, calls the head of the queue; an empty queue starts nothing |
| CallCenter.CallConsole.PickFromQueue | src/pages/CallCenter.tsx:398-402 | a click on one of the first five entries starts a call only when none is active |
| CallCenter.CallConsole.ConnectTimeout | src/pages/CallCenter.tsx:129-131 | the timeout marks any call still present as connected and leaves "no call" alone |
| CallCenter.CallConsole.TimerTick | src/pages/CallCenter.tsx:107-118 | a tick adds exactly one second while connected and changes nothing otherwise |
| CallCenter.CallConsole.HoldEnabled | src/pages/CallCenter.tsx:304 | the hold button is enabled iff a call is connected or on hold |
| CallCenter.CallConsole.PressHold | src/pages/CallCenter.tsx:299-304 | an enabled hold button swaps on hold and connected; a disabled one changes nothing |
| CallCenter.CallConsole.EndCall | src/pages/CallCenter.tsx:134-135 | the call, if any, is marked ended |
| CallCenter.CallConsole.ClearAfterEnd | src/pages/CallCenter.tsx:137-142 | call, customer, notes and disposition are cleared; queue and mute are kept |
| CallCenter.CallConsole.SkipCall | src/pages/CallCenter.tsx:145-157 | with a current customer the queue is rotated as `SkipQueue` says, otherwise kept; in both cases the call state is cleared |
| CallCenter.CallConsole.SetNotes | src/pages/CallCenter.tsx:103 | the notes are replaced |
| CallCenter.CallConsole.SelectDisposition | src/pages/CallCenter.tsx:104 | the chosen disposition is replaced |
| CallCenter.CallConsole.ToggleMute | src/pages/CallCenter.tsx:290 | the mute flag flips |
| CallCenter.CallConsole.SaveEnabled | src/pages/CallCenter.tsx:374 | "Save Call Log" is enabled iff the notes hold a non-whitespace character and a disposition is chosen |
| CallCenter.CallConsole.ShowsCustomerCard | src/pages/CallCenter.tsx:226 | in the active-call panel, the customer card is shown iff a call is active, since a call never exists without its customer |
| CallCenter.SixtyFiveSecondCall | src/pages/CallCenter.tsx:107-135 | a call that connects and runs 65 ticks shows "01:05", and ticks after it ends do not change it |
| CallCenter.EndedWhileDialingReconnects | src/pages/CallCenter.tsx:129-135 | a call ended while still dialing becomes connected when the connection timeout fires, and its timer counts again |
| Reports.FilteredReports | src/pages/Reports.tsx:124-126 | a report is shown iff the select is "all" or names its type |
| Reports.AllTypesShowsEverything | src/pages/Reports.tsx:124-126 | "all" shows every report in order |
| Reports.FilteredReportsIsSubsequence | src/pages/Reports.tsx:124-126 | the shown reports are an order-preserving subsequence |
| Reports.NoReportsIff | src/pages/Reports.tsx:337 | the "No Reports Found" card appears iff no report passes the type select |
| Reports.SeedShowsNoReportsOnlyForUnknownType | src/pages/Reports.tsx:29-84 | with the six demo reports the card appears iff the select names no type |
| Reports.GenerateReport | src/pages/Reports.tsx:128-135 | length is kept; reports with the id get the new timestamp and every other field unchanged; other reports are unchanged |
| Reports.GenerateUnknownIdIsIdentity | src/pages/Reports.tsx:130-134 | an unknown id leaves the list unchanged |
| Reports.GenerateTwiceKeepsLatest | src/pages/Reports.tsx:128-135 | generating twice equals generating once with the later timestamp |
| Reports.GenerateKeepsFilter | src/pages/Reports.tsx:124-135 | generating a report never changes how many reports a type filter shows |
| Reports.TypeColorDistinct | src/pages/Reports.tsx:93-100 | each report type gets its own colour, never the fallback; any other string gets the fallback |
| Reports.TypeColor | src/pages/Reports.tsx:93-100 | the fallback colour is given iff the string names none of the three report types |
| Reports.FormatIconDistinct | src/pages/Reports.tsx:111-118 | each format gets its own icon; an unknown format gets the pdf icon |
| Reports.FormatIcon | src/pages/Reports.tsx:111-118 | the icon is one of the three; the pdf icon is given iff the format is neither excel nor csv |
| UploadData.StatusColorDistinct | src/pages/UploadData.tsx:64-71 | each status gets its own colour, never the fallback; any other string gets the fallback |
| UploadData.StatusColor | src/pages/UploadData.tsx:64-71 | the fallback colour is given iff the string names none of the three statuses |
| UploadData.SuccessfulUploadsCounts | src/pages/UploadData.tsx:156-157 | successful uploads are the entries with status success, never more than all uploads |
| UploadData.TotalRecordsPrepend | src/pages/UploadData.tsx:158 | the left-fold sum of `successRows` over a prepended history adds the new entry's rows |
| UploadData.StatsPrepend | src/pages/UploadData.tsx:155-158 | prepending an upload adds one upload, one success if it succeeded, and its success rows |
| UploadData.Stats | src/pages/UploadData.tsx:155-158 | the upload count is the history length and successful uploads never exceed it |
| UploadData.TotalRecords | src/pages/UploadData.tsx:158 | the record total is not negative when no entry has negative success rows |
| UploadData.MockStats | src/pages/UploadData.tsx:31-62 | the demo history shows 3 uploads, 2 successful and 2457 records |
| UploadData.NewUploadCounts | src/pages/UploadData.tsx:133-144 | for every draw the code can make, success and error rows add up to the total, at least 51 rows succeed, the status is success, the file name is the first file's, and the id is `UP-` followed by the clock reading |
| UploadData.NewUpload | src/pages/UploadData.tsx:134-144 | the new record is a success by the current uploader for the given file, with success and error rows adding up to the total |
| UploadData.UploadPage.constructor | src/pages/UploadData.tsx:83-86 | the page starts with the demo history, not uploading, progress 0, no drag highlight |
| UploadData.UploadPage.DragOver | src/pages/UploadData.tsx:88-91 | dragging over sets the highlight |
| UploadData.UploadPage.DragLeave | src/pages/UploadData.tsx:93-96 | leaving clears the highlight |
| UploadData.UploadPage.HandleFileUpload | src/pages/UploadData.tsx:106-116 | an empty file list changes nothing; otherwise uploading starts at progress 0 with the progress interval and the processing timeout armed and the first file's name kept; the highlight and the history are untouched |
| UploadData.UploadPage.HandleDrop | src/pages/UploadData.tsx:98-104 | an empty drop changes nothing but clearing the highlight; otherwise the highlight is cleared and uploading starts at progress 0 with the progress interval and the processing timeout armed and the first file's name kept; the history is untouched |
| UploadData.UploadPage.ProgressTick | src/pages/UploadData.tsx:118-126 | below 95 progress grows by the draw; at 95 or more it is pinned to 95 and the interval stops; progress stays in [0, 105) |
| UploadData.UploadPage.FinishProcessing | src/pages/UploadData.tsx:129-146 | progress reads 100 and the new record, with `successRows` recomputed, is put in front of the unchanged history |
| UploadData.UploadPage.ResetAfterUpload | src/pages/UploadData.tsx:148-151 | uploading ends and progress returns to 0 |
| UploadData.UploadOneFile | src/pages/UploadData.tsx:111-162 | one whole upload on a fresh page gives 4 uploads, 3 successful and 2457 plus the new success rows, with the new file first |
| Auth.InferRoleCases | src/components/auth/LoginForm.tsx:40-43 | the role is "admin" iff the email includes "admin"; "manager" iff it includes "manager" and not "admin"; "agent" iff it includes neither; so it is always one of the three |
| Auth.InferRole | src/components/auth/LoginForm.tsx:41-43 | the role is one of admin, manager and agent, and admin whenever the email includes "admin" |
| Auth.AdminSurvivesAffixes | src/components/auth/LoginForm.tsx:42 | text added around an admin email keeps it admin |
| Auth.AdminDemoRole | src/components/auth/LoginForm.tsx:40-43 | "admin@bank.com" signs in as admin |
| Auth.ManagerDemoRole | src/components/auth/LoginForm.tsx:40-43 | "manager@bank.com" signs in as manager |
| Auth.AgentDemoRole | src/components/auth/LoginForm.tsx:40-43 | "agent@bank.com" signs in as agent |
| Auth.CapitalisedAdminLacksAdmin | src/components/auth/LoginForm.tsx:42 | "Admin@bank.com" does not include "admin" |
| Auth.CapitalisedAdminIsAgent | src/components/auth/LoginForm.tsx:40-43 | matching is case-sensitive: "Admin@bank.com" signs in as agent |
| Auth.LoginForm.constructor | src/components/auth/LoginForm.tsx:15-18 | the form starts empty and not loading |
| Auth.LoginForm.SetEmail | src/components/auth/LoginForm.tsx:15 | the email field is replaced |
| Auth.LoginForm.SetPassword | src/components/auth/LoginForm.tsx:16 | the password field is replaced |
| Auth.LoginForm.ToggleShowPassword | src/components/auth/LoginForm.tsx:17 | the show-password flag flips |
| Auth.LoginForm.SubmitEnabled | src/components/auth/LoginForm.tsx:130 | the submit button is enabled iff no sign-in is loading |
| Auth.LoginForm.BeginSubmit | src/components/auth/LoginForm.tsx:22-34 | an empty email or password stops the submission without starting to load; otherwise loading starts with the current email and password |
| Auth.LoginForm.FinishSubmit | src/components/auth/LoginForm.tsx:40-61 | `onLogin` receives the email and password unchanged with the inferred role, and loading ends |
| Auth.SignInAsAdmin | src/components/auth/LoginForm.tsx:22-61 | typing the admin demo account and submitting calls `onLogin` with role admin |
| Auth.SubmitWithoutPassword | src/components/auth/LoginForm.tsx:25-32 | submitting without a password starts nothing |
| AppSidebar.EffectiveRole | src/components/layout/AppSidebar.tsx:54 | a missing role prop means "agent" |
| AppSidebar.VisibleItems | src/components/layout/AppSidebar.tsx:65-66 | an entry is shown iff its roles include the user's role |
| AppSidebar.VisibleItemsIsSubsequence | src/components/layout/AppSidebar.tsx:65-66 | shown entries keep the table's order |
| AppSidebar.VisiblePrefix | src/components/layout/AppSidebar.tsx:65-66 | when the entries a role may see form a prefix of a table, the menu is exactly that prefix |
| AppSidebar.AgentMenu | src/components/layout/AppSidebar.tsx:34-43 | an agent sees exactly the first three entries (Dashboard, Accounts, Call Center) |
| AppSidebar.ManagerMenu | src/components/layout/AppSidebar.tsx:34-43 | a manager sees exactly the first six entries, everything but the two administration entries |
| AppSidebar.AdminMenu | src/components/layout/AppSidebar.tsx:34-43 | an admin sees all eight entries |
| AppSidebar.IntegrationMenus | src/components/layout/AppSidebar.tsx:45-48 | integrations: none for an agent, 3CX Status for a manager, both for an admin |
| AppSidebar.TablesNameKnownRoles | src/components/layout/AppSidebar.tsx:34-48 | both tables name only admin, manager and agent |
| AppSidebar.UnknownRoleSeesNothing | src/components/layout/AppSidebar.tsx:65-66 | a role other than the three sees two empty menus |
| AppSidebar.RolesAreNested | src/components/layout/AppSidebar.tsx:34-48 | whatever an agent sees a manager sees, and whatever a manager sees an admin sees |
| AppSidebar.AdministrationHidden | src/components/layout/AppSidebar.tsx:41-42 | an entry shown to any role but admin is neither User Management nor System Settings |
| AppSidebar.AdministrationIsAdminOnly | src/components/layout/AppSidebar.tsx:41-42 | User Management and System Settings are shown iff the role is admin |
| AppSidebar.ShowsIntegrationsIff | src/components/layout/AppSidebar.tsx:105 | the Integrations group is rendered iff the role is admin or manager |
| AppSidebar.DefaultRoleMenu | src/components/layout/AppSidebar.tsx:54-66 | without a role prop the menu is the agent's first three entries and there is no Integrations group |
| AppSidebar.AtMostOneActive | src/components/layout/AppSidebar.tsx:59 | no two entries share a url, so exact path comparison highlights at most one entry |
| AppSidebar.IsActive | src/components/layout/AppSidebar.tsx:59 | an entry is highlighted only on its own url: a deeper path under it never highlights it |
| App.SignedOutRoutes | src/App.tsx:39-43 | signed out, only "/login" resolves to the form; every other path redirects to it |
| App.SignedOutAlwaysSeesLogin | src/App.tsx:39-43 | signed out, every path ends at the sign-in form |
| App.RenderNeverRedirects | src/App.tsx:39-62 | no route redirects to another redirect |
| App.RootShowsDashboard | src/App.tsx:51-52 | signed in, "/" redirects to "/dashboard", which receives the user's role |
| App.SignedInFoundIff | src/App.tsx:50-62 | signed in, a path is found iff it is one of the listed routes; "/login" is not found |
| App.RoutesIgnoreRole | src/App.tsx:50-62 | route resolution ignores the role apart from handing it to the dashboard; an agent at "/users" gets that route |
| App.SidebarLinksResolve | src/App.tsx:50-62 | every sidebar link, for any role, resolves to a page rather than "not found" |
| App.Session.constructor | src/App.tsx:22 | the app starts signed out |
| App.Session.HandleLogin | src/App.tsx:24-26 | the user becomes the given email and role; the password is dropped |
| App.Session.HandleLogout | src/App.tsx:28-30 | the user is cleared |
| App.Session.CurrentElement | src/App.tsx:39-62 | signed out every path shows the form; signed in "/" and "/dashboard" show the role's dashboard |
| App.Resolve | src/App.tsx:39-62 | signed out, a path gives the form or a redirect to "/login"; signed in, redirects go to "/dashboard"; the dashboard receives the signed-in user's role |
| App.Render | src/App.tsx:39-62 | following a route's redirect never ends at another redirect, and signed out it always ends at the form |
| App.AdminSidebar | src/App.tsx:45-49 | an admin's sidebar offers User Management, System Settings and the integrations |
| App.NonAdminSidebar | src/App.tsx:45-49 | any signed-in user who is not an admin is offered neither administration entry |
| App.AgentSidebar | src/App.tsx:45-49 | an agent's sidebar offers neither administration entry nor the integrations |
| App.AdminSession | src/App.tsx:22-62 | signing in as the admin demo account lands on the manager dashboard with the administration entries; signing out sends every path to the form |
| App.AgentSession | src/App.tsx:22-62 | signing in as the agent demo account lands on the agent dashboard without administration entries or integrations |
| Dashboard.DispatchCases | src/pages/Dashboard.tsx:88-94 | "agent" or a missing role gets the agent dashboard; "manager" and "admin" the manager dashboard; any other string the generic one, whose badge equals the role up to case |
| Dashboard.Dispatch | src/pages/Dashboard.tsx:88-94 | the generic dashboard is given only for a present role, and its badge equals the role up to case |
| Dashboard.UnknownRoleBadge | src/pages/Dashboard.tsx:88-94 | "supervisor" gets the generic dashboard badged "Supervisor" |
| Dashboard.CapitalisedRoleIsGeneric | src/pages/Dashboard.tsx:88-94 | "Admin" is not an admin here: it gets the generic dashboard badged "Admin" |
| Dashboard.Capitalize | src/pages/Dashboard.tsx:164 | the badge keeps the role's length and every character but the first, which is upper-cased |
| Dashboard.CapitalizeIdempotent | src/pages/Dashboard.tsx:164 | capitalising twice is capitalising once |
| Dashboard.CapitalizeKeepsFolding | src/pages/Dashboard.tsx:164 | the badge differs from the role only in case |
| Dashboard.ChangeColorCases | src/pages/Dashboard.tsx:52-53 | positive is green, negative red, anything else muted, each as an if-and-only-if |
| Dashboard.ChangeColor | src/pages/Dashboard.tsx:52-53 | the colour is one of green, red and muted |

## Left out

- Markup and styling are not modelled. Only the colour and label mappings named above are.
- Timers and wall-clock time are not modelled. Each `setTimeout`/`setInterval` callback is a method the caller invokes. Timestamps and `Date.now()` are parameters.
- Interleavings of timers that the page does not order are not modelled. Examples are a connection timeout left over from an earlier call, or an interval firing after its clear. `CallCenter.EndedWhileDialingReconnects` shows the one ordering that stays within a single call.
- Floating point is not modelled: the upload error rate, currency formatting, balance sums, the KPI count-up animations and the random agent figures on the reports page.
- Random draws are parameters. The integer draws are constrained to their ranges. The progress increment is a real in [0, 10).
- UploadData.Stats: `errorRate` is a floating-point percentage and is not part of the modelled statistics.
- UploadData.UploadPage.HandleFileUpload: requires that no upload is in progress. The drop zone and file input are not rendered while one runs, so overlapping uploads are not modelled.
- Text.Lower: ASCII case mapping only. JavaScript maps the whole of Unicode.
- Dashboard.Capitalize: ASCII upper-casing only, so characters whose upper case is longer (such as `ß`) are not modelled.
- Reports.TypeColor and Reports.FormatIcon take the type and format strings, so their default branches are kept. The record types use enumerations, so an out-of-range type or format inside a record cannot occur in the model.
- Dispositions.CategoryLabel: the `default: "Other"` branch cannot be reached for the three-valued category type, and is not modelled.
- Toasts, `navigate`, react-router matching details (trailing slashes, case), react-query, theme and sidebar providers, and the artificial sign-in delay are not modelled. Routes are matched by exact string comparison.
- Route elements are names only. `ComingSoon` stands for the placeholder pages. The rendered content of the other pages is not modelled.
- The static screens are not modelled. The agent and manager dashboards, the 3CX status page, the login page and the layout carry no logic beyond what is named above.
- The React rule that hooks must not follow an early return (pages/Dashboard.tsx:95) is a runtime concern of React. Only the dispatch it guards is modelled.
- Icons, the priority colours of the call queue, `getStatusIcon` and `getTypeIcon` are display only and are not modelled.
