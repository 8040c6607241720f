# Helpdesk front end: client-side state model

This project models, in Dafny, the client-side state logic of a React helpdesk
front end. Users submit and cancel support tickets on a board, administrators
filter and edit them in an admin panel, and a dashboard counts them. Almost all
of the application is rendering and HTTP calls. What is modelled here are the
deterministic state transitions and derived views:

- the ticket board (`src/TicketBoard.jsx`): cancelling and archiving tickets,
  the three status columns, the submit form's updaters, the submit payload and
  logout;
- the admin panel (`src/AdminPanel.jsx`): the flattened ticket list, the
  status/priority/submitter filters, the archived-view switch, row selection,
  per-ticket edits and the submitter list;
- the shell (`src/App.jsx`): the session read from storage and the route guards;
- the login screen (`src/Login.jsx`): the login transition with its redirect,
  and registration with its password-confirmation guard;
- the dashboard (`src/AdminDashboard.jsx`): the per-bucket counts behind the
  stats cards and the pie chart, the corporate-register form, dark mode and
  logout;
- the to-do list (`src/ToDoList.jsx`) and the splash carousel
  (`src/SplashScreen.jsx`).

One module per source file, plus `Tickets` (`tickets.dfy`). `Tickets` holds the
ticket record and the list operations the components share: `filter`, the
"map and replace by id" update, and `new Set`.

## The two shapes of `tickets`

The shared `tickets` cell starts as an empty array (`src/TicketContext.jsx:7`).
The components disagree about its shape:

- `cancelTicket`, the admin filters, `handleChange` and `uniqueUsers` call
  array methods on it.
- `archiveTicket`, the board columns, `allTickets` and the dashboard counts
  index it by lower-cased status.

The model keeps both shapes as `Tickets.Collection = Flat(seq<Ticket>) |
Buckets(map<string, seq<Ticket>>)`. Each operation follows JavaScript on the
shape it receives. A `.map`, `.filter` or bucket read on a value that lacks it
gives `TypeError`. A `|| []` fallback gives the empty list. Two consequences
are proved:

- `AdminPanel.ShapesConflict`: whenever the panel's filters evaluate, the admin
  table has no rows. The table lists `allTickets`, not `filteredTickets`.
  Whenever the table could have rows, the filters throw.
- `archiveTicket` on the initial empty array yields `{}`, because
  `Object.keys([])` is empty. On a non-empty array it throws.

## Where the code departs from the expected behaviour

A cancelled ticket is expected to leave every active bucket, and a ticket is
expected never to be both in a bucket and in the archive. The code does
neither:

- `cancelTicket` only sets `archived` on matching entries of a flat list.
- `archiveTicket` leaves the archived copy in its bucket, flagged, and also
  appends it to `archivedTickets`.

The model follows the code. `TicketBoard.ArchiveKeepsActiveCopy` states the
overlap. `TicketBoard.ArchivedTicketNotShown` states why the board still hides
the ticket.

The admin panel might be expected to offer substring search on the submitter,
a location filter and a "completed" view. The code has three exact-match
drop-downs and an archived switch, and the model follows the code.

## Model

| member | source | states |
|---|---|---|
| `Tickets.Filter` | src/AdminPanel.jsx:44-48 | never longer than the input; holds only elements the predicate accepts, and every element it accepts |
| `Tickets.UpdateWhere` | src/TicketBoard.jsx:42-46 | same length; element i is `f` of the input's element i exactly when that element's id matches, otherwise unchanged |
| `Tickets.DistinctFrom` | src/AdminPanel.jsx:70 | no duplicates; an element is listed iff it occurs in the input and is not in `seen`; a subsequence of the input |
| `Tickets.DistinctFromInOrder` | src/AdminPanel.jsx:70 | the listed elements are ordered by the position of their first occurrence in the input |
| `Tickets.Lower` | src/TicketBoard.jsx:175 | same length; each ASCII capital becomes its small letter, every other character is kept |
| `Tickets.BucketOrEmpty` | src/AdminPanel.jsx:16-18 | the bucket when the key is present, the empty list otherwise |
| `TicketBoard.MarkArchived` | src/TicketBoard.jsx:51 | the copy is archived and differs from the original only in `archived` |
| `TicketBoard.CancelTicket` | src/TicketBoard.jsx:41-47 | on a flat list: same length and order; entry i changes only in `archived`, which becomes true exactly when its id matches (or it already was); on a bucketed cell: TypeError |
| `TicketBoard.CancelTicketIdempotent` | src/TicketBoard.jsx:42-46 | cancelling the same id twice equals cancelling it once |
| `TicketBoard.ArchiveBuckets` | src/TicketBoard.jsx:53-61 | same bucket keys, same bucket lengths; an entry is replaced by the archived copy exactly when its id matches, every other entry is kept |
| `TicketBoard.ArchiveUpdate` | src/TicketBoard.jsx:53-61 | succeeds exactly on a bucketed cell or an empty array and then yields a bucketed cell: the rewritten buckets, or `{}` for the empty array |
| `TicketBoard.TicketStore.constructor` | src/TicketContext.jsx:7-8 | both context cells start empty, `tickets` as an array |
| `TicketBoard.TicketStore.ArchiveTicket` | src/TicketBoard.jsx:50-64 | the key-by-key loop yields the rewritten buckets; exactly one archived copy is appended to the end of `archivedTickets`; on a TypeError neither cell changes |
| `TicketBoard.ArchiveKeepsActiveCopy` | src/TicketBoard.jsx:51-63 | the archived ticket stays at its position in its bucket, as the archived copy, so it is in a bucket and in the archive at once |
| `TicketBoard.ActiveOnly` | src/TicketBoard.jsx:180-181 | keeps exactly the unarchived tickets, never more than the input |
| `TicketBoard.BoardColumn` | src/TicketBoard.jsx:170-181 | defined exactly when bucket `lower(status)` exists; its cards are exactly the unarchived tickets of that bucket; "No tickets found" exactly when every ticket there is archived |
| `TicketBoard.ColumnKeepsBucketOrder` | src/TicketBoard.jsx:180-182 | the cards are a subsequence of the bucket, in bucket order |
| `TicketBoard.BoardStatusKeys` | src/TicketBoard.jsx:170-175 | the titles Open, In Progress, Resolved select the buckets "open", "in progress", "resolved" |
| `TicketBoard.ArchivedTicketNotShown` | src/TicketBoard.jsx:53-61 | after `archiveTicket(t)` no column shows a card with `t`'s id |
| `TicketBoard.HandleFormChange` | src/TicketBoard.jsx:100-107 | only the named key changes; the screenshot input stores its first file (undefined when none), every other input its value |
| `TicketBoard.HandleNestedChange` | src/TicketBoard.jsx:109-117 | only `form[section][field]` changes; other keys and the section's other fields are kept |
| `TicketBoard.FormField` | src/TicketBoard.jsx:240-242 | the stored value of the key, or undefined when the form lacks it |
| `TicketBoard.SectionFields` | src/TicketBoard.jsx:113 | the section's fields when it holds an object, otherwise the empty object |
| `TicketBoard.SubmitPayload` | src/TicketBoard.jsx:239-246 | status is always Open, priority Medium and screenshot null; title, description and submitter come from subject, details and requestedBy |
| `TicketBoard.PayloadFollowsFormChange` | src/TicketBoard.jsx:239-246 | after typing into an input, the payload carries the new value exactly for subject/details/requestedBy and is otherwise unchanged, whatever the screenshot |
| `TicketBoard.PayloadIgnoresSections` | src/TicketBoard.jsx:109-117 | onboarding and offboarding edits never change the payload |
| `TicketBoard.BoardLogout` | src/TicketBoard.jsx:158-162 | both session keys are gone; every other stored key keeps its value; the page loaded next is /login |
| `AdminPanel.AllTickets` | src/AdminPanel.jsx:15-19 | the open, in-progress and resolved buckets back to back (missing ones empty), its length their sum; empty on an array-shaped cell |
| `AdminPanel.AllTicketsMembers` | src/AdminPanel.jsx:15-19 | a ticket is listed iff it is in one of the three buckets |
| `AdminPanel.Matches` | src/AdminPanel.jsx:45-53 | with every filter empty any ticket passes; with every filter set a ticket passes iff its status, priority and submitter equal them |
| `AdminPanel.ApplyFilters` | src/AdminPanel.jsx:44-48 | keeps a ticket iff each of status, priority and submitter equals its filter or that filter is empty |
| `AdminPanel.ApplyFiltersKeepsOrder` | src/AdminPanel.jsx:44-48 | the result is a subsequence of the input and holds every matching ticket as often as the input does, no other ticket |
| `AdminPanel.ApplyFiltersIdempotent` | src/AdminPanel.jsx:44-48 | filtering the filtered list again changes nothing |
| `AdminPanel.NoFiltersKeepAll` | src/AdminPanel.jsx:38-48 | with all three filters empty the list is returned unchanged |
| `AdminPanel.ActiveFiltered` | src/AdminPanel.jsx:44-48 | on an array-shaped cell: exactly its matching tickets; on a bucketed cell: TypeError |
| `AdminPanel.FilteredTickets` | src/AdminPanel.jsx:50-56 | the matching archived tickets when the switch is on, the matching active ones when off; a TypeError on a bucketed cell in both cases |
| `AdminPanel.ShapesConflict` | src/AdminPanel.jsx:15-56 | if the filters evaluate, `allTickets` is empty; if `allTickets` is non-empty, the filters throw |
| `AdminPanel.ToggleSelect` | src/AdminPanel.jsx:58-62 | flips whether `id` is selected and no other id's membership; selecting appends at the end |
| `AdminPanel.ToggleSelectRemoveFrame` | src/AdminPanel.jsx:58-62 | deselecting keeps the other ids in order with their multiplicities |
| `AdminPanel.ToggleSelectTwice` | src/AdminPanel.jsx:58-62 | selecting then deselecting an unselected id restores the selection |
| `AdminPanel.SetField` | src/AdminPanel.jsx:66 | the named field takes the value; the other edited fields keep theirs |
| `AdminPanel.SetFieldRestores` | src/AdminPanel.jsx:66 | writing the old value back gives the original ticket, so nothing else changed |
| `AdminPanel.HandleChange` | src/AdminPanel.jsx:64-68 | on an array-shaped cell: same length; tickets with another id unchanged; tickets with the id change only `field`, to `value`; on a bucketed cell: TypeError |
| `AdminPanel.ChangedTicketMatchesFilter` | src/AdminPanel.jsx:64-68 | after setting a ticket's status, the status filter for that value lists it |
| `AdminPanel.Submitters` | src/AdminPanel.jsx:70 | one entry per ticket, in ticket order: its `submittedBy` |
| `AdminPanel.UniqueUsers` | src/AdminPanel.jsx:70 | no duplicates; a name is listed iff some ticket was submitted by it; names are ordered by the position of their first submitted ticket; a TypeError on a bucketed cell |
| `AdminPanel.UniqueUsersFirstAppearance` | src/AdminPanel.jsx:70 | for tickets submitted by a, b, a the list is exactly a, b |
| `App.StoredAuth` | src/App.jsx:24-26 | authenticated iff the stored string is exactly "true" |
| `App.StoredRole` | src/App.jsx:29-31 | the stored role, or "" when absent |
| `App.Session.constructor` | src/App.jsx:23-31 | the session cells start from the stored values |
| `App.MayView` | src/App.jsx:54-83 | signed out, or with a role other than admin, user and manager, no guarded screen; a manager sees the board and the panel but not the dashboard; an admin the panel and the dashboard but not the board; a user only the board |
| `App.StripTrailingSlashes` | src/App.jsx:39-90 | a prefix of the path; everything cut is "/"; the result does not end with "/" |
| `App.RouteKey` | src/App.jsx:39-90 | never longer than the path and never ending with "/": what the router compares ignoring case and trailing slashes |
| `App.PatternKeys` | src/App.jsx:40-81 | the five route patterns have the keys /login, "" (for /), /admin, /change-password and /dashboard |
| `App.Route` | src/App.jsx:37-91 | paths matched on `RouteKey`: /login and /change-password always render; /, /admin and /dashboard render their screen iff the session may view it, otherwise redirect to /login, / and /login; other paths match nothing; a rendered screen is always one the session may view |
| `App.RouteIgnoresCaseAndTrailingSlash` | src/App.jsx:39-90 | appending "/" to a path or lower-casing it never changes what it renders |
| `App.AdminPathVariants` | src/App.jsx:63-73 | "/Admin" and "/admin//" render exactly what "/admin" renders |
| `App.Resolve` | src/App.jsx:57-86 | following any number of `<Navigate replace>` hops ends on a screen the session may view or on a redirect to /login or / |
| `App.RedirectsSettle` | src/App.jsx:51-90 | from any path, two redirects reach a non-redirect page the session may view: the guards never loop |
| `App.SignedOutEndsAtLogin` | src/App.jsx:51-90 | signed out, every path the router takes for /, /admin or /dashboard ends on the login screen |
| `App.CrossRoleRedirects` | src/App.jsx:51-73 | a signed-in admin sent to / ends on the login screen; a user sent to /admin ends on the board |
| `App.ReloadAfterBoardLogout` | src/TicketBoard.jsx:158-161 | the reload after the board's logout starts signed out with no role, and its address renders the login screen |
| `Login.LandingPath` | src/Login.jsx:42-46 | /admin exactly for role admin, / for every other role |
| `Login.PersistLogin` | src/Login.jsx:39-40 | stores "true" and the role; other keys kept |
| `Login.ClearLogin` | src/Login.jsx:51-52 | removes both keys; other keys kept (the same keys the board's logout removes) |
| `Login.HandleLogin` | src/Login.jsx:28-55 | success: authenticated, role from the reply, both persisted, landing page by role; failure: keys removed, signed out, role cell untouched, no navigation |
| `Login.LoginSurvivesReload` | src/Login.jsx:36-40 | a reload after a successful login restores the same authentication and role |
| `Login.FailedLoginSurvivesReload` | src/Login.jsx:48-54 | a reload after a failed login starts signed out with no role |
| `Login.LandingPageRenders` | src/Login.jsx:42-46 | the landing page renders for admin, user and manager; any other role is redirected to /login |
| `Login.RegisterPayload` | src/Login.jsx:61-72 | a payload exists iff the two passwords agree; it maps the five form fields to first_name, last_name, email, company and password |
| `Login.LoginScreen.constructor` | src/Login.jsx:13-19 | modal closed, form fields empty |
| `Login.LoginScreen.HandleRegister` | src/Login.jsx:58-82 | sends exactly the guarded payload; the modal closes only when a payload was sent and accepted |
| `AdminDashboard.CountActive` | src/AdminDashboard.jsx:30-32 | a count never exceeds its bucket's length |
| `AdminDashboard.CountActiveIsNumUnarchived` | src/AdminDashboard.jsx:30-32 | the count equals the number of unarchived tickets, counted one by one |
| `AdminDashboard.DashboardCounts` | src/AdminDashboard.jsx:29-32 | defined iff the cell is bucketed with all three buckets; each count is its bucket's unarchived tickets and at most its length |
| `AdminDashboard.PieData` | src/AdminDashboard.jsx:89-96 | one number per label |
| `AdminDashboard.StatsProps` | src/AdminDashboard.jsx:175-179 | the three card numbers are the pie's three numbers, in label order |
| `AdminDashboard.PieSliceIsBoardColumn` | src/AdminDashboard.jsx:89-96 | slice i equals the number of cards the board shows in the column titled label i; the stats cards get the same three numbers |
| `AdminDashboard.ArchivingLowersCount` | src/TicketBoard.jsx:53-61 | archiving never adds an unarchived ticket to a bucket and removes one when the ticket was showing |
| `AdminDashboard.ArchiveNeverRaisesCounts` | src/AdminDashboard.jsx:30-32 | after `archiveTicket` no dashboard count is higher |
| `AdminDashboard.CorpPayload` | src/AdminDashboard.jsx:68-75 | the six form fields under their wire keys |
| `AdminDashboard.Dashboard.constructor` | src/AdminDashboard.jsx:35-41 | modal closed, fields empty, role User, company MSI Staff |
| `AdminDashboard.Dashboard.HandleCorpRegister` | src/AdminDashboard.jsx:66-87 | posts the current fields; on success clears names, email and password, resets role to User and closes the modal, keeping the company; on failure changes nothing |
| `AdminDashboard.Dashboard.ToggleDarkMode` | src/AdminDashboard.jsx:59-64 | flips the body class, adopts and persists its negation; when flag and class agreed, the flag is negated |
| `AdminDashboard.Logout` | src/AdminDashboard.jsx:161-167 | signed out, only `isAuthenticated` removed from storage, role kept, navigates to /login |
| `AdminDashboard.LogoutSurvivesReload` | src/AdminDashboard.jsx:164 | the reload is signed out but keeps the stored role |
| `ToDoList.IsJsWhitespace` | src/ToDoList.jsx:11 | among ASCII characters exactly space and tab through carriage return (0x09-0x0D); no white space beyond U+FEFF |
| `ToDoList.TrimStart` | src/ToDoList.jsx:11 | the result is a suffix; what is cut is white space; it does not start with white space |
| `ToDoList.TrimEnd` | src/ToDoList.jsx:11 | the result is a prefix; what is cut is white space; it does not end with white space |
| `ToDoList.Trim` | src/ToDoList.jsx:11 | the result is a slice of the text with only white space around it, and it neither starts nor ends with white space |
| `ToDoList.TrimIdempotent` | src/ToDoList.jsx:11 | trimming twice is trimming once |
| `ToDoList.TrimEmptyIffBlank` | src/ToDoList.jsx:11 | the trimmed text is empty iff every character is white space |
| `ToDoList.ToDoList.constructor` | src/ToDoList.jsx:4-7 | no tasks, form hidden, empty text, no screenshot |
| `ToDoList.ToDoList.HandleAddTask` | src/ToDoList.jsx:9-23 | blank text changes nothing; otherwise the list becomes the task with the untrimmed text followed by the old tasks, and the form is reset and hidden |
| `ToDoList.ToDoList.ToggleForm` | src/ToDoList.jsx:32 | negates `showForm` |
| `SplashScreen.NextIndex` | src/SplashScreen.jsx:17-23 | a tick adds one exactly below the last index, otherwise keeps it; it never leaves the logo list |
| `SplashScreen.AfterTicks` | src/SplashScreen.jsx:16-24 | n ticks from i never move the index back or more than n ahead, and never leave the logo list |
| `SplashScreen.AfterTicksFromStart` | src/SplashScreen.jsx:16-24 | from index i, n ticks give min(i + n, 3) |
| `SplashScreen.AfterTicksMonotone` | src/SplashScreen.jsx:16-24 | more ticks never give a smaller index |
| `SplashScreen.Splash.constructor` | src/SplashScreen.jsx:12 | the index starts at 0 |
| `SplashScreen.Splash.Tick` | src/SplashScreen.jsx:17-23 | takes one tick and keeps `0 <= index < logos.length` |
| `SplashScreen.Splash.CurrentLogo` | src/SplashScreen.jsx:46 | `logos[index]` is always defined |

## Left out

- HTTP calls (login, register, corporate register) are left out. Their replies are parameters: `LoginReply` and the `accepted` flags.
- `createTicket` is called by the submit handler but not provided by the ticket context (`src/TicketContext.jsx:11-14`), so its effect, and the modal closing after it, are not modelled. Only the payload is.
- `localStorage` is a `map<string, string>` passed in and returned. `document.body`'s class list is the dashboard's `bodyDark` field. `navigate` targets are returned paths, and the board's `window.location.href` assignment is the `href` of the returned `PageLoad`. `alert` and `console` output are dropped.
- Timers: only the splash tick's update is kept. Durations, the 5-second redirect and cleanup are left out.
- The pie label formatter (floating-point division and `toFixed`) is left out.
- Purely presentational components, bootstrapping and configuration are left out. So are the ticket board's edit and view modals.
- The admin panel's and the board's own dark-mode buttons and the admin panel's logout are not part of the modelled core.
- The password-mismatch check of `src/ChangePassword.jsx` is not part of this model.
- `AdminDashboard.Dashboard.constructor`: takes the initial dark-mode flag as a parameter. It does not model `JSON.parse` of the stored value.
- `TicketBoard.HandleFormChange`: applies to the current form. It does not model the stale `form` closure that can lose one of two changes made in one event.
- `TicketBoard.HandleNestedChange`: treats a non-object section value as `{}`. JavaScript would spread a string into its characters, but no input of the form can store a string under a section's key.
- `TicketBoard.TicketStore.ArchiveTicket`: when the first updater throws, both cells stay unchanged. React's deferred updater evaluation and the crash of the render are not modelled further.
- `AdminPanel.HandleChange`: `field` ranges over the three keys the table edits (status, priority, assignedTo), not over arbitrary property names.
- `Login.HandleLogin`: the reply's role is a string. A reply without a role, which JavaScript would store as the text "undefined", is not modelled.
- `App.Route`: matches `RouteKey`, that is ASCII case and trailing slashes ignored. Percent-decoding of the path and a router basename are not modelled. A non-ASCII character is compared as is, which is what the router's case-insensitive match does for these ASCII patterns.
- `Tickets.Lower`: lower-cases ASCII letters only. This is exact for the three column titles, not for arbitrary Unicode.
- Ticket ids are integers compared by value. Mixed string and number ids under `===` and object-prototype keys such as `constructor` in bucket lookups are not modelled.
