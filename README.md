# Yape admin panel: a verified model of its table rules

The Yape admin panel is a set of browser pages over a Firebase store with three
keyed tables:

- `devices`: Android phones that forward Yape payment notifications, each
  `pending`, `approved` or `rejected`;
- `users`: accounts, each tied to one device code;
- `payments`: the forwarded payments.

This project models what the pages compute on those tables:

- the login decision and the role gate (`js/auth.js`);
- the administrator's dashboard figures, device list, status buttons, create
  and delete actions, and the payments report (`js/admin.js`);
- the users page (`js/admin-users.js`);
- the user's own dashboard: totals, filters and the 100-row table (`js/user.js`).

How the model is built:

- Every table is a `map<string, Record>`.
- A record field the store may lack is an `Option`.
- JavaScript's `x || 0` and `x || 'N/A'` become `GetOr`, or an explicit
  truthiness test.
- `Object.values` is `Records.Values`, which enumerates the keys in a given
  `order`. `Records.Enumerates` says that `order` lists every key exactly once.

The pages hold their tables in module variables that listeners overwrite, so
each page is a class:

| page | class |
|---|---|
| admin panel | `Admin.AdminPanel` |
| users page | `AdminUsers.UsersPage` |
| user dashboard | `UserView.UserDashboard` |
| `localStorage` session | `Auth.SessionStore` |

Each class has one method per listener or button. Each method's `ensures`
states the new state, or the view it draws, in terms of pure functions, and
lemmas prove the properties of those functions.

Three loops stay loops: the running totals of `renderDashboard` and of
`updateStats` (`Admin.TallyPayments` and `UserView.UpdateStats`), and the
owner column that `results.forEach` fills in the payments report
(`Admin.OwnerColumn`). The invariants of the first two tie each accumulator
to a sum over the payments seen so far; that of the third ties each row
drawn so far to its `OwnerName`. The
staged filters of `applyReportFilters` and `applyFilters` are methods that
reassign `results`, as the scripts do, and each is proved equal to a single
filter by all the active tests.

Other modelling choices:

- **Amounts.** Amounts are integers (cents). `Payment.amount` is the number
  `parseFloat` reads, or `None` when it reads none; that case counts as 0.
- **Time.** The clock is a `now` parameter. Calendar days come from
  `Payments.Calendar`, a parameter that maps an instant to a local date and to
  the last millisecond of that date.
- **Store writes.** Every Firebase write is modelled as its effect on the
  page's copy of the table: what the listener stores once the write comes back.
- **Sorting.** The in-place `Array.prototype.sort` calls are insertion sorts of
  sequences. They are proved sorted by the scripts' comparators and to be
  permutations of their input.

## Model

| member | source | states |
|---|---|---|
| Records.RemoveKey | js/admin.js:203-206 | `ref.child(key).remove()` on the page's copy of a table (also js/admin.js:288 and js/admin-users.js:158): exactly that key goes; every other entry is unchanged |
| Records.Snapshot | js/admin.js:49 | `snap.val() \|\| {}`: no data gives the empty table, otherwise the table itself |
| Text.TrimIsSlice | js/admin.js:270 | `trim` yields a contiguous slice of its input; everything cut from either end is white space |
| Text.TrimEmpty | js/admin.js:274 | a trimmed field is empty exactly when the input is all white space |
| Text.ContainsLower | js/admin.js:333 | a text that holds the query verbatim still holds it after both are lower-cased |
| Payments.CompareByTime | js/admin.js:133 | the comparator `(b.timestamp \|\| 0) - (a.timestamp \|\| 0)` (also js/admin.js:339, js/user.js:85): negative iff `a` is newer, zero iff both have the same timestamp, a missing one counting as 0 |
| Payments.InRange | js/admin.js:323-328 | the date filter (also js/user.js:195-199): no range keeps every payment; a range keeps exactly the payments whose `timestamp \|\| 0` lies between its start and end, both included |
| Payments.SortedByTimeFollowsComparator | js/admin.js:133 | sorted newest first means the comparator `(b.timestamp\|\|0)-(a.timestamp\|\|0)` is at most 0 for every pair in list order |
| Payments.SortByTime | js/user.js:85 | the sort of `fetchUserPayments`, `renderDashboard` and `applyReportFilters`: the result is newest first (a missing timestamp counts as 0) and a permutation of the input |
| Payments.FilterKeepsOrder | js/user.js:173-202 | filtering a newest-first list leaves it newest first |
| Payments.First | js/user.js:150 | `slice(0, n)`: min(n, length) payments, a subsequence of the input; of a newest-first list it is newest first, and every payment newer than the last one kept is kept, as many times as it occurs |
| Payments.SumFilterMonotone | js/admin.js:117-126 | with no negative amount, a filter that keeps fewer payments sums to no more |
| Payments.NonNumericAddsNothing | js/admin.js:118 | a non-numeric amount adds 0: the sum over the numeric payments alone equals the sum |
| Payments.PickRange | js/admin.js:36-44 | two picked dates give a range from the first to the last instant of the second date's day; any other selection gives no range |
| Payments.PickedRangeCoversLastDay | js/admin.js:40 | under a real calendar, a payment of the range's last day that is not earlier than its start is kept, however late in that day |
| Admin.CompareDevices | js/admin.js:161-165 | the devices comparator is negative iff `a` is pending and `b` is not, or both are in the same group and `a` was created later; zero iff same group and same `createdAt \|\| 0` |
| Admin.DevicesOrderedMeaning | js/admin.js:161-165 | the comparator's order is exactly: every pending device before every other device, and newer `createdAt` first (missing counts as 0) within each group |
| Admin.SortDevices | js/admin.js:161-165 | `devices.sort(...)` yields that order and a permutation of the devices |
| Admin.StatusBadge | js/admin.js:208-212 | approved and rejected have their own badge; every other status, a missing one included, shows the pending badge |
| Admin.DeviceActions | js/admin.js:172-185 | pending offers approve and reject, approved offers reject, any other status offers approve; delete is always last; no button sets the status the device already has; every button writes to the record's own `code` ("undefined" when it has none) |
| Admin.ButtonsTargetStoredKey | js/admin.js:175-185 | a row's buttons write to the key the device is stored under when its `code` field repeats that key, and to "undefined" when the record has no `code` |
| Admin.BadgeAndActions | js/admin.js:172-212 | badge and buttons side by side, including a status outside the three that shows "pending" yet offers only approval |
| Admin.SetDeviceStatus | js/admin.js:198-201 | `update({status, updatedAt})` changes those two fields of that one key and nothing else; under an absent key it stores a record with only those two fields |
| Admin.SetDeviceStatusTwice | js/admin.js:200 | pressing the same status button twice equals pressing it once at the later time |
| Admin.PendingCountOfTable | js/admin.js:105 | the pending count over `Object.values` is the number of keys whose status is exactly "pending" |
| Admin.DecisionLeavesPending | js/admin.js:198-201 | approving or rejecting takes that device, and only it, off the pending keys |
| Admin.RemoveLeavesPending | js/admin.js:203-206 | deleting takes that device, and only it, off the pending keys |
| Admin.DecisionAndAvailability | js/admin.js:248-251 | an approved device is offered exactly when no user holds its code; a rejected one is never offered |
| Admin.Recent | js/admin.js:133-134 | the dashboard list holds min(5, n) payments, newest first, drawn from the payments, and every payment newer than the last one shown is shown, as many times as it occurs |
| Admin.TallyPayments | js/admin.js:112-126 | the loop's total is the sum of all amounts; today's sum and count are those of exactly the payments whose calendar date is today's |
| Admin.TodayAtMostTotal | js/admin.js:112-126 | with no negative amount, today's sum is at most the total, and today's count at most the number of payments |
| Admin.DeviceIs | js/admin.js:318-320 | filter 1 of the report: no device chosen keeps every payment; otherwise exactly the payments whose `deviceCode` is the chosen one |
| Admin.TextMatch | js/admin.js:330-336 | filter 3: empty text keeps every payment; otherwise exactly the payments whose sender or content is present and, lower-cased, contains the text |
| Admin.ReportKeeps | js/admin.js:315-336 | a payment passes the report iff it passes the device filter, the range filter and the text filter |
| Admin.UnsetFiltersKeepAll | js/admin.js:318-336 | with no device chosen, no range and no text, the report keeps every payment |
| Admin.SenderMentionFound | js/admin.js:331-335 | a payment whose sender contains the (lower-case) search text verbatim is found |
| Admin.FindByDevice | js/admin.js:353 | `find`: the first user whose `deviceCode` equals the payment's, or none when no user's does |
| Admin.OwnerName | js/admin.js:353-354 | the owner is the first matching user's username ("undefined" when that record has none); with no match, the payment's device code when truthy, otherwise "N/A" |
| Admin.SoleHolderIsOwner | js/admin.js:353-354 | when exactly one user holds the device, the owner is that user, whatever the table's order |
| Admin.ReportFilter | js/admin.js:315-336 | the three optional filter steps keep exactly what one filter by device, inclusive time range and text keeps |
| Admin.SortedTableMembers | js/admin.js:315-339 | the sorted report holds exactly the stored payments that pass every active filter |
| Admin.OwnerColumn | js/admin.js:348-354 | one owner per report row, row by row |
| Admin.AdminPanel.constructor | js/admin.js:8-32 | the three tables start empty, and so does the report range |
| Admin.AdminPanel.OnDevicesValue | js/admin.js:48-51 | the devices listener stores the snapshot's table |
| Admin.AdminPanel.OnUsersValue | js/admin.js:53-56 | the users listener stores the snapshot's table |
| Admin.AdminPanel.OnPaymentsValue | js/admin.js:58-61 | the payments listener stores the snapshot's table |
| Admin.AdminPanel.OnReportRangeChange | js/admin.js:36-44 | the report range becomes `PickRange` of the picked dates |
| Admin.AdminPanel.RenderDashboard | js/admin.js:100-134 | device count, pending count (the number of pending keys), total, today's sum and count, and the five newest payments |
| Admin.AdminPanel.UpdateDeviceStatus | js/admin.js:198-201 | the devices table becomes `SetDeviceStatus` of it; users and payments are unchanged |
| Admin.AdminPanel.DeleteDevice | js/admin.js:203-206 | the device's key is removed; its payments and the users stay |
| Admin.AdminPanel.ShowCreateUserModal | js/admin.js:244-266 | the options are exactly the stored devices that are approved and held by no user, in table order, each as many times as it occurs; the form opens only when there is one |
| Admin.AdminPanel.SubmitCreateUser | js/admin.js:268-284 | on success the users table becomes the one `CreateUser` yields; on error it is unchanged and the error is returned; devices and payments are unchanged |
| Admin.AdminPanel.DeleteUser | js/admin.js:286-290 | the users table loses that key; devices and payments are unchanged |
| Admin.AdminPanel.ApplyReportFilters | js/admin.js:309-354 | the rows are newest first, a permutation of what the filters keep, and hold exactly the stored payments that pass each active filter; each row gets its `OwnerName` |
| Accounts.AppUsers | js/admin.js:221 | the users whose role is not "admin", in table order, each as many times as it occurs, and no other |
| Accounts.AssignedCodes | js/admin.js:248 | `map(u => u.deviceCode)`, element by element |
| Accounts.AvailableDevices | js/admin.js:251 | a subsequence of the devices holding exactly the approved devices whose code is no user's `deviceCode`, each as many times as it occurs |
| Accounts.UnusedCodeOfTable | js/admin.js:248-251 | no value `Object.values` yields holds a code exactly when no key of the table does |
| Accounts.AvailableDevicesOfTables | js/admin-users.js:68-74 | over the two tables, the device list is exactly the stored devices that are available, each as many times as `Object.values` yields it |
| Accounts.NewUser | js/admin.js:277-279 | the stored record carries the trimmed username and password, the chosen device code, role "user" (so the users list shows it) and the write's timestamp |
| Accounts.CreateUser | js/admin.js:270-278 | missing field iff the trimmed username, the trimmed password or the device code is empty; "exists" iff the trimmed username is a key (exact, case-sensitive); otherwise the table gains exactly that key, holding `{username, password, deviceCode, role: 'user', createdAt}`, and keeps every other key |
| Accounts.CreateThenDeleteRestores | js/admin.js:277-288 | deleting the user just created gives back the table as it was |
| Accounts.CreateUserClaimsDevice | js/admin.js:248-251 | a created user's device is no longer offered; every other device's availability is as before |
| Accounts.DeleteUserFreesDevice | js/admin-users.js:158 | deleting the only holder of an approved device makes it available again |
| Accounts.CreateUserAsWritten | js/admin.js:268-284 | the handler with its truthiness test `usersData[username]` at line 275: a missing field iff a trimmed field is empty; "already exists" iff the fields are filled and the name is stored or is an `Object.prototype` member; otherwise it stores what `CreateUser` stores |
| Accounts.PrototypeNameRefused | js/admin.js:275 | a name such as "toString" with no stored user is refused as existing by the handler as written and accepted by `CreateUser` |
| Accounts.ToStringIsInherited | js/admin-users.js:111 | "toString" is an inherited member with no white space at either end, so the refusal happens for a real input |
| AdminUsers.UsersTable | js/admin-users.js:36-44 | the rows are exactly the non-administrators, in table order, each as many times as it occurs; the "no users" row appears iff every user is an administrator |
| AdminUsers.UsersTableOfTable | js/admin-users.js:36-44 | over the table: the "no users" row iff every stored role is "admin"; otherwise the rows hold exactly the stored non-administrators |
| AdminUsers.UsersPage.constructor | js/admin-users.js:13-14 | the page starts with empty copies of the `users` and `devices` tables |
| AdminUsers.UsersPage.OnUsersValue | js/admin-users.js:20-23 | the listener stores the table and draws `UsersTable` of it |
| AdminUsers.UsersPage.OnDevicesValue | js/admin-users.js:25-28 | the listener stores the table; the refreshed device list is a table-order subsequence holding exactly the available stored devices, each as many times as it occurs |
| AdminUsers.UsersPage.UpdateDeviceSelect | js/admin-users.js:65-74 | the options are a subsequence of the devices holding exactly the approved devices no user holds, each as many times as it occurs |
| AdminUsers.UsersPage.SubmitCreateUser | js/admin-users.js:98-129 | the users table becomes what `CreateUser` yields, or stays as it was with the error returned; devices are unchanged |
| AdminUsers.UsersPage.DeleteUser | js/admin-users.js:155-158 | only that key goes; devices are unchanged |
| Auth.UserSession | js/auth.js:38-43 | the stored session carries role "user" and the record's own username and device code |
| Auth.Login | js/auth.js:5-50 | an empty field is refused; exactly admin/ep38een9 gives the administrator's session; otherwise an absent key (the typed name, untrimmed) is "not found", an unequal stored password is "wrong password", and an equal one gives that record's user session |
| Auth.AdminIgnoresTable | js/auth.js:19-27 | the administrator's session does not depend on the users table |
| Auth.OnlyBuiltInIsAdmin | js/auth.js:19-44 | a granted session is an administrator's iff the built-in credentials were typed; a stored record with role "admin" still gets role "user" |
| Auth.CreatedUserLogsIn | js/auth.js:32-44 | a user the create form stored logs in with the trimmed name and password, and the session carries the chosen device |
| Auth.DeletedUserNotFound | js/auth.js:48-50 | after deletion, the user is not found, whatever the password |
| Auth.PaddedNameNotFound | js/auth.js:7 | the login does not trim: in a table of trimmed keys, a name typed with a leading blank is not found |
| Auth.Redirect | js/auth.js:71-80 | leave iff nothing is stored, or a role is required and the stored role differs; with no required role any stored session stays |
| Auth.GrantedSessionGate | js/auth.js:71-80 | a granted session passes its own role's gate and the no-role gate, and is turned away from the other role's pages |
| Auth.SessionStore.SubmitLogin | js/auth.js:20-47 | a granted login replaces the stored session; a refused one returns its error and leaves the store as it was |
| Auth.SessionStore.Logout | js/admin.js:91-94 | the stored session is removed |
| Auth.SessionStore.CheckAuth | js/auth.js:71-80 | the decision is `Redirect` of the stored session |
| UserView.FetchTarget | js/user.js:34-75 | payments are fetched only for a stored session with role "user" and a non-empty device code, and then for that code |
| UserView.DeviceQuery | js/user.js:75 | `equalTo(deviceCode)` selects exactly the stored payments whose `deviceCode` is that code, unchanged |
| UserView.PaymentsOfSnapshot | js/user.js:82-88 | no data gives an empty list; otherwise the list is the snapshot's payments (a permutation of `Object.values`), newest first |
| UserView.OnlyOwnDevice | js/user.js:75-88 | every payment the page holds is a stored payment of the user's device |
| UserView.UpdateStats | js/user.js:104-130 | the nested loop's four totals are the sums over the payments of today's date, of its month, of its year, and of all payments |
| UserView.StatsNest | js/user.js:115-130 | with no negative amount, today ≤ month ≤ year ≤ total |
| UserView.NonNumericInNoTotal | js/user.js:116 | each total is the same over the numeric payments alone |
| UserView.NameMatch | js/user.js:177-184 | empty name text keeps every payment; otherwise exactly the payments whose sender is present and, lower-cased, contains the text |
| UserView.AtLeast | js/user.js:186-192 | a minimum that `parseFloat` reads as no number keeps every payment; otherwise exactly those whose `parseFloat(amount) \|\| 0` is at least the minimum |
| UserView.KeptPassesEveryFilter | js/user.js:177-200 | a payment is shown iff it passes each active filter: the sender lower-cased contains the lower-cased name, the amount is at least the minimum, and the timestamp is in the range, both ends inclusive |
| UserView.NoSenderNotShown | js/user.js:180-182 | with a name text, a payment without a sender is never shown |
| UserView.UnsetFiltersKeepAll | js/user.js:177-200 | with no name, no number as minimum and no range, every payment is shown |
| UserView.FilterPayments | js/user.js:173-200 | the three optional steps keep exactly what one filter by all three keeps |
| UserView.RenderTable | js/user.js:138-150 | the count is of every payment; the placeholder appears iff there are none; min(100, n) rows are drawn, a subsequence of the list, newest first when the list is, with every payment newer than the last drawn drawn as many times as it occurs |
| UserView.UserDashboard.constructor | js/user.js:20-31 | no payments and no range at first; the list is newest first |
| UserView.UserDashboard.ApplyFilters | js/user.js:172-206 | the shown payments are the list filtered by every active filter, a subsequence of it, newest first, and the table drawn from them |
| UserView.UserDashboard.OnPaymentsSnapshot | js/user.js:77-91 | the list becomes `PaymentsOfSnapshot`, stays newest first; the totals are `StatsOf` the new list and the table is redrawn |
| UserView.UserDashboard.OnDateRangeChange | js/user.js:43-51 | the range becomes `PickRange` of the picked dates, and the table is redrawn under it |

## Left out

- DOM building, `innerHTML` templates, modals, `alert`/`confirm` and timers are
  left out; every `confirm` is taken as answered yes.
- Firebase subscriptions, promises and their failure paths ("Error de
  conexión", the `catch` branches) are left out, as is the `try`/`catch`
  around the filters. Only the effect of each write on the page's copy of the
  table is modelled.
- The `Object.values` enumeration order is a parameter, not Firebase's key
  order. Tie order of the sorts is left open: two payments with equal
  timestamps, or two devices the comparator ties, may come in either order.
- Floating-point arithmetic (`parseFloat`, `toFixed`) is replaced by integer
  cents.
- `Date`, `toDateString`, `getMonth`, `getFullYear`, `setHours` and
  `Date.now` are left out. The calendar and the clock are parameters, and the
  session token is not modelled.
- `localStorage` and JSON parsing are left out, as are the page redirects
  (only the decision is modelled). The user page's badge and greeting text
  are left out too.
- Database keys containing `/`, `.`, `#`, `$`, `[` or `]` are left out:
  `users/` + name then addresses another path, or the store throws.
- `populateReportUserSelect` (js/admin.js:296-307) and `renderUsers`
  (js/admin.js:218-237) only build option and row markup over
  `Accounts.AppUsers`.
- `refreshUI` (js/admin.js:63-68), which redraws the dashboard, the devices
  and the users after every listener, is left out: the listener methods only
  store their table. `Admin.AdminPanel.RenderDashboard`, `Admin.SortDevices`
  with `Admin.DeviceActions`, and `Accounts.AppUsers` model those three views
  as separate members. Tab switching (`switchTab`, js/admin.js:74-89) is
  left out too: it chooses which view is visible and, on the reports tab,
  runs `applyReportFilters`, which is `Admin.AdminPanel.ApplyReportFilters`.
- Admin.AdminPanel.SubmitCreateUser and AdminUsers.UsersPage.SubmitCreateUser:
  both use the corrected existence test of `Accounts.CreateUser` (a key
  stored in the `users` table). A name such as "toString" is refused by the
  handlers as written (js/admin.js:275, js/admin-users.js:111) but stored by
  these methods. `Accounts.CreateUserAsWritten` models the handlers as
  written, and the Findings table records the difference.
- Text.Lower: lower-cases ASCII and Latin-1 capitals only. The full Unicode
  case mapping of `toLowerCase` is left out.
- UserView.DeviceQuery: Firebase answers an empty query with no data at all;
  the model hands the empty table to the listener, which gives the same empty
  list.

## Findings

| source | as written | input that shows it | evidently intended | confidence | as-written member | corrected member |
|---|---|---|---|---|---|---|
| js/admin.js:275 | `if (usersData[username])` tests truthiness of a property lookup, which also finds members inherited from `Object.prototype` (the same test is at js/admin-users.js:111) | username "toString" (or "constructor", "valueOf", ...) with no such user stored | refuse only a username stored as a key of the `users` table | not executed | Accounts.PrototypeNameRefused | Accounts.CreateUser |
