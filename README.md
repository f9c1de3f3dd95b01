# Expense-management web client: session, route guard and dashboard state in Dafny

This project models the client-side core of a role-based expense-management
web client (an Angular application). Employees file expense claims against
budgets, managers approve or reject them and manage budgets, and
administrators see aggregate totals. The model covers:

- **The session store and role resolver** (`AuthService`, module `Session`).
  It is a class over a string-to-string store with four keys: `token`,
  `email`, `role` and `userId`.
  - `SetSession`, `ClearSession` and `Logout` write and remove keys.
  - `IsLoggedIn` is the JavaScript truthiness of the token.
  - `GetRole` tries, in order, the stored role, the `role` claim of the token's
    payload, then its `Role` claim, and otherwise gives null.
  - The payload is the second dot-separated segment of the token (section 7.2
    of RFC 7519). The split on `.` and the indexing are modelled concretely.
  - Decoding that segment (`atob` followed by `JSON.parse`, with any exception
    caught) is the abstract total function `decodeClaims`, given to the
    service when it is built.
- **The route guard** (`authGuard`, module `Guards`). It is a pure decision on
  four inputs: logged in or not, the resolved role, the route's `roles`, and
  the requested url. The single `router.navigate` call is part of the result.
- **The route table** (`routes`, module `AppRoutes`). Paths are resolved by
  first match, with the wildcard redirect. `Visit` runs the guard on guarded
  views, and `NoRedirectLoop` proves that every redirect the guard issues lands
  on a view the same user may enter.
- **Dashboard state** (modules `Records`, `AdminDashboard`,
  `EmployeeDashboard`, `ManagerDashboard`):
  - the admin's aggregate getters;
  - the employee's notifications derived from expenses;
  - the manager's pending count and newest-first notification feed;
  - the edit-modal, section and profile-menu state machines.

The session and dashboard components are classes whose methods update their
fields. Their `modifies` clauses name exactly the fields the source assigns.
Their getters are functions with `reads this`. The guard, the route table and
the list computations are pure functions.

Facts about the code that shape the model:
- `getRole` decodes the payload with `atob`, which is plain base64 (section 4
  of RFC 4648), not the URL-safe alphabet of section 5. So a payload encoded
  with `-` or `_` fails to decode and gives no role. This lies inside the
  abstract `decodeClaims`.
- `isLoggedIn` is `!!token`, so an empty token counts as logged out.
- `auth.service.ts` defines no `getUserId` or `getDisplayName`, so neither is
  modelled.
- A token without a dot has no second segment. `atob(undefined)` decodes the text
  "undefined", whose length is 1 modulo 4, and throws. The catch turns that into
  null, and `PayloadSegment` gives None for it.

## Model

| member | source | states |
|---|---|---|
| `Session.Split` | src/app/services/auth.service.ts:27 | `split` on a one-character separator gives at least one part, no part holds the separator, joining the parts with it gives back the text, and there is a single part exactly when the separator does not occur |
| `Session.SplitAfterField` | src/app/services/auth.service.ts:27 | splitting `field + sep + rest` with a separator-free field gives the field followed by the split of the rest |
| `Session.PayloadSegment` | src/app/services/auth.service.ts:27 | `token.split('.')[1]` exists exactly when the token holds a dot, and holds no dot itself |
| `Session.PayloadOfCompactToken` | src/app/services/auth.service.ts:27-28 | for a token `header.payload.signature` whose first two parts have no dot, the segment handed to the decoder is exactly the payload |
| `Session.RoleClaim` | src/app/services/auth.service.ts:29 | `decoded['role'] \|\| decoded['Role'] \|\| null`: the `role` claim when truthy, else the `Role` claim when truthy, else null; never the empty string |
| `Session.FirstTruthy` | src/app/services/auth.service.ts:15-29 | the first truthy candidate: a candidate at some position, non-empty, with every candidate before it falsy; null exactly when no candidate is truthy |
| `Session.AuthService.constructor` | src/app/services/auth.service.ts:6-8 | the service starts over the given store and decoder |
| `Session.AuthService.GetToken` | src/app/services/auth.service.ts:10-12 | the stored token, null exactly when the key is absent |
| `Session.AuthService.GetEmail` | src/app/services/auth.service.ts:35-37 | the stored email, null exactly when the key is absent; the token is not consulted |
| `Session.AuthService.IsLoggedIn` | src/app/services/auth.service.ts:39-41 | logged in exactly when a token is stored and it is non-empty |
| `Session.AuthService.GetRole` | src/app/services/auth.service.ts:14-33 | a truthy stored role is returned whatever the token; with no truthy role and no truthy token the result is null; a returned role is never empty |
| `Session.AuthService.GetRoleIsFirstTruthySource` | src/app/services/auth.service.ts:14-33 | the role equals the first truthy of: stored role, token's `role` claim, token's `Role` claim (a claim is null when the token is falsy, has no payload segment or fails to decode) |
| `Session.AuthService.SetSession` | src/app/services/auth.service.ts:43-50 | token, email and role are stored as given; `userId` is written only when truthy and otherwise keeps its old value; logged in exactly when the token is non-empty; a non-empty role becomes the resolved role; no other key changes |
| `Session.AuthService.ClearSession` | src/app/services/auth.service.ts:52-57 | the four keys are removed and nothing else; afterwards not logged in, and token, email and role are null; on a store without the keys it changes nothing, so a second call has no effect |
| `Session.AuthService.Logout` | src/app/services/auth.service.ts:59-61 | the same store change as `ClearSession` |
| `Guards.Decide` | src/app/guards/auth.guard.ts:5-35 | allows exactly when it issues no navigation; allows exactly when logged in and the route lists no roles or lists the truthy role; not logged in sends to `/login` with `returnUrl` the requested url; a logged-in refusal sends to the role's home (`/manager-dashboard`, `/employee-dashboard`) or to `/` |
| `Guards.AuthGuard` | src/app/guards/auth.guard.ts:9-23 | the same decision taken from a session that it only reads, so the store is unchanged; since a resolved role is never empty, the check reduces to the role being listed |
| `AppRoutes.FirstMatch` | src/app/app.routes.ts:11-29 | the index of a matching route with no matching route before it, and none exactly when no route matches |
| `AppRoutes.Resolve` | src/app/app.routes.ts:11-29 | the path lands on a view of the table |
| `AppRoutes.Visit` | src/app/app.routes.ts:11-29 | a visit to a guarded view gets the guard's decision on that view's `roles` and the url; a visit to an unguarded view is always allowed; allowed exactly when it issues no navigation |
| `AppRoutes.DashboardsGuarded` | src/app/app.routes.ts:21-25 | `/manager-dashboard`, `/employee-dashboard` and `/admin-dashboard` get the guard's decision for `['Manager']`, `['Employee']` and `['Admin']` respectively |
| `AppRoutes.PublicPathsAllowed` | src/app/app.routes.ts:13-19 | every url outside the three dashboards is entered by every user, logged in or not (the four public views and, through the wildcard, every other path) |
| `AppRoutes.ResolveNamed` | src/app/app.routes.ts:13-25 | each non-wildcard route is the one its own path lands on |
| `AppRoutes.NamedRoutes` | src/app/app.routes.ts:13-25 | `''`, `register`, `login` and `verify` are unguarded; `manager-dashboard`, `employee-dashboard` and `admin-dashboard` are guarded with exactly `['Manager']`, `['Employee']` and `['Admin']` |
| `AppRoutes.UnnamedPathsLand` | src/app/app.routes.ts:27 | any other path is redirected to `''`, the unguarded landing view |
| `AppRoutes.LoginAlwaysAllowed` | src/app/app.routes.ts:17 | the login view admits every user, logged in or not |
| `AppRoutes.HomeAlwaysAllowed` | src/app/guards/auth.guard.ts:26-31 | the home view the guard picks for a role admits that role |
| `AppRoutes.NoRedirectLoop` | src/app/guards/auth.guard.ts:9-34 | wherever a visit is redirected, a visit there by the same user is allowed |
| `Records.WithStatus` | src/app/components/admin-dashboard/admin-dashboard.component.ts:83 | `filter` by status keeps only expenses with that status, and keeps every one of them; empty exactly when none has it, everything exactly when all have it |
| `Records.WithStatusMultiset` | src/app/components/admin-dashboard/admin-dashboard.component.ts:83 | the filter keeps as many copies of a matching expense as the list holds, and none of any other |
| `Records.WithStatusAppend` | src/app/components/admin-dashboard/admin-dashboard.component.ts:83 | the filter keeps order: the filter of a concatenation is the concatenation of the filters |
| `Records.CountStatus` | src/app/components/admin-dashboard/admin-dashboard.component.ts:82-92 | the count is at most the number of expenses, zero exactly when none has the status, all exactly when all have it |
| `Records.CountStatusStep` | src/app/components/admin-dashboard/admin-dashboard.component.ts:82-92 | the count of a list is the first expense's contribution plus the count of the rest |
| `Records.CountUnknown` | src/app/components/admin-dashboard/admin-dashboard.component.ts:82-92 | the number of expenses with none of the three statuses, zero exactly when every status is known |
| `Records.StatusPartition` | src/app/components/admin-dashboard/admin-dashboard.component.ts:82-92 | the Pending, Approved, Rejected and unknown counts add up to the number of expenses |
| `Records.StatusCountsBound` | src/app/components/admin-dashboard/admin-dashboard.component.ts:82-92 | the three status counts add up to at most the number of expenses, and to exactly that when every status is one of the three |
| `Records.ReduceIsSum` | src/app/components/admin-dashboard/admin-dashboard.component.ts:70-80 | the left fold `reduce` from an accumulator equals the accumulator plus the sum |
| `Records.SumNonNegative` | src/app/components/admin-dashboard/admin-dashboard.component.ts:70-72 | a sum of non-negative amounts is non-negative |
| `AdminDashboard.AdminDashboardComponent.constructor` | src/app/components/admin-dashboard/admin-dashboard.component.ts:17-23 | menu closed, no budgets or expenses, not loading |
| `AdminDashboard.AdminDashboardComponent.LoadData` | src/app/components/admin-dashboard/admin-dashboard.component.ts:37-64 | once both requests complete, each list holds its response or, on error, its old value; loading is over |
| `AdminDashboard.AdminDashboardComponent.TotalBudgets` | src/app/components/admin-dashboard/admin-dashboard.component.ts:66-68 | the number of budgets |
| `AdminDashboard.AdminDashboardComponent.TotalAllocated` | src/app/components/admin-dashboard/admin-dashboard.component.ts:70-72 | the `reduce` equals the sum of allocated amounts, a missing amount counting 0, and is non-negative when every amount is |
| `AdminDashboard.AdminDashboardComponent.TotalExpenses` | src/app/components/admin-dashboard/admin-dashboard.component.ts:74-76 | the number of expenses |
| `AdminDashboard.AdminDashboardComponent.TotalSpent` | src/app/components/admin-dashboard/admin-dashboard.component.ts:78-80 | the `reduce` equals the sum of expense amounts, a missing amount counting 0, and is non-negative when every amount is |
| `AdminDashboard.AdminDashboardComponent.PendingExpenses` | src/app/components/admin-dashboard/admin-dashboard.component.ts:82-84 | at most the total, zero exactly when no expense is `Pending`, the total exactly when all are |
| `AdminDashboard.AdminDashboardComponent.ApprovedExpenses` | src/app/components/admin-dashboard/admin-dashboard.component.ts:86-88 | at most the total, zero exactly when no expense is `Approved`, the total exactly when all are |
| `AdminDashboard.AdminDashboardComponent.RejectedExpenses` | src/app/components/admin-dashboard/admin-dashboard.component.ts:90-92 | at most the total, zero exactly when no expense is `Rejected`, the total exactly when all are |
| `AdminDashboard.AdminDashboardComponent.StatusFiguresBound` | src/app/components/admin-dashboard/admin-dashboard.component.ts:82-92 | pending + approved + rejected is at most the expense total, with equality exactly when every status is one of the three |
| `AdminDashboard.AdminDashboardComponent.ToggleProfileMenu` | src/app/components/admin-dashboard/admin-dashboard.component.ts:94-96 | the menu flag is negated, so two toggles restore it |
| `AdminDashboard.AdminDashboardComponent.NavigateToProfile` | src/app/components/admin-dashboard/admin-dashboard.component.ts:98-100 | the menu is closed |
| `AdminDashboard.AdminDashboardComponent.Logout` | src/app/components/admin-dashboard/admin-dashboard.component.ts:102-105 | the session keys are cleared and the router is sent to `/login` |
| `EmployeeDashboard.MessagesDiffer` | src/app/components/employee-dashboard/employee-dashboard.component.ts:163-165 | the approved and rejected messages of one title differ |
| `EmployeeDashboard.Decided` | src/app/components/employee-dashboard/employee-dashboard.component.ts:161 | the filter keeps exactly the `Approved` and `Rejected` expenses |
| `EmployeeDashboard.ToNotification` | src/app/components/employee-dashboard/employee-dashboard.component.ts:162-168 | the notification's status is the expense's; its message is the "approved" text exactly when the status is `Approved`, and the "rejected" text otherwise |
| `EmployeeDashboard.ToNotifications` | src/app/components/employee-dashboard/employee-dashboard.component.ts:162-168 | `map` keeps the length, and item i is the notification of expense i |
| `EmployeeDashboard.NotificationsFromExpenses` | src/app/components/employee-dashboard/employee-dashboard.component.ts:159-169 | every notification has status `Approved` or `Rejected` |
| `EmployeeDashboard.NotificationCount` | src/app/components/employee-dashboard/employee-dashboard.component.ts:160-161 | there are as many notifications as `Approved` plus `Rejected` expenses |
| `EmployeeDashboard.NotificationsOfOne` | src/app/components/employee-dashboard/employee-dashboard.component.ts:160-168 | one expense gives its notification when approved or rejected, and none otherwise (`Pending` included) |
| `EmployeeDashboard.DecidedAppend` | src/app/components/employee-dashboard/employee-dashboard.component.ts:161 | the filter of a concatenation is the concatenation of the filters |
| `EmployeeDashboard.ToNotificationsAppend` | src/app/components/employee-dashboard/employee-dashboard.component.ts:162-168 | the map of a concatenation is the concatenation of the maps |
| `EmployeeDashboard.NotificationsAppend` | src/app/components/employee-dashboard/employee-dashboard.component.ts:159-169 | notifications keep the relative order of their expenses: those of `a + b` are those of `a` followed by those of `b` |
| `EmployeeDashboard.EmployeeDashboardComponent.constructor` | src/app/components/employee-dashboard/employee-dashboard.component.ts:23-37 | section `create-expense`, no expenses or notifications, menu and modal closed, nothing selected, empty edit form |
| `EmployeeDashboard.EmployeeDashboardComponent.SetSection` | src/app/components/employee-dashboard/employee-dashboard.component.ts:70-73 | the section is the given name and the profile menu is closed |
| `EmployeeDashboard.EmployeeDashboardComponent.LoadExpenses` | src/app/components/employee-dashboard/employee-dashboard.component.ts:75-87 | on success the expenses are the response and the notifications are rebuilt from them; on error both are unchanged; loading is over |
| `EmployeeDashboard.EmployeeDashboardComponent.BuildNotificationsFromExpenses` | src/app/components/employee-dashboard/employee-dashboard.component.ts:159-169 | the notifications are derived from the current expenses, one per approved or rejected expense |
| `EmployeeDashboard.EmployeeDashboardComponent.OpenEditModal` | src/app/components/employee-dashboard/employee-dashboard.component.ts:110-119 | the expense is selected, the modal is shown, and the form holds its title, amount and budget, with description `''` when it has none |
| `EmployeeDashboard.EmployeeDashboardComponent.CloseEditModal` | src/app/components/employee-dashboard/employee-dashboard.component.ts:121-124 | the modal is hidden and nothing is selected |
| `EmployeeDashboard.EmployeeDashboardComponent.UpdateExpense` | src/app/components/employee-dashboard/employee-dashboard.component.ts:126-134 | no request when nothing is selected or the form is invalid (the form is then marked touched); otherwise one update request for the selected id with the form's values |
| `EmployeeDashboard.EmployeeDashboardComponent.ToggleProfileMenu` | src/app/components/employee-dashboard/employee-dashboard.component.ts:176-178 | the menu flag is negated, so two toggles restore it |
| `EmployeeDashboard.EmployeeDashboardComponent.NavigateToProfile` | src/app/components/employee-dashboard/employee-dashboard.component.ts:180-182 | the menu is closed |
| `EmployeeDashboard.EmployeeDashboardComponent.Logout` | src/app/components/employee-dashboard/employee-dashboard.component.ts:171-174 | the session keys are cleared and the router is sent to `/login` |
| `ManagerDashboard.ManagerDashboardComponent.constructor` | src/app/components/manager-dashboard/manager-dashboard.component.ts:27-47 | initial section `create-budget`, empty lists, pending count 0, modal closed, nothing selected |
| `ManagerDashboard.ManagerDashboardComponent.SetSection` | src/app/components/manager-dashboard/manager-dashboard.component.ts:79-81 | only the section changes, to the given name |
| `ManagerDashboard.ManagerDashboardComponent.LoadBudgets` | src/app/components/manager-dashboard/manager-dashboard.component.ts:83-94 | the budgets are the response, or unchanged on error; loading is over |
| `ManagerDashboard.ManagerDashboardComponent.LoadExpenses` | src/app/components/manager-dashboard/manager-dashboard.component.ts:96-108 | on success the pending count is the number of `Pending` expenses: at most their number, zero exactly when none is pending; on error nothing changes |
| `ManagerDashboard.ManagerDashboardComponent.PushNotification` | src/app/components/manager-dashboard/manager-dashboard.component.ts:200-206 | the new item is at index 0, the length grows by one, and every older item moves up one place unchanged |
| `ManagerDashboard.ManagerDashboardComponent.OpenEditModal` | src/app/components/manager-dashboard/manager-dashboard.component.ts:131-139 | the budget is selected, the modal is shown and the form holds its title, amount and department |
| `ManagerDashboard.ManagerDashboardComponent.CloseEditModal` | src/app/components/manager-dashboard/manager-dashboard.component.ts:141-144 | the modal is hidden and nothing is selected |
| `ManagerDashboard.ManagerDashboardComponent.UpdateBudget` | src/app/components/manager-dashboard/manager-dashboard.component.ts:146-154 | no request when nothing is selected or the form is invalid (the form is then marked touched); otherwise one update request for the selected id with the form's values |
| `ManagerDashboard.ManagerDashboardComponent.ApproveExpense` | src/app/components/manager-dashboard/manager-dashboard.component.ts:176-186 | requests status `Approved` for the expense's id, and pushes the success or failure notification first in the feed |
| `ManagerDashboard.ManagerDashboardComponent.RejectExpense` | src/app/components/manager-dashboard/manager-dashboard.component.ts:188-198 | requests status `Rejected` for the expense's id, and pushes the success or failure notification first in the feed |
| `ManagerDashboard.ManagerDashboardComponent.Logout` | src/app/components/manager-dashboard/manager-dashboard.component.ts:208-211 | the session keys are cleared and the router is sent to `/login` |

## Left out

- Base64 decoding and JSON parsing (`atob`, `JSON.parse`) are foreign library calls. They are the abstract `decodeClaims` of `Session.AuthService`, and every lemma holds for every decoder. The claim map holds strings only. A truthy claim that is not a string (a number, say) would be returned by the source as it is, and the model cannot express it.
- `localStorage` as a medium is the `storage` map field. Its persistence across reloads, and other code writing to it, are out of scope.
- `getUserName` is called by the admin and employee dashboards but is not defined in `auth.service.ts`. The `userName` fields and `ngOnInit` are therefore not modelled.
- HTTP services (`expense.service.ts`, `budget.service.ts`) are out of scope. They are thin wrappers whose only logic is the `Bearer` header. A request is modelled as a returned value (`ExpenseUpdate`, `BudgetUpdate`, `StatusUpdate`). A response is a parameter: an `Option` for a list (None for an error), or a `succeeded` flag.
- Asynchronous completion order is not modelled. The admin's `LoadData` gives the state once both requests have completed. The interleavings in which `isLoading` is cleared by the first response alone are not modelled.
- The reload that `approveExpense` and `rejectExpense` start after success is not part of those methods. Its completion is `LoadExpenses`.
- The success and error callbacks of `createExpense`, `updateExpense`, `deleteExpense`, `createBudget`, `updateBudget` and `deleteBudget` are not modelled: reload, modal closing, form reset, section change and toasts. The toast timer (`setTimeout`) is also left out. The guard clauses of `updateExpense` and `updateBudget` are modelled.
- `confirm()` dialogs, form validators and the forms' `reset` are not modelled. Form validity is a parameter of `UpdateExpense` and `UpdateBudget`.
- `EmployeeDashboard.EmployeeDashboardComponent.OpenEditModal`: Angular's `setValue` throws when a control's value is `undefined`. An amount of `None` stands for both a null and an absent field. The model copies it into the form as null and shows the modal. That is exact for null. For an absent amount, the source selects the expense, throws, and leaves the modal closed, and the model does not capture this.
- `ManagerDashboard.ManagerDashboardComponent.OpenEditModal`: the same gap for a budget. An `amountAllocated` of `None` is copied into the form as null and the modal is shown. That is exact for null. For an absent field, the source's `setValue` throws after `selectedBudget` is set, and the modal stays closed.
- The manager's fixed `departments` list (HR, Finance, IT) only feeds the budget form's choices and is not modelled.
- `new Date()` timestamps on notifications are not modelled.
- Amounts are JavaScript floating-point numbers. They are modelled as integers, so the sums have no rounding.
- Router mechanics are simplified. A url is matched as a whole path after its leading `/`. Query strings, nested segments and chains of several redirects are not modelled. `router.navigate` is the returned navigation.
- `sidebar.component.ts` only reads `getRole() ?? ''` and calls `logout`, and is not modelled.
