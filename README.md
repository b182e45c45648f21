# Expense-management frontend: session stores, route gating, approvals and the expense list

A Dafny model of the state logic of a small React expense-management scaffold.
The repository contains two variants of its session store and two expense-list
components; all four pieces of logic are modelled here:

- `SessionV1` (`session_v1.dfy`) models `src/contexts/AuthContext.jsx`. It has one
  `user` slot (`current`) and the browser storage (`store`, a map from key to record).
  `signup` always creates an `"Admin"` identity and writes it under `"user"`.
  `login` compares only the email of the one stored record and ignores the password.
  `logout` removes the record and clears the slot. Nothing restores the slot at start-up.
- `SessionV2` (`session_v2.dfy`) models the store embedded in
  `expense_mgmt_frontend_starter.jsx`. Sign-in is a `find` over the fixed
  `MOCK_USERS` table. The user is persisted under `"ems_user"`, and the mount
  effect restores it.
- `Routing` (`routing.dfy`) models `AppRoutes` and `HomeRouter` of the same file.
  `AppRoutes` is a pure function from the user and the path to a rendered page or
  a redirect. `HomeRouter` maps a role string to a dashboard.
- `Approvals` (`approvals.dfy`) models `ApprovalList`: the mock claims and
  `act(id, action)`, which sets the status of the claims carrying that id.
- `Expenses` (`expenses.dfy`) models the expense list of `src/pages/Dashboard.jsx`
  as values: the `reduce` total, the `"high"`/`"low"`/other filter and removal by id.
  `DashboardPage` (`dashboard.dfy`) is the page's state: the provider whose list it
  reads, the two inputs, the filter, and their handlers.
  `ExpenseContext` (`expense_context.dfy`) is `ExpenseProvider`: an empty list
  that only `addExpense` changes, by appending.
- `ArrayOps` (`common.dfy`) models the two JavaScript array operations the core
  relies on: `filter`, which proves membership, order and partition facts, and
  `find`, which returns the first match. `Wrappers.Option` stands for `null`.

Each React handler is modelled as one atomic state change of a class. Classes are
used because the corresponding React state slots are replaced in place. Pure
derivations are functions: `total`, `filteredExpenses`, the route tables and the
`find` lookup. Scenario methods build fresh objects and run the handlers in
sequence, for example sign-up, then sign-out, then sign-in. Their postconditions
state what the source promises about such sequences.

Two observations span files:

- `signup` in `src/contexts/AuthContext.jsx:9` assigns the role `"Admin"`.
  `HomeRouter` (`expense_mgmt_frontend_starter.jsx:157`) compares against `'admin'`,
  so an identity created by that sign-up would see the employee dashboard.
  `Routing.SignupRoleIsNotAdminRole` states this. As written, the two variants are
  never combined.
- `Dashboard` takes `setExpenses` from the expense context
  (`src/pages/Dashboard.jsx:5`). `ExpenseProvider` offers only `expenses` and
  `addExpense` (`src/contexts/ExpenseContext.jsx:13`), so `setExpenses` is
  `undefined`. Both behaviours are modelled. `AddExpenseAsWritten` and
  `DeleteExpenseAsWritten` throw a `TypeError` and change nothing.
  `AddExpense` and `DeleteExpense` perform the list replacement the page intends.
  Two scenario methods show where the versions differ (see "## Findings").

The page reads its list from the shared provider (`Dashboard.ctx`), so additions
made through the provider after the page mounted are what it shows and totals.

Points where the code's behaviour is easy to misread:

- Roles are free strings compared case-sensitively. Variant 1 keeps a single
  record. Variant 2 looks users up in a constant table.
- `AppRoutes` gives every signed-in user `/`, `/submit` and `/approvals` whatever
  the role; only the dashboard at `/` depends on it.
- `JSON.parse` throws on non-empty stored text that is not JSON. The start-up
  effect does not catch it. `SessionV2.AuthProvider.Restore` reports it as the
  outcome `ParseError` and leaves nobody signed in.

## Model

| member | source | states |
|---|---|---|
| `SessionV1.AuthProvider.constructor` | src/contexts/AuthContext.jsx:5-6 | the slot starts empty; storage is kept as found, with no restore |
| `SessionV1.AuthProvider.Signup` | src/contexts/AuthContext.jsx:8-12 | current user and the `"user"` record both become `{email, company, "Admin"}`; other keys untouched |
| `SessionV1.AuthProvider.Login` | src/contexts/AuthContext.jsx:14-21 | true iff a `"user"` record exists with that email; success loads that record; failure keeps the slot; storage is never written |
| `SessionV1.AuthProvider.Logout` | src/contexts/AuthContext.jsx:23-26 | slot cleared and the `"user"` key removed |
| `SessionV1.SignupKeepsOtherKeys` | src/contexts/AuthContext.jsx:9-10 | sign-up adds or overwrites only `"user"`; every other stored key keeps its value |
| `SessionV1.SignupThenLogin` | src/contexts/AuthContext.jsx:8-21 | after sign-up, sign-in with that email succeeds with any password and yields the new identity |
| `SessionV1.SignupLogoutLogin` | src/contexts/AuthContext.jsx:14-26 | after sign-up then sign-out, sign-in with that email fails and nobody is signed in |
| `SessionV1.SecondSignupReplacesFirst` | src/contexts/AuthContext.jsx:8-21 | a second sign-up with another email replaces the only record, so the first email no longer signs in |
| `SessionV1.PasswordIgnored` | src/contexts/AuthContext.jsx:14-16 | two sign-ins that differ only in the password have the same outcome and user |
| `SessionV1.LogoutIdempotent` | src/contexts/AuthContext.jsx:23-26 | signing out twice leaves the state that one sign-out leaves |
| `SessionV2.LookUp` | expense_mgmt_frontend_starter.jsx:180-195 | the `MOCK_USERS` lookup finds a user exactly for the three table emails, and the user found has that email |
| `SessionV2.LookUpUnique` | expense_mgmt_frontend_starter.jsx:180-184 | each table entry is what a lookup of its own email returns |
| `ArrayOps.Find` | expense_mgmt_frontend_starter.jsx:195 | `find` is None iff no element matches; otherwise it is the element at the first matching index |
| `SessionV2.AuthProvider.constructor` | expense_mgmt_frontend_starter.jsx:187 | the slot starts empty over the given storage |
| `SessionV2.AuthProvider.Restore` | expense_mgmt_frontend_starter.jsx:189-192 | a stored record becomes the user; an absent key or empty text leaves the slot (NothingStored); other text is a ParseError with the slot unchanged |
| `SessionV2.AuthProvider.Login` | expense_mgmt_frontend_starter.jsx:194-202 | succeeds iff the lookup finds a user; it then sets the user and persists it under `"ems_user"`; on failure nothing changes |
| `SessionV2.AuthProvider.Logout` | expense_mgmt_frontend_starter.jsx:204-207 | user cleared and `"ems_user"` removed |
| `SessionV2.LoginSurvivesReload` | expense_mgmt_frontend_starter.jsx:189-199 | a reload after a successful sign-in restores exactly that user; sign-in fails exactly for emails outside the table |
| `SessionV2.LogoutSurvivesReload` | expense_mgmt_frontend_starter.jsx:189-207 | a reload after sign-out finds nothing to restore |
| `SessionV2.RestoreMalformed` | expense_mgmt_frontend_starter.jsx:189-192 | start-up over non-empty text that is not JSON reports ParseError and leaves nobody signed in |
| `SessionV2.LogoutIdempotent` | expense_mgmt_frontend_starter.jsx:204-207 | signing out twice leaves the state that one sign-out leaves |
| `Routing.HomeRouter` | expense_mgmt_frontend_starter.jsx:155-160 | always one of the three dashboards; Admin iff role is exactly `admin`, Manager iff exactly `manager`, Employee otherwise |
| `Routing.AppRoutes` | expense_mgmt_frontend_starter.jsx:133-153 | with no user only `/login` renders (the login page) and every other path redirects to `/login`; with a user `/` renders `HomeRouter` of the role, `/submit` the expense form, `/approvals` the approval list, and every other path redirects to `/`; the login page renders only when nobody is signed in |
| `Routing.RedirectSettles` | expense_mgmt_frontend_starter.jsx:136-152 | following one redirect always reaches a rendered page, so there is no redirect loop |
| `Routing.AccessIgnoresRole` | expense_mgmt_frontend_starter.jsx:145-152 | reachability does not depend on the role; every path except `/` yields the same view for any two users |
| `Routing.MockUsersReachTheirDashboards` | expense_mgmt_frontend_starter.jsx:155-160 | the admin, manager and employee table entries reach their own dashboards at `/` |
| `Routing.SignupRoleIsNotAdminRole` | expense_mgmt_frontend_starter.jsx:157 | the `"Admin"` role given by variant-1 sign-up routes to the employee dashboard |
| `Routing.RestoreStoredManager` | expense_mgmt_frontend_starter.jsx:155-192 | start-up over any stored record with role `manager` signs it in with no sign-in call, and `/` shows the manager dashboard |
| `Routing.LoginOpensHome` | expense_mgmt_frontend_starter.jsx:133-160 | before sign-in `/` redirects to `/login`; after sign-in `/` renders exactly for table emails, and it renders that user's dashboard |
| `Approvals.Acted` | expense_mgmt_frontend_starter.jsx:402-404 | same length; items with the id get `status := action`, all others stay unchanged and in place |
| `Approvals.ActedTwice` | expense_mgmt_frontend_starter.jsx:403 | acting twice on one id: the second action wins |
| `Approvals.ActedIdempotent` | expense_mgmt_frontend_starter.jsx:403 | repeating the same action changes nothing more |
| `Approvals.ActedCommute` | expense_mgmt_frontend_starter.jsx:403 | actions on different ids commute |
| `Approvals.ActedAbsent` | expense_mgmt_frontend_starter.jsx:403 | an id no item carries leaves the list unchanged |
| `Approvals.ApprovalList.constructor` | expense_mgmt_frontend_starter.jsx:396 | the list starts empty |
| `Approvals.ApprovalList.Load` | expense_mgmt_frontend_starter.jsx:398-400 | the mount effect loads the mock claims |
| `Approvals.ApprovalList.Act` | expense_mgmt_frontend_starter.jsx:402-404 | the new list is `Acted` of the old one |
| `Approvals.ApproveFirstMockClaim` | expense_mgmt_frontend_starter.jsx:390-404 | approving claim 1 of the mock table leaves claim 2 pending |
| `ArrayOps.Filter` | src/pages/Dashboard.jsx:31-35 | `filter` keeps only elements satisfying the predicate and keeps every such element |
| `ArrayOps.FilterIsSubsequence` | src/pages/Dashboard.jsx:26 | a filtered list is an order-preserving subsequence of the original |
| `ArrayOps.FilterPartition` | src/pages/Dashboard.jsx:31-35 | two complementary filters together hold each element exactly once |
| `ArrayOps.FilterKeepsAll` | src/pages/Dashboard.jsx:34 | a filter whose predicate holds everywhere returns the list itself |
| `Expenses.SumFromShift` | src/pages/Dashboard.jsx:29 | the `reduce` accumulator can be pulled out of the fold |
| `Expenses.TotalEmpty` | src/pages/Dashboard.jsx:29 | the total of an empty list is 0 |
| `Expenses.TotalCons` | src/pages/Dashboard.jsx:29 | the total with a leading expense is its amount plus the rest |
| `Expenses.TotalConcat` | src/pages/Dashboard.jsx:29 | the total of a concatenation is the sum of the totals |
| `Expenses.TotalAppend` | src/pages/Dashboard.jsx:29 | appending an expense raises the total by its amount |
| `Expenses.FilteredContents` | src/pages/Dashboard.jsx:31-33 | `"high"` holds exactly the expenses with amount above 1000, `"low"` exactly those at most 1000, each in list order |
| `Expenses.FilteredOther` | src/pages/Dashboard.jsx:34 | any other filter value returns the whole list |
| `Expenses.HighLowPartition` | src/pages/Dashboard.jsx:31-35 | `"high"` and `"low"` together hold every expense exactly once; their lengths and totals add up to the whole |
| `Expenses.TotalSplit` | src/pages/Dashboard.jsx:29-35 | complementary filters split the total |
| `Expenses.WithoutIdSpec` | src/pages/Dashboard.jsx:25-27 | after deletion no expense has the id; every other expense remains, in order; the dropped part is exactly the expenses with the id, and the total falls by their amounts |
| `Expenses.WithoutAbsentId` | src/pages/Dashboard.jsx:25-27 | deleting an id nobody has leaves the list unchanged |
| `DashboardPage.Dashboard.constructor` | src/pages/Dashboard.jsx:5-8 | the page reads the given provider's list; empty inputs; filter `"all"` |
| `DashboardPage.Dashboard.SetDesc` | src/pages/Dashboard.jsx:48 | the description input takes the typed text |
| `DashboardPage.Dashboard.SetAmount` | src/pages/Dashboard.jsx:54 | the amount input takes the typed text |
| `DashboardPage.Dashboard.SetFilter` | src/pages/Dashboard.jsx:61-78 | the filter takes the chosen value |
| `DashboardPage.Dashboard.AddExpenseAsWritten` | src/pages/Dashboard.jsx:10-23 | as written: throws `TypeError` exactly when both inputs are non-empty (the call of the missing `setExpenses`); it changes neither the list nor the inputs |
| `DashboardPage.Dashboard.DeleteExpenseAsWritten` | src/pages/Dashboard.jsx:25-27 | as written: always throws `TypeError`, so the list never changes |
| `DashboardPage.Dashboard.AddExpense` | src/pages/Dashboard.jsx:10-23 | as intended: with an empty input nothing changes; otherwise exactly one expense with the id, description and parsed amount is appended to the provider's list and both inputs reset to empty |
| `DashboardPage.Dashboard.DeleteExpense` | src/pages/Dashboard.jsx:25-27 | as intended: the provider's list becomes `WithoutId` of the old list |
| `DashboardPage.AddAsWrittenAndIntended` | src/pages/Dashboard.jsx:5-23 | with both inputs filled, the code as written throws and keeps the list and inputs, while the intended handler appends the expense and clears the inputs; the two lists differ |
| `DashboardPage.DeleteAsWrittenAndIntended` | src/pages/Dashboard.jsx:25-27 | the code as written throws and keeps the list; the intended handler drops the id; whenever an expense carries the id the two lists differ |
| `DashboardPage.ProviderAddSeenByPage` | src/pages/Dashboard.jsx:5-35 | an expense added through the provider after mounting is shown and totalled by the page |
| `DashboardPage.AddRaisesTotal` | src/pages/Dashboard.jsx:10-29 | a successful add keeps the old list as a prefix, puts the new expense last, raises the total by its amount and clears both inputs |
| `DashboardPage.AddWithoutDescription` | src/pages/Dashboard.jsx:12 | submitting with an empty description completes without error in both versions and changes neither the list nor the inputs |
| `DashboardPage.DeleteLowersTotal` | src/pages/Dashboard.jsx:25-29 | after deletion no entry has the id and the total falls by the deleted amounts |
| `DashboardPage.HighAndLowViews` | src/pages/Dashboard.jsx:29-35 | the high and low views hold each expense once, meet their thresholds, and their totals add up to the page total |
| `ExpenseContext.ExpenseProvider.constructor` | src/contexts/ExpenseContext.jsx:6 | the list starts empty |
| `ExpenseContext.ExpenseProvider.AddExpense` | src/contexts/ExpenseContext.jsx:8-10 | the new list is the old list with the expense appended last |
| `ExpenseContext.AddTwice` | src/contexts/ExpenseContext.jsx:6-10 | two additions starting from the empty list give those two expenses in order |

## Left out

- `src/pages/Login.jsx`: static markup, with no handler or state.
- Rendering is left out: JSX markup, styling, build and configuration files, and
  react-router internals. React Router matches paths case-insensitively and
  ignores a trailing slash; the model compares paths exactly.
- `ExpenseForm.onSubmit` is left out: it only logs and sets a message.
  `LoginPage.onSubmit` is left out: it calls `login`, shows a message and navigates.
  The API client stubs are left out: network I/O that returns empty values.
- `convertAmount` is left out because it is floating-point division.
- JSON serialisation is treated as the identity on records. In variant 1, an
  undefined `company` disappearing from the stored JSON is not modelled. Malformed
  text under `"user"`, which makes `JSON.parse` throw in `login`, is not modelled
  there: variant 1's storage holds records only.
- `SessionV2.AuthProvider.Restore`: stored text that parses as JSON but is not a
  user record (which the code would still put in the slot) is not modelled.
- Amounts are exact reals. `parseFloat` is a parameter of `AddExpense`. The `NaN`
  it returns for non-numeric text and float rounding in the total are not modelled.
- `Date.now()` is the `id` parameter of `AddExpense`. Nothing makes ids unique,
  and the model does not assume they are.
- React semantics are not modelled: batched or asynchronous `setState`, stale
  closures over `expenses`, `useEffect` timing and StrictMode double effects.
  Each handler is one atomic step.
- `AppRoutes` and `HomeRouter` take the signed-in user from `SessionV2`. A
  variant-1 identity reaches them only through its role string. `Routing.HomeRouter`
  takes that string directly.
- `DashboardPage.Dashboard.AddExpense`: models the intended list update. The code as written throws a `TypeError` at `setExpenses` (src/pages/Dashboard.jsx:20), before the inputs are reset. That behaviour is `AddExpenseAsWritten`.
- `DashboardPage.Dashboard.DeleteExpense`: models the intended list update. The code as written throws a `TypeError` at `setExpenses` (src/pages/Dashboard.jsx:26). That behaviour is `DeleteExpenseAsWritten`.
- The intended handlers write the provider's list directly. The provider exposes no such setter, so this stands for the `setExpenses` the page expects.

## Findings

| source | as written | input that shows it | evidently intended | confidence | as-written member | corrected member |
|---|---|---|---|---|---|---|
| src/pages/Dashboard.jsx:5 | `setExpenses` is taken from a context that does not provide it, so the add handler throws a `TypeError` at line 20 | submit with description "a" and amount "5": the list and both inputs stay as they were | the expense is appended and both inputs are cleared | high (not executed) | `DashboardPage.AddAsWrittenAndIntended` | `DashboardPage.Dashboard.AddExpense` |
| src/pages/Dashboard.jsx:5 | the same missing `setExpenses` makes the delete handler throw at line 26 | a list holding an expense with id 7, then a click on its delete button: the expense stays | every expense with that id is removed | high (not executed) | `DashboardPage.DeleteAsWrittenAndIntended` | `DashboardPage.Dashboard.DeleteExpense` |
