# Family expense tracker client — a Dafny model

This project models the logic of a single-page household budgeting client.
Families register and log in. They add, edit and delete members, and they
record and delete each member's expenses. The model covers four components:

- the **dashboard** (`Dashboard.js`). Its pure part is the figures shown on each
  member card and the duplicate-name checks. Its imperative part is the page
  state (dialog flags, form buffers, the pending deletion, the family snapshot)
  and the handlers that change that state;
- the **registration** and **login** pages (`Register.js`, `Login.js`): the
  ordered form checks, the field error flags, the request body and the submit
  handlers that write the session;
- the **member expenses** page (`MemberExpenses.js`): the member lookup after a
  fetch, and the add and delete expense handlers.

How the pieces are modelled:

- Each API call is an `ApiResult` parameter of its handler: a response body, or
  a failure with the server's `message` when it sent one.
- Each handler returns the request it sends, or `None` when it sends nothing,
  and the text of the toast it raises (`Notice`).
- The source starts a re-fetch after a successful mutation but does not await
  it. A handler therefore returns `refetch`, and the fetch is its own method
  (`FetchFamily`), called with its own outcome.
- Browser storage is the `Session.SessionStore` class, which holds a token and
  a family record.
- Money is `real`, so all arithmetic is exact.
- Letter case is folded for ASCII letters only.

Modules: `Domain` (entities, forms, requests), `Names` (case-insensitive names),
`Metrics` (card figures), `Forms` (expense check, messages), `MemberChecks`
(member name checks), `Session`, `Register`, `Login`, `MemberExpenses`,
`Dashboard`.

`Dashboard.DashboardPage` and `MemberExpenses.MemberExpensesPage` each have a
`Valid()` invariant. Every handler of theirs requires it, and every handler
that changes the page ensures it again. The two `DeleteExpense` handlers
change nothing on the page.
`Register.RegisterPage` and `Login.LoginPage` have no invariant beyond their
fields. In `MemberExpensesPage` the invariant says that the member shown is the
lookup of the route's member id in the current snapshot. In
`Dashboard.DashboardPage` it says:

- the confirmation dialog is open exactly while a member is pending deletion;
- the expense dialogs always have their member;
- no card is ever expanded;
- no dialog is open before the family has loaded.

A handler requires the control that fires it to be on screen. For example,
`ConfirmDeleteMember` requires the confirmation dialog to be open, and only
`InitiateDeleteMember` opens that dialog.

A note on the source: `expandedMember` is only ever set to `null` in
`Dashboard.js`, so the expense history inside a card never opens.

## Model

| member | source | states |
|---|---|---|
| `Domain.ErrorText` | src/components/auth/Register.js:72 | the server's message when it is present and non-empty, otherwise the operation's fallback; never empty when the fallback is not |
| `Names.LowerCase` | src/components/dashboard/Dashboard.js:119 | `toLowerCase`: same length, each character lower-cased on its own |
| `Names.LowerEqualIffSameLetter` | src/components/dashboard/Dashboard.js:119 | two characters lower-case to the same one exactly when they are equal or are the two cases of one letter |
| `Names.LowerCaseEqualIffCaseVariant` | src/components/dashboard/Dashboard.js:119 | two lower-cased names are equal exactly when the names have the same length and differ, position by position, at most in letter case (both directions) |
| `Names.SameName` | src/components/dashboard/Dashboard.js:119 | the name comparison `a.toLowerCase() === b.toLowerCase()` (also at Dashboard.js:235) accepts exactly the pairs of names that differ only in letter case, position by position |
| `Names.SameNameAsEmpty` | src/components/dashboard/Dashboard.js:233-235 | only the empty name compares equal to the empty name |
| `Metrics.Balance` | src/components/dashboard/Dashboard.js:215-218 | "not applicable" (`None`, not zero) exactly for a non-earning member; otherwise the balance plus the amount spent gives back the salary |
| `Metrics.Budget` | src/components/dashboard/Dashboard.js:429 | the monthly budget doubled is the salary |
| `Metrics.BudgetDependsOnSalaryOnly` | src/components/dashboard/Dashboard.js:429 | members with equal salaries have equal budgets, whatever they spent and whether they earn |
| `Metrics.SavingsPercent` | src/components/dashboard/Dashboard.js:458 | the percentage times the salary is 100 times the balance |
| `Metrics.RemainingLine` | src/components/dashboard/Dashboard.js:438-448 | shown exactly for earning members; the magnitude is never negative; green exactly when the balance is at least 0; the colour and magnitude together give back the balance |
| `Metrics.Savings` | src/components/dashboard/Dashboard.js:450-461 | not shown for non-earning members; on target exactly when the balance is at least 20 % of the salary, and only then with the amount (the balance) and a percentage; the percentage is undefined exactly when the salary is 0 |
| `Metrics.OnTargetIffTwentyPercent` | src/components/dashboard/Dashboard.js:457-458 | for a positive salary, the verdict is on target exactly when the printed percentage is at least 20 |
| `Metrics.ZeroSalaryOnTargetHasNoPercent` | src/components/dashboard/Dashboard.js:457-458 | an earning member with salary 0 and nothing spent is on target with an undefined (0/0) percentage |
| `Metrics.GuardedSavings` | src/components/dashboard/Dashboard.js:450-461 | the corrected verdict: never on target without a percentage; equal to the verdict as written for a non-zero salary; below target for an earning member with salary 0 |
| `Forms.Message` | src/components/dashboard/Dashboard.js:113-145 | the toast text of each check, as at Dashboard.js:113, 123, 145, Register.js:39, 45, 51 and Login.js:38; never empty |
| `Forms.MessageIdentifiesCheck` | src/components/auth/Register.js:39-51 | different checks raise different texts, so the toast names the check that failed |
| `Forms.CheckExpenseForm` | src/components/dashboard/Dashboard.js:144-147 | passes exactly when description, amount and category are all non-empty, otherwise "All fields are required" (the same check is at MemberExpenses.js:81-84) |
| `Forms.ExpenseCheckSeesOnlyEmptiness` | src/components/dashboard/Dashboard.js:144-147 | any two forms that agree on which fields are empty get the same verdict |
| `Forms.ExpenseCheckIgnoresContent` | src/components/dashboard/Dashboard.js:142-147 | the check tests only emptiness: an amount of "0" with a category outside the drop-down's list passes |
| `MemberChecks.HasMemberNamed` | src/components/dashboard/Dashboard.js:118-120 | true exactly when some member's name equals the given name up to letter case |
| `MemberChecks.HasOtherMemberNamed` | src/components/dashboard/Dashboard.js:233-236 | true exactly when some member whose id differs from the edited one has the name up to letter case |
| `MemberChecks.CheckNewMember` | src/components/dashboard/Dashboard.js:112-125 | the add checks and their order: an empty name is refused first; then a name that some member already has up to case; it passes exactly when the name is non-empty and no member has it |
| `MemberChecks.CheckMemberUpdate` | src/components/dashboard/Dashboard.js:232-241 | refuses only a duplicate name; passes exactly when no member with another id has the name up to case |
| `MemberChecks.RenameToOwnNameInOtherCase` | src/components/dashboard/Dashboard.js:232-236 | in a family whose names are distinct, renaming a member to its own name in another case passes the update check, while adding a member with that name is refused |
| `MemberChecks.AddRefusesCaseVariant` | src/components/dashboard/Dashboard.js:117-125 | adding a name that differs from an existing member's name only in letter case is refused as a duplicate |
| `MemberChecks.UpdateAllowsEmptyName` | src/components/dashboard/Dashboard.js:230-241 | when no member's name is empty, the update check accepts an empty name and the add check refuses it |
| `Dashboard.ExpenseWarning` | src/components/dashboard/Dashboard.js:943-946 | the confirmation warns exactly when the member has expenses, and gives their number |
| `Dashboard.DashboardPage.constructor` | src/components/dashboard/Dashboard.js:59-84 | all dialogs closed, nothing selected, expanded or pending, empty buffers, no family yet |
| `Dashboard.DashboardPage.FetchFamily` | src/components/dashboard/Dashboard.js:90-108 | without a stored token and family, no request and a redirect to login; otherwise it gets the stored family's id, and only a success replaces the snapshot (whole); a failure redirects to login |
| `Dashboard.DashboardPage.Logout` | src/components/dashboard/Dashboard.js:209-213 | both the token and the family record are removed from storage, so no session remains |
| `Dashboard.DashboardPage.OpenAddMember` | src/components/dashboard/Dashboard.js:311-314 | only the add-member dialog opens |
| `Dashboard.DashboardPage.CloseAddMember` | src/components/dashboard/Dashboard.js:632 | only the add-member dialog closes; the buffer is kept |
| `Dashboard.DashboardPage.EditNewMember` | src/components/dashboard/Dashboard.js:598-627 | only the add-member buffer changes |
| `Dashboard.DashboardPage.AddMember` | src/components/dashboard/Dashboard.js:110-140 | nothing is sent when `CheckNewMember` refuses, and its message is shown; otherwise the buffer is posted to the snapshot's family; only on success does the dialog close, the buffer reset and a re-fetch follow; the snapshot never changes |
| `Dashboard.DashboardPage.OpenAddExpense` | src/components/dashboard/Dashboard.js:493-496 | the card's member is selected and the add-expense dialog opens |
| `Dashboard.DashboardPage.CloseAddExpense` | src/components/dashboard/Dashboard.js:698 | only the add-expense dialog closes |
| `Dashboard.DashboardPage.EditExpense` | src/components/dashboard/Dashboard.js:661-687 | only the add-expense buffer changes |
| `Dashboard.DashboardPage.AddExpense` | src/components/dashboard/Dashboard.js:142-162 | nothing is sent when a field is empty; otherwise the buffer is posted for the selected member; on success the dialog closes, the buffer becomes three empty strings and a re-fetch follows; on failure the dialog, the buffer and the snapshot are untouched |
| `Dashboard.DashboardPage.DeleteExpense` | src/components/dashboard/Dashboard.js:195-207 | no confirmation step: the delete goes out at once; a re-fetch follows only on success; the page state is untouched |
| `Dashboard.DashboardPage.ViewExpenses` | src/components/dashboard/Dashboard.js:264-267 | the member's expense list opens for that member |
| `Dashboard.DashboardPage.DismissExpenses` | src/components/dashboard/Dashboard.js:771-774 | the list closes and forgets its member |
| `Dashboard.DashboardPage.CloseExpenses` | src/components/dashboard/Dashboard.js:903 | the list closes and keeps its member |
| `Dashboard.DashboardPage.DeleteListedExpense` | src/components/dashboard/Dashboard.js:880-883 | deletes the expense of the listed member and closes the list whatever the outcome; the toast is "Expense deleted successfully!" on success and "Error deleting expense" on failure, and a re-fetch follows only on success (Dashboard.js:195-206) |
| `Dashboard.DashboardPage.EditMember` | src/components/dashboard/Dashboard.js:220-228 | the edit buffer is loaded from the member (id, name, flag, salary) and the edit dialog opens |
| `Dashboard.DashboardPage.EditExistingMember` | src/components/dashboard/Dashboard.js:727-757 | only the edit buffer changes |
| `Dashboard.DashboardPage.CloseEditMember` | src/components/dashboard/Dashboard.js:761 | only the edit dialog closes |
| `Dashboard.DashboardPage.UpdateMember` | src/components/dashboard/Dashboard.js:230-262 | a duplicate among the other members stops it before any request; without a stored family record nothing is sent and the failure message is shown; otherwise name, flag and salary are put for the edited id; only on success does the dialog close and a re-fetch follow; the snapshot never changes |
| `Dashboard.DashboardPage.InitiateDeleteMember` | src/components/dashboard/Dashboard.js:269-272 | the member becomes pending and the confirmation opens; nothing else changes |
| `Dashboard.DashboardPage.CancelDeleteMember` | src/components/dashboard/Dashboard.js:950-955 | the confirmation closes and nothing is pending |
| `Dashboard.DashboardPage.ConfirmDeleteMember` | src/components/dashboard/Dashboard.js:164-193 | callable only with the confirmation open; deletes the pending member; a non-empty response replaces the snapshot and collapses the cards; an empty response or a failure leaves the snapshot as it was, with the server's message or the fallback; in every case the dialog closes and nothing stays pending |
| `Register.ValidateRegistration` | src/components/auth/Register.js:37-54 | the ordered chain: "All fields are required" when any field is empty; otherwise "Passwords do not match" when they differ; otherwise "too short" below 6 characters; it passes exactly when all are filled, equal and at least 6 long |
| `Register.NameFlagged` | src/components/auth/Register.js:118 | an empty name is flagged, and the submit then refuses with "All fields are required" |
| `Register.PasswordFlagged` | src/components/auth/Register.js:133 | a password that is non-empty but shorter than 6 is flagged, and with a name and a matching confirmation the submit refuses it as too short |
| `Register.ConfirmFlagged` | src/components/auth/Register.js:151-153 | a non-empty confirmation that differs is flagged, and with every field filled the submit refuses with "Passwords do not match" |
| `Register.AcceptedIffNothingFlagged` | src/components/auth/Register.js:118-154 | the checks pass exactly when no field is flagged and neither password field is empty; the field flags are: name when empty, password when 0 < length < 6, confirmation when non-empty and different |
| `Register.RejectionIsFlagged` | src/components/auth/Register.js:44-54 | with both passwords filled in, each refusal matches a flag on the form: a mismatch on the confirmation field, a short password on the password field |
| `Register.RegisterBody` | src/components/auth/Register.js:57-58 | the body carries the form's name and password |
| `Register.RegisterBodyForgetsConfirmation` | src/components/auth/Register.js:57 | two forms give the same body exactly when they agree on name and password: `confirmPassword` is dropped |
| `Register.RegisterPage.constructor` | src/components/auth/Register.js:18-23 | empty form, not loading |
| `Register.RegisterPage.HandleChange` | src/components/auth/Register.js:25-30 | exactly the named field takes the value |
| `Register.RegisterPage.HandleSubmit` | src/components/auth/Register.js:32-77 | a request is sent exactly when the checks pass, and its body is the stripped form; the session is written only when a sent request is answered with both token and family, and it is untouched otherwise; the error text is the check's message, the server's message or "Registration failed"; `loading` is false afterwards |
| `Login.ValidateLogin` | src/components/auth/Login.js:36-41 | passes exactly when name and password are both non-empty |
| `Login.NameFlagged` | src/components/auth/Login.js:104 | an empty name is flagged, and the submit then refuses with "All fields are required" |
| `Login.PasswordFlagged` | src/components/auth/Login.js:119 | an empty password is flagged, and the submit then refuses with "All fields are required" |
| `Login.AcceptedIffNothingFlagged` | src/components/auth/Login.js:104-120 | the checks pass exactly when neither field is flagged (each field is flagged when it is empty) |
| `Login.LoginPage.constructor` | src/components/auth/Login.js:18-22 | empty form, not loading |
| `Login.LoginPage.HandleChange` | src/components/auth/Login.js:24-29 | exactly the named field takes the value |
| `Login.LoginPage.HandleSubmit` | src/components/auth/Login.js:31-63 | a request (the form itself) is sent exactly when both fields are filled; the session is written only when the response carries both token and family; a response missing either stores nothing and shows "Login failed"; a failure shows the server's message or "Login failed"; `loading` is false afterwards |
| `Session.CarriesSession` | src/components/auth/Login.js:46 | a response carries a session only when it has both a token and a family; an empty token is falsy and carries none (the same test is at Register.js:60) |
| `Session.SessionStore.HasSession` | src/components/dashboard/Dashboard.js:95 | storage holds a session only when both a token and a family record are there; an empty token counts as none |
| `Session.SessionStore.Save` | src/components/auth/Login.js:48-49 | both token and family are written; a session results exactly when the token is non-empty |
| `Session.SessionStore.Clear` | src/components/dashboard/Dashboard.js:210-211 | both are removed and no session remains |
| `MemberExpenses.FindMember` | src/components/expenses/MemberExpenses.js:71 | `find`: `None` exactly when no member has the id; otherwise the first member with that id |
| `MemberExpenses.MemberExpensesPage.constructor` | src/components/expenses/MemberExpenses.js:48-57 | no family, no member (loading), dialog closed, empty buffer |
| `MemberExpenses.MemberExpensesPage.Loading` | src/components/expenses/MemberExpenses.js:119 | while the invariant holds, the page shows "Loading..." exactly when no snapshot has arrived or no member in it has the route's id |
| `MemberExpenses.MemberExpensesPage.FetchFamily` | src/components/expenses/MemberExpenses.js:63-77 | on success the snapshot is replaced and the page stays loading exactly when no member has the route's id; otherwise the member shown has that id and belongs to the snapshot; a failure changes nothing and goes back to the dashboard |
| `MemberExpenses.MemberExpensesPage.OpenDialog` | src/components/expenses/MemberExpenses.js:162 | the add-expense dialog opens, only once the member has loaded; the invariant is kept |
| `MemberExpenses.MemberExpensesPage.CloseDialog` | src/components/expenses/MemberExpenses.js:253 | the add-expense dialog closes; the invariant is kept |
| `MemberExpenses.MemberExpensesPage.EditExpense` | src/components/expenses/MemberExpenses.js:212-244 | only the buffer changes; the invariant is kept |
| `MemberExpenses.MemberExpensesPage.AddExpense` | src/components/expenses/MemberExpenses.js:79-103 | no request while a field is empty; on success the dialog closes, the buffer resets and a re-fetch follows; on failure the dialog and the buffer stay as they were |
| `MemberExpenses.MemberExpensesPage.DeleteExpense` | src/components/expenses/MemberExpenses.js:105-117 | no confirmation: the delete for the route's member goes out at once; a re-fetch follows only on success |

## Findings

| source | as written | input that shows it | evidently intended | confidence | as-written member | corrected member |
|---|---|---|---|---|---|---|
| src/components/dashboard/Dashboard.js:457-458 | the on-target branch divides the balance by the salary, so for a zero salary it prints a 0/0 percentage ("NaN%") | an earning member with salary 0 and total spent 0: the balance 0 is at least 0 × 0.2 | a zero salary counts as below target, with no percentage | not executed | `Metrics.ZeroSalaryOnTargetHasNoPercent` | `Metrics.GuardedSavings` |

## Left out

- HTTP calls are not modelled. Each call is an outcome parameter, and the request a handler would send is its result. The bearer token header is not part of `Request`.
- Toasts are modelled only as the text a handler returns. The fetch handlers' own error toasts ("Error fetching family details", "Error fetching data") and `console.error` are not modelled.
- Navigation is modelled only as the `toLogin` / `toDashboard` flags of the fetch methods. The redirect after login or registration is not modelled.
- Browser storage is an object with two fields. The JSON encoding and decoding of the family record are not modelled.
- JSX rendering, MUI styling, Fade transitions, `toFixed` and `toLocaleDateString` formatting are not modelled.
- Floating-point arithmetic is not modelled: money is exact. `parseFloat(value) || 0` on the salary inputs is not modelled; the edit methods take the salary as a number.
- Metrics.Savings: the undefined 0/0 percentage is `None`. NaN and Infinity themselves are not modelled.
- Case folding covers ASCII letters only, and password length counts characters, not UTF-16 code units.
- Overlapping requests are not modelled. Each handler runs to completion with its outcome, and the re-fetch it starts is a separate later call.
- The render guard (the page shows "Loading..." until the family is there) is expressed as preconditions: a handler needs its control on screen.
- `FamilyDetails.js` is not part of this model: its handlers send a request and then re-fetch, with no checks of their own. `App.js` (routes and theme), `PasswordInput.js` (show/hide toggle) and `config.js` (environment lookup) are not part of this model either.
- Identifiers: `Member` and `Expense` each have a single `id` field, so the model assumes the server sends `_id` and `id` with the same value. `Dashboard.js` uses `member._id` and `expense._id` (lines 234, 561, 881). `MemberExpenses.js` uses `m.id` and `expense.id` (lines 71, 194). The route to the member page carries `member._id` (FamilyDetails.js:156) and `MemberExpenses.js:71` compares it with `m.id`. If the server sent only `_id`, the member page would never leave "Loading...". The model cannot show that case.
- Server-side behaviour is not modelled: uniqueness, cascade deletes, and how `totalIncome`, `totalExpenses` and `totalSpent` are computed. These figures are taken from the response as they are.
