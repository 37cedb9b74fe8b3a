# Toetally client core in Dafny

A model of the client-side core of the Toetally personal-finance web app:

- the Redux authentication slice: the session state `{user, isAuthenticated, isLoading, error}`, its reducer, and the thunks `login`, `register`, `logout`, `refreshToken` and `getCurrentUser`, which also keep the `accessToken`/`refreshToken` pair in browser storage;
- the start-up sequence that restores a session from a stored access token;
- the route guard that chooses between the loading screen, nothing (plus a redirect to `/login`) and the protected page;
- the registration form and its two local checks;
- the transactions screen: the selection toggle, the filter query, the amount sign, and batch deletion;
- the "New Transaction" and "Add Monthly Budget" modals: their forms, change handlers and submit handlers.

Each thunk and each event handler is one atomic step. A remote call is a parameter that gives its outcome: `Reply.Ok(payload)` or `Reply.Fail(message)` for the auth service, and a status-or-throw value for the other requests. Each component whose state React updates is a class: `AuthSlice.AuthStore`, `RegisterPage.Page`, `TransactionsPage.Page`, `TransactionTable.Table`, `NewTransactionModal.Modal` and `AddMonthlyBudgetModal.Modal`. Pure updaters, validation and render decisions are functions. A submit handler that changes no component state is a method. It returns the ordered list of effects it produces: requests, toasts and callbacks.

Browser storage is `TokenStore.Storage`, a `map<string, string>`. The code guards a token with `if (token)`, which treats both a missing key and an empty string as absent; `TokenStore.Present` models this.

The model follows the code as written; some of its behaviour may surprise a reader:

- There is no 401 interceptor with a silent refresh-and-retry (`lib/redux/services/auth-service.ts:7-12` creates a plain client). The only refresh-and-retry is the one inside `getCurrentUser`.
- Logout always removes both tokens. However, the session fields (`user`, `isAuthenticated`, `error`) are reset only when the thunk is fulfilled. If the remote logout throws, the thunk is rejected, the slice has no case for that, and the fields keep their values.
- The registration checks live in the page, not in the slice.
- The dashboard aggregation and the budget-versus-balance validation are not in the code that was modelled.

## Model

| member | source | states |
|---|---|---|
| `Remote.MessageOr` | lib/redux/slices/authSlice.ts:53 | JavaScript's "message, or else the fallback": a non-empty message is kept, an empty one is replaced, and the result is never empty when the fallback is not |
| `TokenStore.GetItem` | lib/redux/services/auth-service.ts:15-20 | `getItem` returns the stored string exactly when the key is present, otherwise null |
| `TokenStore.ClearTokens` | lib/redux/slices/authSlice.ts:77-78 | both token keys are removed and every other key is kept with its value |
| `TokenStore.ClearedStoreHasNoTokens` | lib/redux/slices/authSlice.ts:82-83 | after clearing, neither token passes the `if (token)` guard |
| `AuthSlice.Reduce` | lib/redux/slices/authSlice.ts:136-205 | every reducer case preserves the invariant "a cached user implies authenticated" |
| `AuthSlice.ReduceWritesOnlyItsFields` | lib/redux/slices/authSlice.ts:140-205 | each case leaves every field outside its own assignment list unchanged; the lists are read off the case bodies |
| `AuthSlice.PlainReducers` | lib/redux/slices/authSlice.ts:140-145 | `clearError` changes only `error`, and `setLoading(b)` changes only `isLoading` |
| `AuthSlice.UnhandledActionsAreNoOps` | lib/redux/slices/authSlice.ts:177-205 | `logout.pending`, `logout.rejected` and `refreshToken.pending` leave the state unchanged |
| `AuthSlice.SettlingEndsLoading` | lib/redux/slices/authSlice.ts:154-197 | every fulfilled or rejected action of login, register and getCurrentUser ends with `isLoading` false |
| `AuthSlice.AuthStore.constructor` | lib/redux/slices/authSlice.ts:34-39 | the store starts with no user, unauthenticated, loading and no error, over the existing storage |
| `AuthSlice.AuthStore.Dispatch` | lib/redux/slices/authSlice.ts:136-147 | dispatching runs the reducer and keeps the session invariant; the storage is untouched |
| `AuthSlice.AuthStore.Login` | lib/redux/slices/authSlice.ts:42-55 | on success both tokens are stored and the session becomes authenticated with the payload user, not loading, no error; on failure no token is written, `error` is set, loading ends, and `user`/`isAuthenticated` are kept |
| `AuthSlice.AuthStore.Register` | lib/redux/slices/authSlice.ts:57-66 | never touches the tokens, `user` or `isAuthenticated`; ends not loading, with `error` cleared or set to the rejection message |
| `AuthSlice.AuthStore.Logout` | lib/redux/slices/authSlice.ts:68-87 | both tokens are removed in every case; the remote call is made exactly when a refresh token is stored; only the fulfilled path resets `user`, `isAuthenticated` and `error`, and after a remote throw the state is unchanged |
| `AuthSlice.AuthStore.RefreshToken` | lib/redux/slices/authSlice.ts:89-107 | a missing refresh token fails without a remote call; success overwrites only the access token and authenticates; any failure removes both tokens and leaves the session unauthenticated with no user |
| `AuthSlice.AuthStore.GetCurrentUser` | lib/redux/slices/authSlice.ts:109-133 | at most two profile fetches and one refresh; each outcome path is given exactly, including the rejection reason (the first error's message, or the fallback text); when the refresh or the retry fails, both tokens are removed and the session ends unauthenticated, with no user and not loading |
| `ProtectedRoute.Render` | app/protected.tsx:18-26 | loading shows the loading screen whatever `isAuthenticated` is; when settled, it shows nothing if signed out and the page if signed in; the three outcomes partition the inputs |
| `ProtectedRoute.RedirectExactlyWhenNothingRendered` | app/protected.tsx:12-16 | the redirect to `/login` fires exactly when nothing is rendered, and never while the page is shown |
| `Providers.InitAuth` | app/providers.tsx:26-41 | `getCurrentUser` is dispatched exactly when an access token is stored; without a token only `setLoading(false)` happens; the thunk is fulfilled exactly when the first fetch succeeds or a refresh stores a token and the retry succeeds, and then the session is authenticated with that fetched user and not loading; on rejection both tokens are removed and the session ends without a user; on every path loading ends, so the guard never stays on the loading screen |
| `RegisterPage.UpdateField` | app/register/page.tsx:28-31 | the named field takes the new value and the other three are unchanged |
| `RegisterPage.Validate` | app/register/page.tsx:37-45 | a mismatch is reported first; a matching password shorter than 8 is reported as too short; the form passes exactly when the passwords match and have at least 8 characters |
| `RegisterPage.MismatchReportedBeforeLength` | app/register/page.tsx:37-45 | a short, mismatched password reports the mismatch |
| `RegisterPage.Banner` | app/register/page.tsx:68-71 | the local error wins when non-empty, else a non-empty store error is shown, and nothing is shown when both are empty or null |
| `RegisterPage.Page.constructor` | app/register/page.tsx:16-22 | the form starts empty, with no validation error |
| `RegisterPage.Page.Mount` | app/register/page.tsx:24-26 | mounting clears the store's error and nothing else |
| `RegisterPage.Page.HandleChange` | app/register/page.tsx:28-31 | the form becomes the single-field update |
| `RegisterPage.Page.HandleSubmit` | app/register/page.tsx:33-53 | a failed check sets its message and dispatches nothing; otherwise the validation error is empty, `register` receives the form exactly as entered, navigation happens only on success, the tokens are unchanged, and the store ends not loading with only `error` changed: cleared on success, or the rejection message (`"Registration failed"` when empty) that the banner shows |
| `TransactionsPage.FirstThrow` | app/transactions/page.tsx:46-57 | the position of the first delete call that throws: every earlier call answered, and the call at that position threw |
| `TransactionsPage.NotDeleted` | app/transactions/page.tsx:53-56 | the report has one entry per call answered with a status other than 200, and the refusal at call `j` is entry `RefusedBefore(reply, j)`, so every refused id is reported, in call order, and nothing else is |
| `TransactionsPage.IssueDeletes` | app/transactions/page.tsx:46-57 | one delete per id in selection order; a non-200 status is recorded and the loop goes on; a throw stops the remaining deletes |
| `TransactionsPage.RefusedBeforeGrows` | app/transactions/page.tsx:46-57 | a later prefix of the calls holds at least as many refusals, and one more past a refused call |
| `TransactionsPage.RefusedIdsAreReported` | app/transactions/page.tsx:53-56 | every id whose delete answered with a status other than 200 is alerted |
| `TransactionsPage.AllOkReportsNoFailure` | app/transactions/page.tsx:53-56 | when every call answers 200, no failure is reported and the loop completes |
| `TransactionsPage.FailureAlerts` | app/transactions/page.tsx:55 | one "failed to delete" alert per failed id, in order |
| `TransactionsPage.Page.constructor` | app/transactions/page.tsx:13-17 | empty selection, flag false, both filters "All" |
| `TransactionsPage.Page.SetSelectedIds` | app/transactions/page.tsx:13 | replaces the selection |
| `TransactionsPage.Page.HandleCreated` | app/transactions/page.tsx:19-22 | negates `refreshFlag` |
| `TransactionsPage.Page.HandleTransactionUpdate` | app/transactions/page.tsx:24-26 | negates `refreshFlag` |
| `TransactionsPage.Page.HandleDelete` | app/transactions/page.tsx:28-66 | an empty selection, a declined confirmation or a missing token issues no delete and changes nothing; a completed loop clears the selection and negates the flag; a throw leaves both unchanged; the alerts are given exactly |
| `TransactionTable.Without` | app/components/transactions/transactionTable.tsx:58 | the filter keeps exactly the other ids, never grows the list, and keeps a list without duplicates duplicate-free |
| `TransactionTable.Toggle` | app/components/transactions/transactionTable.tsx:56-62 | a selected id is removed everywhere and the membership of the other ids is unchanged; an unselected id is appended at the end |
| `TransactionTable.WithoutAbsent` | app/components/transactions/transactionTable.tsx:58 | filtering out an absent id changes nothing |
| `TransactionTable.WithoutDistributes` | app/components/transactions/transactionTable.tsx:58 | filtering works piecewise over concatenation, so the kept ids keep their order |
| `TransactionTable.WithoutRemovesItsPosition` | app/components/transactions/transactionTable.tsx:57-58 | in a duplicate-free selection, unticking removes exactly that id's position |
| `TransactionTable.ToggleKeepsNoDuplicates` | app/components/transactions/transactionTable.tsx:56-62 | a duplicate-free selection stays duplicate-free after any toggle |
| `TransactionTable.ToggleTwiceRestores` | app/components/transactions/transactionTable.tsx:56-62 | toggling an unselected id twice restores the selection |
| `TransactionTable.BuildQuery` | app/components/transactions/transactionTable.tsx:24-26 | the query has `type` iff the type filter is not "All", `category` iff the category filter is not "All", nothing else, with `type` first |
| `TransactionTable.Label` | app/components/transactions/transactionTable.tsx:178-179 | "-" exactly for an Expense, "+" exactly for an Income, followed by the absolute amount |
| `TransactionTable.LabelIgnoresStoredSign` | app/components/transactions/transactionTable.tsx:103-104 | negating the stored amount does not change what is displayed |
| `TransactionTable.Table.constructor` | app/components/transactions/transactionTable.tsx:16-19 | no transactions, no row being edited |
| `TransactionTable.Table.FetchTransactions` | app/components/transactions/transactionTable.tsx:22-47 | with no access token, no request is sent and the list is unchanged; otherwise the query matches the filters, and the list is replaced on success or kept after a throw |
| `TransactionTable.Table.HandleCheckboxChange` | app/components/transactions/transactionTable.tsx:56-62 | the page's selection becomes its toggle |
| `TransactionTable.Table.HandleRowClick` | app/components/transactions/transactionTable.tsx:52-54 | the clicked row becomes the one being edited |
| `TransactionTable.Table.HandleModalClose` | app/components/transactions/transactionTable.tsx:64-66 | no row is being edited |
| `TransactionTable.Table.HandleModalSuccess` | app/components/transactions/transactionTable.tsx:68-71 | clears the editing id and negates the page's refresh flag |
| `JsNumber.ToNumber` | app/components/transactions/newTransactionModal.tsx:47 | `Number("")` is 0, and a negative number needs a leading minus sign |
| `JsNumber.NegativeIff` | app/components/transactions/newTransactionModal.tsx:47 | the amount reads negative exactly when it is a minus sign before an unsigned numeral (fraction and exponent included) of positive value |
| `JsNumber.NumeralRoundTrip` | app/components/transactions/newTransactionModal.tsx:47 | a written natural number reads back as itself, with or without a minus sign, and "-n" is negative exactly when n is not 0 |
| `NewTransactionModal.BeforeT` | app/components/transactions/newTransactionModal.tsx:22 | `split("T")[0]` is the longest prefix without a `T` |
| `NewTransactionModal.InitialForm` | app/components/transactions/newTransactionModal.tsx:14-24 | type is the prop or "Expense", category is "Food", subject, amount and notes are empty, and the date is the ISO string up to its `T` |
| `NewTransactionModal.Change` | app/components/transactions/newTransactionModal.tsx:33-41 | choosing "Income" sets the type and forces the category to "Other"; every other change, "Expense" included, updates only the named field |
| `NewTransactionModal.IncomeThenExpenseStaysOther` | app/components/transactions/newTransactionModal.tsx:33-41 | switching back to "Expense" does not restore the category |
| `NewTransactionModal.Submit` | app/components/transactions/newTransactionModal.tsx:44-62 | a negative amount shows the error and posts nothing; otherwise the form is posted first; `onClose` runs exactly after a successful post; `onSuccess` runs exactly when it is given and the post succeeds; `onClose` comes last; a failed post runs neither; a successful post gives exactly post, success toast, `onSuccess` when given, `onClose` |
| `NewTransactionModal.EmptyAmountPasses` | app/components/transactions/newTransactionModal.tsx:47-52 | the empty amount of a fresh form passes `handleSubmit`'s only check |
| `NewTransactionModal.Modal.constructor` | app/components/transactions/newTransactionModal.tsx:17-24 | the modal starts on the initial form |
| `NewTransactionModal.Modal.HandleChange` | app/components/transactions/newTransactionModal.tsx:26-42 | the form becomes its updated value |
| `AddMonthlyBudgetModal.FirstSeven` | app/components/addMonthlyBudgetModal.tsx:17 | `slice(0, 7)` is the prefix of length at most 7 |
| `AddMonthlyBudgetModal.InitialBudget` | app/components/addMonthlyBudgetModal.tsx:15-18 | the amount is empty and the month is the first seven characters (`YYYY-MM`) of the ISO date |
| `AddMonthlyBudgetModal.Change` | app/components/addMonthlyBudgetModal.tsx:48-52 | the named field takes the value and the other is unchanged |
| `AddMonthlyBudgetModal.Payload` | app/components/addMonthlyBudgetModal.tsx:57-60 | the amount is unchanged and the month is followed by `-01` |
| `AddMonthlyBudgetModal.PayloadIsInvertible` | app/components/addMonthlyBudgetModal.tsx:57-60 | dropping the day suffix from the payload gives back the form |
| `AddMonthlyBudgetModal.PayloadNotIdempotent` | app/components/addMonthlyBudgetModal.tsx:57-60 | a month that already carries a day gets a second `-01` |
| `AddMonthlyBudgetModal.DefaultMonthPayload` | app/components/addMonthlyBudgetModal.tsx:17 | the default month is posted as a ten-character `YYYY-MM-01` |
| `AddMonthlyBudgetModal.Title` | app/components/addMonthlyBudgetModal.tsx:46 | a closed modal renders nothing; an open one is titled by whether it is editing |
| `AddMonthlyBudgetModal.Submit` | app/components/addMonthlyBudgetModal.tsx:54-86 | the payload is posted first; the success toast appears exactly for status 200; `onSuccess` (when given) and then `onClose` run after any post that did not throw, in exactly that order after the post and the toast; a throw runs neither |
| `AddMonthlyBudgetModal.Modal.constructor` | app/components/addMonthlyBudgetModal.tsx:15-19 | the form starts on the initial budget, not editing |
| `AddMonthlyBudgetModal.Modal.FetchBudget` | app/components/addMonthlyBudgetModal.tsx:21-44 | a 200 response copies the stored amount and month and sets editing; any other answer or a throw leaves the form and the flag as they were |
| `AddMonthlyBudgetModal.Modal.HandleChange` | app/components/addMonthlyBudgetModal.tsx:48-52 | the form becomes its updated value |

## Left out

- HTTP transport: the axios client, base URL, headers and request URLs are not modelled. Each call is reduced to its outcome, passed in as a parameter. The login thunk's email and password only travel to that call, so they are not parameters.
- `URLSearchParams.toString()`: the percent-encoding of the query string is not modelled. The query is kept as a list of name/value pairs.
- Asynchronous interleaving of concurrently dispatched thunks, and React's batching of state updates, are not modelled. Every thunk and handler is one atomic step.
- Logging, toasts and alerts: console logging is dropped. Toasts and alerts are recorded as effects or alert values, not rendered.
- Router navigation is recorded as a boolean, or as the redirect predicate of the route guard.
- JSX rendering is not modelled beyond the decisions listed above. This includes the sign and colour of rows, the disabled delete button, and the register button's label and its `disabled={isLoading}` (app/register/page.tsx:151), which keeps `handleSubmit` from running while a thunk is pending or before start-up has settled. The table opens the edit modal only when `editingTransactionId` is truthy, so an id of 0 would not open it; this is not modelled.
- `JsNumber.ToNumber`: leading or trailing whitespace, `Infinity`, and hexadecimal, octal or binary literals read as NaN in the model, but as numbers in JavaScript. A number input never holds such text. Amounts are exact reals, not IEEE doubles.
- `RegisterPage.Validate`: the length check counts Unicode characters, while JavaScript's `length` counts UTF-16 code units. A password with characters outside the Basic Multilingual Plane can pass in JavaScript with fewer than 8 characters.
- Re-running the table's fetch: the fetch effect depends on `[refreshFlag, type, category]` (app/components/transactions/transactionTable.tsx:50). The model flips the flag, and `FetchTransactions` models one run of the effect, but nothing ties the flip to a new run.
- Browser form validation: the amount input of the new-transaction form is a required number field with minimum 0 (app/components/transactions/newTransactionModal.tsx:139-146), so the browser blocks an empty or negative amount before `handleSubmit` runs. The model starts at `handleSubmit`; its negativity branch is reached only when that validation is bypassed. The same holds for the register form, whose four inputs are required and whose email input has type `email` (app/register/page.tsx:87-144), so `handleSubmit` never sees an empty field or a malformed address in the browser. It also holds for the budget form, whose amount and month are required and whose month input has type `month` (app/components/addMonthlyBudgetModal.tsx:114-140). A month input holds only "" or `YYYY-MM`, so a fetched month that already carries a day shows as empty and the browser blocks the submit.
- Status handling of the HTTP client: the `api` instance keeps axios's default status check, so any answer outside 200–299 throws. The model lets a reply carry any status (`DeleteReply.Status`, `PostReply.Answered`, `FetchReply.Fetched`). In the program, the "not 200" branches of the delete loop and of the budget modal only ever see other 2xx codes.
- `Date` and `toISOString()`: the current time's ISO string is a parameter.
- The `typeof window` guard in the auth service is not modelled, because browser storage is always present in this model. The profile fetch's own "no access token" check is modelled as part of `getCurrentUser`.
- `app/components/transactions/updateTransactionModal.tsx` is not part of this model. It only fetches and updates one transaction, and its change handler is a plain field update.
- Also not part of this model:
  - the confirmation modal, the loading screen, the sidebar and its resize listener;
  - the layouts and the store configuration;
  - the new-transaction buttons, which only open and close a modal;
  - the filter widgets;
  - the older duplicates under `components/transactions/`.
