# Budget tracker: service layer, token gate, routes and dashboard computations

A Dafny model of the core of a personal budget tracker. It is an Express and MongoDB backend with a React dashboard.

- **Transaction service** (`TransactionService`). It covers create, list, update and delete over the Transaction collection.
  - Every lookup is scoped to the owner. The collection is a sequence of documents in MongoDB's natural order.
  - Each operation is a step function from the old documents to a tagged result and the new documents.
  - The class `TransactionStore` runs the same operations imperatively on its `docs` field and is proved to agree with the step functions.
  - Store faults (`ValidationError`, `CastError`, duplicate key, anything else) are inputs.
  - The store invariant (distinct non-empty ids, schema-valid records, positive amounts) is preserved by every operation.
- **Auth service** (`AuthService`). Signup and login run over the User collection keyed by its unique email.
  - bcrypt is an abstract `hash`/`compare` pair.
  - The login email check is computed and proved equal to the regular expression it replaces.
- **Token gate** (`TokenGate`). It covers token extraction from the Authorization header, the 401/403/`next()` decision, and the `req.user` record.
  - `jwt.verify` is an abstract partial function.
- **Transaction routes** (`TransactionRoutes`). These cover the create route's own validation chain, the construction of `updateData`, and the mapping of service results to HTTP statuses.
- **Record schemas** (`TransactionSchema`, `UserSchema`). They give the record shapes and what the store enforces.
- **Dashboard computations.** These cover the route guard (`ProtectedRoute`), the toast list (`Toasts`), income and expense totals (`Ledger`, `BalanceSummary`), the pie data (`ExpensePieChart`) and the newest-first history (`TransactionHistory`).

JavaScript semantics are modelled where the code depends on them:
- truthiness: `""`, `0`, `NaN` and `undefined` are falsy;
- `split(' ')`, `trim()` with the exact ECMAScript white-space and line-terminator set, and `toLowerCase()` on ASCII letters;
- `Number`, `parseFloat` and `Date.parse`/`new Date` are function parameters.

Dates are integer timestamps and amounts are reals.

The router answers 400 for every service failure, `SERVER_ERROR` included.

## Model

| member | source | states |
|---|---|---|
| Js.TrimEmptyIffBlank | Backend/src/middleware/jwt/authenticateToken.ts:27 | `trim()` yields the empty string exactly when every character is ECMAScript white space or a line terminator |
| Js.TrimStart | Backend/src/middleware/jwt/authenticateToken.ts:27 | the result is a suffix, starts with a non-space, and only white space was removed |
| Js.TrimEnd | Backend/src/middleware/jwt/authenticateToken.ts:27 | the result is a prefix, ends with a non-space, and only white space was removed |
| Js.Split | Backend/src/middleware/jwt/authenticateToken.ts:20 | `split(sep)` yields at least one part and no part contains the separator |
| Js.JoinSplit | Backend/src/middleware/jwt/authenticateToken.ts:20 | joining the parts of a split with the separator gives the string back |
| Js.SplitFree | Backend/src/middleware/jwt/authenticateToken.ts:20 | a string without the separator splits into itself alone |
| Js.SplitAt | Backend/src/middleware/jwt/authenticateToken.ts:20 | a separator after a separator-free prefix ends the first part; the rest splits what follows |
| Js.SplitFirst | Backend/src/middleware/jwt/authenticateToken.ts:20 | the first part is the longest separator-free prefix; there is one part iff no separator occurs |
| Js.ToLower | Backend/src/routes/transactions.ts:34 | length is kept and a character is a lower-case letter afterwards iff it was an ASCII letter |
| Js.ToLowerMatches | Backend/src/routes/transactions.ts:34 | `s.toLowerCase()` equals a lower-case ASCII word iff `s` has its length and each character is that word's letter in either case |
| Sorting.Insert | src/api/transaction.ts:125-127 | inserting into a newest-first sequence keeps it newest first and adds exactly that element |
| Sorting.SortNewestFirst | src/components/Dashboard/TransactionHistory.tsx:18-20 | the result is newest first, of the same length, and a permutation of the input |
| TransactionSchema.IsKind | Backend/src/database/models/transactions.ts:17 | the `type` enum: exactly "income" and "expense" (no contract of its own; `RouteTypeCheckIgnoresCase` and `UpperCaseTypeRefusedByService` use it) |
| TransactionSchema.SchemaValid | Backend/src/database/models/transactions.ts:16-21 | the enum and `required` on the string paths, with no bound on `amount` (no contract of its own; `AmountUnbounded` and the store invariant characterise it) |
| TransactionSchema.AmountUnbounded | Backend/src/database/models/transactions.ts:18 | the schema's validity does not depend on the amount: it sets no bound |
| UserSchema.SchemaValid | src/database/models/user.ts:13-15 | `required` on name, email and passwordHash (no contract of its own; `SignupStep` states that a refused user gives VALIDATION_ERROR) |
| UserSchema.InsertUnique | src/database/models/user.ts:14 | an insert fails exactly when the email is already stored; otherwise it adds exactly that user, keeps every other one, and keeps the collection keyed by email and schema-valid |
| TransactionService.Owned | src/api/transaction.ts:125 | `find({ userId })` as an order-keeping filter (no contract of its own; `OwnedMembers`, `OwnedAppend`, `OwnedReplace` and `OwnedRemove` characterise it) |
| TransactionService.OwnedMembers | src/api/transaction.ts:125 | the owner filter keeps exactly that user's documents |
| TransactionService.OwnedAppend | src/api/transaction.ts:86 | the owner filter distributes over concatenation |
| TransactionService.OwnedReplace | src/api/transaction.ts:222-226 | replacing the document at an index by one of the same owner leaves every other user's listing unchanged |
| TransactionService.OwnedRemove | src/api/transaction.ts:273 | removing one user's document leaves every other user's listing unchanged |
| TransactionService.FindOwned | src/api/transaction.ts:167 | the `{_id, userId}` lookup finds an index holding that id and owner, and finds nothing iff no such document exists |
| TransactionService.ForeignIsNotFound | src/api/transaction.ts:167-174 | a document with that id owned by someone else is indistinguishable from a missing one |
| TransactionService.CheckCreate | src/api/transaction.ts:40-84 | the four checks in order (each code iff its condition and all earlier ones pass: a falsy field including amount 0 or NaN, amount ≤ 0, type not exactly income/expense, unparseable date); an accepted record carries the given fields, the parsed date, description "" when absent, and is well-formed |
| TransactionService.CreateFault | src/api/transaction.ts:94-120 | the create catch block always fails, with VALIDATION_ERROR exactly for a validation error, INVALID_DATA_FORMAT exactly for a cast error, and SERVER_ERROR exactly for anything else |
| TransactionService.CreateStep | src/api/transaction.ts:38-120 | success iff the checks pass and the save does not throw; success appends exactly the new document; every failure leaves the store unchanged; save faults map to VALIDATION_ERROR, INVALID_DATA_FORMAT or SERVER_ERROR; other users' listings are unchanged; the store invariant is kept |
| TransactionService.ListStep | src/api/transaction.ts:123-144 | a fault gives SERVER_ERROR; otherwise the result is exactly the owner's documents (as a multiset and by membership), newest date first |
| TransactionService.SanitizePatch | src/api/transaction.ts:177-211 | an invalid type and an empty category are dropped; a defined description (even "") is kept; amount ≤ 0 gives INVALID_AMOUNT; a truthy unparseable date gives INVALID_DATE (after the amount check); the patch is empty iff no field survives |
| TransactionService.InvalidKindDropped | src/api/transaction.ts:178-180 | an update with an invalid type is the same as one without a type |
| TransactionService.EmptyCategoryDropped | src/api/transaction.ts:193-195 | an update with an empty category is the same as one without a category |
| TransactionService.ApplyPatch | src/api/transaction.ts:222-226 | `$set` writes every field the patch carries with the patch's value, keeps every field it lacks, keeps the owner and the creation time, and refreshes `updatedAt` |
| TransactionService.SanitizedPatchKeepsWellFormed | src/api/transaction.ts:177-226 | a sanitised patch keeps a well-formed record well-formed and changes only the fields it carries |
| TransactionService.UpdateFault | src/api/transaction.ts:233-253 | the update catch block always fails, with VALIDATION_ERROR exactly for a validation error, INVALID_ID_FORMAT exactly for a cast error, and SERVER_ERROR exactly for anything else |
| TransactionService.UpdateStep | src/api/transaction.ts:157-254 | success iff the id and user are present, the lookup neither throws nor misses, the sanitised patch is accepted, non-empty and castable, and the write does not throw; MISSING_FIELDS for an empty id or user, then a lookup fault mapped by the catch block (cast error INVALID_ID_FORMAT, validation VALIDATION_ERROR, otherwise SERVER_ERROR), then TRANSACTION_NOT_FOUND, all before any field check; then the sanitiser's INVALID_AMOUNT or INVALID_DATE as it gives them; EMPTY_UPDATE iff the sanitised patch is empty; a NaN amount gives INVALID_ID_FORMAT; a write fault is mapped by the catch block; on success exactly the matched document is replaced by its patched version; failures change nothing; other users' listings and the store invariant are kept |
| TransactionService.ReplacePreserves | src/api/transaction.ts:222-226 | writing a sanitised patch into one document keeps the store invariant |
| TransactionService.DeleteFault | src/api/transaction.ts:288-304 | the delete catch block always fails, with INVALID_ID_FORMAT exactly for a cast error and SERVER_ERROR for anything else |
| TransactionService.DeleteStep | src/api/transaction.ts:262-305 | success iff the owner-scoped lookup finds the document, and then exactly that document is removed; TRANSACTION_NOT_FOUND removes nothing; only a cast fault has INVALID_ID_FORMAT, every other fault is SERVER_ERROR; other users' listings and the store invariant are kept |
| TransactionService.RemovePreserves | src/api/transaction.ts:273 | removing one document keeps the store invariant and removes exactly the documents with its id |
| TransactionService.TransactionStore.CreateTransaction | src/api/transaction.ts:30-121 | the imperative create agrees with `CreateStep` on the result and the new documents and keeps the invariant |
| TransactionService.TransactionStore.GetUserTransactions | src/api/transaction.ts:123-144 | the list agrees with `ListStep` and changes nothing |
| TransactionService.TransactionStore.UpdateTransaction | src/api/transaction.ts:146-255 | the imperative update agrees with `UpdateStep` on the result and the new documents and keeps the invariant |
| TransactionService.TransactionStore.DeleteTransaction | src/api/transaction.ts:258-306 | the imperative delete agrees with `DeleteStep` on the result and the new documents and keeps the invariant |
| AuthService.IsEmail | Backend/src/api/user.ts:96-97 | the email test computed on the string (no contract of its own; `EmailCheckIsPattern` proves it equal to the regular expression) |
| AuthService.EmailCheckIsPattern | Backend/src/api/user.ts:96-97 | the computed check (no white space, exactly one "@", non-empty local part, a "." with text on both sides in the domain) accepts exactly the strings `/^[^\s@]+@[^\s@]+\.[^\s@]+$/` matches |
| AuthService.SignupFault | Backend/src/api/user.ts:55-81 | the signup catch block always fails, with DUPLICATE_EMAIL exactly for a duplicate key (tested first), VALIDATION_ERROR exactly for a validation error, and SERVER_ERROR exactly for anything else |
| AuthService.SignupStep | Backend/src/api/user.ts:17-82 | MISSING_FIELDS for an empty field, USER_EXISTS for a stored email; success iff the fields are present, the email is new and no store call throws, and then exactly one user `{name, email, hash(password)}` is added; a fault of the pre-check or of the write is mapped by the catch block (duplicate key DUPLICATE_EMAIL, validation VALIDATION_ERROR, otherwise SERVER_ERROR), and a user the schema refuses gives VALIDATION_ERROR; failures change nothing; the collection stays keyed by email |
| AuthService.NoSecondSignup | src/database/models/user.ts:14 | after a successful signup, a second one with the same email fails with USER_EXISTS |
| AuthService.Login | Backend/src/api/user.ts:84-139 | MISSING_FIELDS, then INVALID_EMAIL, both before any lookup; an unknown email and a wrong password give the same INVALID_CREDENTIALS message; success iff the user exists and the password matches, returning the stored user |
| AuthService.SignupThenLogin | Backend/src/api/user.ts:38-54 | with a hasher whose `compare` accepts a password against its own hash, a user who signed up logs in with the same password and gets the stored record |
| AuthService.UserStore.SignupUser | Backend/src/api/user.ts:17-82 | the imperative signup agrees with `SignupStep` and keeps the collection consistent |
| AuthService.UserStore.LoginUser | Backend/src/api/user.ts:84-139 | the imperative login agrees with `Login` and changes nothing |
| TokenGate.ExtractToken | Backend/src/middleware/jwt/authenticateToken.ts:19-20 | `authHeader && authHeader.split(' ')[1]` (no contract of its own; `ExtractTokenIsSecondWord`, `SchemeNotChecked` and `BearerHeader` characterise it) |
| TokenGate.MissingToken | Backend/src/middleware/jwt/authenticateToken.ts:27 | a token that is absent or blank after `trim()` (no contract of its own; `NoTokenCases` and `Js.TrimEmptyIffBlank` characterise it) |
| TokenGate.ExtractTokenIsSecondWord | Backend/src/middleware/jwt/authenticateToken.ts:19-20 | a non-empty header yields its second space-separated word, and yields nothing iff it holds no space |
| TokenGate.SchemeNotChecked | Backend/src/middleware/jwt/authenticateToken.ts:20 | any space-free first word gives the same token: the scheme name is never checked |
| TokenGate.BearerHeader | Backend/src/middleware/jwt/authenticateToken.ts:20 | a header `Bearer <token>` (the form of section 2.1 of RFC 6750) yields the token |
| TokenGate.NoTokenCases | Backend/src/middleware/jwt/authenticateToken.ts:27-34 | a missing header, a header without a space, and a blank token all count as no token |
| TokenGate.StampOf | Backend/src/middleware/jwt/authenticateToken.ts:42-43 | a timestamp comes from the payload claim when it is truthy, otherwise from the clock |
| TokenGate.UserOf | Backend/src/middleware/jwt/authenticateToken.ts:38-44 | `req.user` copies id, name and email from the payload and takes its timestamps from `StampOf` |
| TokenGate.Decide | Backend/src/middleware/jwt/authenticateToken.ts:17-55 | 401 iff the token is missing or blank, 403 iff it is present and fails verification, proceed iff it verifies, with the user built from the payload |
| TokenGate.Exchange.AuthenticateToken | Backend/src/middleware/jwt/authenticateToken.ts:17-55 | exactly one of: status 401 with NO_TOKEN, status 403 with INVALID_TOKEN (user unset, `next` not called in both), or `req.user` set and `next` called exactly once with no status written |
| TransactionRoutes.CheckCreateRoute | Backend/src/routes/transactions.ts:18-49 | MISSING_FIELDS unless all six values are truthy (description included), then INVALID_AMOUNT iff `Number(amount)` is NaN, then INVALID_TYPE iff the lower-cased type is not a kind, then INVALID_DATE; the request passed on carries the type as sent and the amount through `parseFloat` |
| TransactionRoutes.CreateRoute | Backend/src/routes/transactions.ts:11-61 | route failures are 400 with the route's code and change nothing; otherwise the store changes as the service says, 201 iff the service succeeds, 400 with the service's code and message otherwise |
| TransactionRoutes.RouteTypeCheckIgnoresCase | Backend/src/routes/transactions.ts:34 | the route's type check accepts exactly "income" and "expense" written in any mix of ASCII cases |
| TransactionRoutes.UpperCaseTypeRefusedByService | Backend/src/routes/transactions.ts:34-49 | a body with type "INCOME" clears the route's case-insensitive check and is then refused by the service's exact comparison: 400 INVALID_TYPE, nothing stored |
| TransactionRoutes.ListRoute | Backend/src/routes/transactions.ts:87-110 | 401 USER_NOT_AUTHENTICATED without a user id, before the service; 400 on a service failure; 200 iff a user id is present and nothing throws, with the owner's documents newest first |
| TransactionRoutes.UpdateDataOf | Backend/src/routes/transactions.ts:136-141 | the `updateData` object (no contract of its own; `BuildUpdateData` is proved to build it field by field) |
| TransactionRoutes.BuildUpdateData | Backend/src/routes/transactions.ts:136-141 | `updateData` has exactly the defined body fields, the amount through `parseFloat` |
| TransactionRoutes.UpdateRoute | Backend/src/routes/transactions.ts:122-156 | 401 without a user id and no change; otherwise the service's update, 200 with the updated document iff it succeeds, 400 with its code otherwise |
| TransactionRoutes.UpdateRouteChangesOnlySentFields | Backend/src/routes/transactions.ts:136-156 | a 200 update changes only the matched document and, in it, only fields the body carries and `updatedAt`; owner and creation time stay |
| TransactionRoutes.DeleteRoute | Backend/src/routes/transactions.ts:168-193 | 401 without a user id and no change; otherwise the service's delete, 200 iff it succeeds, 400 with its code otherwise |
| TransactionRoutes.PostTransaction | Backend/src/routes/transactions.ts:11-61 | the handler agrees with `CreateRoute` on the answer and the store |
| TransactionRoutes.GetTransactions | Backend/src/routes/transactions.ts:87-110 | the handler agrees with `ListRoute` |
| TransactionRoutes.PutTransaction | Backend/src/routes/transactions.ts:122-156 | the handler builds `updateData` and agrees with `UpdateRoute` on the answer and the store |
| TransactionRoutes.DeleteTransactionRoute | Backend/src/routes/transactions.ts:168-193 | the handler agrees with `DeleteRoute` on the answer and the store |
| ProtectedRoute.Guard | Frontend/src/components/ProtectedRoute.tsx:10-43 | loading screen whenever loading; redirect to `redirectTo` when auth is required and missing; redirect to /dashboard when auth is present and must be absent; children iff not loading and `requireAuth == isAuthenticated` |
| ProtectedRoute.DefaultRedirect | Frontend/src/components/ProtectedRoute.tsx:12-13 | with the default props a signed-out visitor is sent to /login and a signed-in one sees the page |
| ProtectedRoute.GuardsComplementary | Frontend/src/components/ProtectedRoute.tsx:33-43 | after loading, exactly one of a protected and a signed-out-only page shows its children |
| Toasts.Without | Frontend/src/context/ToastContext.tsx:25 | `toasts.filter(toast => toast.id !== id)` (no contract of its own; `WithoutMembers`, `WithoutAppend`, `WithoutAbsent` and `WithoutIdempotent` characterise it) |
| Toasts.WithoutMembers | Frontend/src/context/ToastContext.tsx:24-26 | `removeToast` keeps exactly the toasts with another id |
| Toasts.WithoutAppend | Frontend/src/context/ToastContext.tsx:25 | the filter works toast by toast, so the survivors keep their order |
| Toasts.WithoutAbsent | Frontend/src/context/ToastContext.tsx:25 | removing an id no toast has leaves the list unchanged |
| Toasts.WithoutIdempotent | Frontend/src/context/ToastContext.tsx:25 | removing the same id twice is removing it once |
| Toasts.ShowThenRemove | Frontend/src/context/ToastContext.tsx:24-43 | removing a freshly shown toast with a new id restores the list |
| Toasts.Offset | Frontend/src/context/ToastContext.tsx:76 | `index * 8` pixels (no contract of its own; `LaterToastsStackBelow` states the stacking) |
| Toasts.ZIndex | Frontend/src/context/ToastContext.tsx:77 | `50 - index` (no contract of its own; `LaterToastsStackBelow` states the stacking) |
| Toasts.LaterToastsStackBelow | Frontend/src/context/ToastContext.tsx:71-78 | a later toast is 8 pixels per index lower and under every earlier one |
| Toasts.ToastProvider.ShowToast | Frontend/src/context/ToastContext.tsx:28-44 | appends exactly one toast at the end, variant info and duration 5000 by default, existing toasts unchanged and in order |
| Toasts.ToastProvider.RemoveToast | Frontend/src/context/ToastContext.tsx:24-26 | the list becomes the filtered list |
| Toasts.ToastProvider.ShowInfo | Frontend/src/context/ToastContext.tsx:46-48 | appends a toast of variant info |
| Toasts.ToastProvider.ShowError | Frontend/src/context/ToastContext.tsx:50-52 | appends a toast of variant error |
| Toasts.ToastProvider.ShowSuccess | Frontend/src/context/ToastContext.tsx:54-56 | appends a toast of variant success |
| Ledger.OfKind | Frontend/src/components/Dashboard/BalanceSummary.tsx:9 | `filter(t => t.type === kind)` (no contract of its own; `OfKindAppend`, `OfKindCount` and `OfKindPermutation` characterise it) |
| Ledger.Sum | Frontend/src/components/Dashboard/BalanceSummary.tsx:10 | `reduce((sum, t) => sum + t.amount, 0)` as a left fold from 0 (no contract of its own; `SumAppend` and `SumPermutation` characterise it) |
| Ledger.TotalOf | Frontend/src/components/Dashboard/BalanceSummary.tsx:8-10 | the fold of the filtered list (no contract of its own; `TotalOfAppend`, `TotalOfSingle`, `OtherKindIgnored` and `TotalOfPermutation` characterise it) |
| Ledger.OfKindAppend | Frontend/src/components/Dashboard/BalanceSummary.tsx:9 | the type filter distributes over concatenation |
| Ledger.SumAppend | Frontend/src/components/Dashboard/BalanceSummary.tsx:10 | the `reduce` from 0 splits over concatenation |
| Ledger.TotalOfAppend | Frontend/src/components/Dashboard/BalanceSummary.tsx:8-14 | a total over two lists is the sum of their totals |
| Ledger.TotalOfSingle | Frontend/src/components/Dashboard/BalanceSummary.tsx:8-14 | one entry totals its amount under its own type and nothing under any other |
| Ledger.OtherKindIgnored | src/components/Dashboard/ExpensePieChart.tsx:10 | an entry of another type adds nothing to a total |
| Ledger.SumPermutation | Frontend/src/components/Dashboard/BalanceSummary.tsx:10 | the fold does not depend on the order of the entries |
| Ledger.OfKindCount | Frontend/src/components/Dashboard/BalanceSummary.tsx:9 | the filter keeps every copy of an entry of that type and none of any other |
| Ledger.OfKindPermutation | Frontend/src/components/Dashboard/BalanceSummary.tsx:9 | reordering the input reorders the filtered list |
| Ledger.TotalOfPermutation | Frontend/src/components/Dashboard/BalanceSummary.tsx:8-14 | reordering the entries leaves every total unchanged |
| BalanceSummary.TotalIncome | Frontend/src/components/Dashboard/BalanceSummary.tsx:8-10 | the income total (no contract of its own; `EmptyTotals` and `NetBalanceAppend` characterise it) |
| BalanceSummary.TotalExpenses | Frontend/src/components/Dashboard/BalanceSummary.tsx:12-14 | the expense total (no contract of its own; `EmptyTotals` and `NetBalanceAppend` characterise it) |
| BalanceSummary.NetBalance | Frontend/src/components/Dashboard/BalanceSummary.tsx:16 | income minus expenses (no contract of its own; `NetBalanceIsSignedSum` proves it equal to a signed fold) |
| BalanceSummary.NetBalanceIsSignedSum | Frontend/src/components/Dashboard/BalanceSummary.tsx:8-16 | income total minus expense total equals the running sum of signed amounts (income +, expense −, other types 0) |
| BalanceSummary.EmptyTotals | Frontend/src/components/Dashboard/BalanceSummary.tsx:10-16 | an empty list gives 0 for both totals and the balance |
| BalanceSummary.NetBalanceAppend | Frontend/src/components/Dashboard/BalanceSummary.tsx:8-16 | a new income raises the balance by its amount, a new expense lowers it, anything else leaves it |
| BalanceSummary.NetTone | Frontend/src/components/Dashboard/BalanceSummary.tsx:30 | the balance is styled success iff income is at least expenses |
| ExpensePieChart.PieData | src/components/Dashboard/ExpensePieChart.tsx:9-28 | exactly two slices, "Income" then "Expenses", whose values are the two totals |
| ExpensePieChart.CellColor | src/components/Dashboard/ExpensePieChart.tsx:30-50 | the cell at index i gets `COLORS[i % 2]` |
| ExpensePieChart.CellsMatchSlices | src/components/Dashboard/ExpensePieChart.tsx:17-50 | each cell's colour is the colour its slice names |
| ExpensePieChart.OtherKindNotCharted | src/components/Dashboard/ExpensePieChart.tsx:9-15 | a transaction of another type changes neither slice |
| TransactionHistory.SortedTransactions | src/components/Dashboard/TransactionHistory.tsx:18-20 | the rows are newest first and a permutation of the input, of the same length |
| TransactionHistory.SortKeepsTotals | src/components/Dashboard/TransactionHistory.tsx:18-20 | sorting for display changes no total |
| TransactionHistory.BadgeLabel | src/components/Dashboard/TransactionHistory.tsx:53 | "Income" iff the type is income, "Expense" otherwise |
| TransactionHistory.AmountTone | src/components/Dashboard/TransactionHistory.tsx:56-58 | the amount is styled success iff the type is income |

## Left out

- Sorting.SortNewestFirst: does not state that equal dates keep their input order. JavaScript's sort is stable, and MongoDB leaves the order of ties unspecified.
- TransactionHistory.SortedTransactions: also silent on the order of equal dates, for the same reason.
- The collection is a sequence of documents rather than a map from id to record, because listing needs an order. Fresh `_id`s (ObjectIds) are an input that a precondition requires to be new and non-empty.
- Store faults, bcrypt and `jwt.verify` are inputs or abstract functions. No hashing, signing or expiry arithmetic is modelled, and `jwt.sign` (used only by the login route) is not part of this model.
- A NaN amount in an update passes the service's `<= 0` check. The model then has the store refuse it with a cast error (INVALID_ID_FORMAT), as Mongoose's Number cast does.
- Floating point is not modelled: amounts and totals are exact reals, and infinities are not represented. `toLocaleString`, date formatting and the pie chart's percent label are absent.
- `toLowerCase` is modelled on ASCII letters only.
- `new Date(text)` of a payload claim is kept as the claim's text, not converted to a time value.
- Request bodies hold strings (and a JSON number for `amount`). A non-string `type` would make `toLowerCase` throw into the create route's catch block (status 500). That case and JSON `null` fields are not modelled.
- The route catch blocks (status 500) are not modelled: the services catch every store fault themselves, so those blocks only run on a throw the model does not represent.
- The `TRANSACTION_CREATION_FAILED` fallback is not modelled, because a failed service result always carries a code.
- A `next()` that throws is not modelled.
- Logging (`console.error` and `console.log` in the service catch blocks and routes) is not modelled: it does not affect any result or state.
- Concurrency is not modelled. Two signups racing past the pre-check appear only as a duplicate-key fault on save.
- Toast ids (`Date.now()` plus a random suffix) are parameters. The toast's auto-close timer and rendering are UI code outside the model.
- The signup and login routes, the server bootstrap, database connection, client-side network glue and UI pages are not part of this model.
- The users' `_id` and the response formatting (JSON bodies, cookies) are not modelled.
