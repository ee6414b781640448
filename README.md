# clarity — a verified model of the finance tracker's core

This project models the decision logic of the personal-finance tracker in Dafny. The model has two server parts and two client parts.

- **Server, user registry and authentication.**
  - The `users` table is a sequence of rows with unique usernames. `UserService` owns it.
  - `create` hashes the password with a salt and appends a row.
  - `findOneByUsername` is an exact-match lookup. It projects the row to its id, username and password hash.
  - `AuthService.signUp` checks that the username is free, then creates the user. A taken name gives a Conflict.
  - `AuthService.signIn` looks the user up, then compares the password with the stored hash, then signs a token over `{userId, username}`. An unknown user and a wrong password give the same Unauthorized error.
  - bcrypt is a pair of functions the model knows one fact about: a password matches its own hash. The JWT signer is a function of the payload and the time of issue.
- **Server, create-transaction validation.** Each class-validator decorator on `CreateTransactionDto` is a predicate on the parsed JSON value. They are combined per property and over the whole body.
  - `amount` is an exact rational. "At most two decimals" means "a whole number of cents".
- **Client, transaction list.**
  - The case-insensitive icon lookup with its default.
  - The category/type filter.
  - The optimistic edit: records with the edited id are replaced in place.
  - The optimistic delete: records with that id are filtered out.
  - The page state (`TransactionsPage`) with its handlers.
- **Client, add-transaction wizard.**
  - The three-step machine (`AddPage`) over `currentStep`, `formData` and `isSubmitting`.
  - The Next buttons are gated by `canProceedStep1` and `canProceedStep2`. The type buttons clear the category.
  - `getCategoryInfo` and `currentCategories`.
  - The submit, split at its `await`: a successful submit resets the form and returns to step 1. A failed submit keeps the form and the step.

JavaScript semantics are modelled where the code depends on them:

- `Number` is a finite value or `NaN`. `JSON.stringify` sends `NaN` as `null`.
- `toLowerCase` is modelled on ASCII letters only.
- `trim` strips the ECMAScript white-space and line-terminator characters.
- validator.js `maxLength` does not count the variation selectors U+FE0E and U+FE0F.
- `parseFloat` and `toString` are parameters (`NumberText`). Nothing is assumed of them in general. A proof that needs a number's text to parse back to it requires this for that one number.

Files:

| file | module | what it holds |
|---|---|---|
| js_values.dfy | JsValues | `Option`, `Result`, `Number`, JSON values, `Array.prototype.filter`/`find`, `toLowerCase`, `trim` |
| users.dfy | Users | the `users` table, `findOneByUsername`, `UserService` |
| auth.dfy | Auth | `AuthService` with `SignUp` and `SignIn`, and the sign-up/sign-in round trip |
| transaction_dto.dfy | TransactionDto | the decorators and `Validate` |
| transactions_page.dfy | TransactionList | the icon lookup, the filter, the edit and delete updates, `TransactionsPage` |
| add_page.dfy | AddWizard | the category lists, the gates, the payload, `AddPage` |

Facts about the code that the model keeps:

- `signUp` returns the saved entity as `create` returns it, and that entity includes the password hash.
- `signIn` does not consult `isActive`.
- The transaction service's list, update and delete are placeholders, so there are no ownership or soft-delete rules to model.

## Model

| member | source | states |
|---|---|---|
| Users.Select | server/src/auth/user/user.service.ts:33 | the lookup's projection carries exactly the id, username and password hash of the row (no name) |
| Users.FindOneByUsername | server/src/auth/user/user.service.ts:30-36 | the result is null exactly when no row has that username; otherwise it is the projection of a row whose username equals the argument exactly |
| Users.FindOneByUsernameExact | server/src/auth/entities/user.entity.ts:19-20 | with usernames unique, looking up a row's username yields that very row |
| Users.FindAfterAppend | server/src/auth/user/user.service.ts:21-36 | after a row with a fresh username is saved, looking it up finds the new row, and every other lookup answers as before |
| Users.UserService.Create | server/src/auth/user/user.service.ts:13-28 | a new active row with `name := fullname`, the username unchanged, `hash(password, salt)` in place of the password and a fresh id is appended and returned; other rows stay; a taken username is refused by the unique constraint with the table unchanged; unique usernames and ids are kept |
| Auth.AuthService.SignUp | server/src/auth/auth.service.ts:17-25 | a taken username gives Conflict "User already exists with given username." and inserts nothing; a fresh one appends exactly the created row and returns it, other rows unchanged |
| Auth.AuthService.SignIn | server/src/auth/auth.service.ts:27-47 | an unknown username and a wrong password both give Unauthorized "Invalid credentials"; a matching password gives a token signed over exactly the stored user's id and username; the table is not modified |
| Auth.SignUpThenSignIn | server/src/auth/auth.service.ts:17-43 | given that a password matches its own salted hash, signing up with a fresh username and then signing in with the same password succeeds with a token for the new user's id |
| TransactionDto.TitleValid | server/src/transactions/dto/create-transaction.dto.ts:13-16 | the title is valid iff it is a non-empty string of length at most 255 |
| TransactionDto.TypeValid | server/src/transactions/dto/create-transaction.dto.ts:18-20 | the type is valid iff it is exactly "expense" or "income" |
| TransactionDto.AmountValid | server/src/transactions/dto/create-transaction.dto.ts:22-25 | the amount is valid iff it is a number equal to a whole, positive number of cents (positive, at most two decimals) |
| TransactionDto.WholeCents | server/src/transactions/dto/create-transaction.dto.ts:23-24 | a positive amount with at most two decimals is a whole number of cents, at least one |
| TransactionDto.CentsHaveTwoDecimals | server/src/transactions/dto/create-transaction.dto.ts:23-24 | every positive whole number of cents is a positive amount with at most two decimals |
| TransactionDto.CategoryValid | server/src/transactions/dto/create-transaction.dto.ts:27-30 | the category is valid iff it is a non-empty string of length at most 100 |
| TransactionDto.DescValid | server/src/transactions/dto/create-transaction.dto.ts:32-35 | the description is valid iff it is absent, null, or a string of length at most 1000 |
| TransactionDto.Validate | server/src/transactions/dto/create-transaction.dto.ts:12-36 | no errors iff all five properties are valid; each property is reported iff its own constraints fail |
| TransactionDto.LengthOfPlainText | server/src/transactions/dto/create-transaction.dto.ts:15 | for text without variation selectors the measured length is the number of characters |
| TransactionDto.LunchIsValid | server/src/transactions/dto/create-transaction.dto.ts:12-36 | a 12.50 "lunch" expense in "food" with no description passes |
| TransactionDto.EveryFieldCanFail | server/src/transactions/dto/create-transaction.dto.ts:12-36 | an empty title, a capitalised type, a tenth of a cent and a numeric description are each reported, in declaration order |
| TransactionList.CategoryIconAsWritten | client/src/pages/Transactions.tsx:48-50 | the lookup as written: an inherited object member exactly for the keys "constructor" and "__proto__"; otherwise a table icon (the table's own for a key it holds) or the default |
| TransactionList.ConstructorCategoryHasNoIcon | client/src/pages/Transactions.tsx:48-50 | the lookup as written returns an inherited object member, not the default icon, for "Constructor" and "__proto__" |
| TransactionList.CategoryIcon | client/src/pages/Transactions.tsx:28-50 | the corrected lookup, which differs from the code on "constructor" and "__proto__": the icon is the table's icon for the lower-cased category when that key is in the table, "📦" otherwise; it is always the default or a table icon |
| TransactionList.CategoryIconIgnoresCase | client/src/pages/Transactions.tsx:49 | a category and its lower-cased form get the same icon |
| TransactionList.CategoryIconAgrees | client/src/pages/Transactions.tsx:48-50 | the intended lookup and the written one agree on every category that does not name an inherited member |
| TransactionList.FilterTransactions | client/src/pages/Transactions.tsx:109-115 | the filtered list is no longer than the list and holds exactly the records that pass both the category and the type test |
| TransactionList.FilterTransactionsKeepsOrder | client/src/pages/Transactions.tsx:109-115 | filtering distributes over concatenation, so the shown records keep their relative order |
| TransactionList.FilterAllShowsEverything | client/src/pages/Transactions.tsx:109-115 | with both filters at "all" the filtered list is the full list in the same order |
| TransactionList.TypeFilterIsExact | client/src/pages/Transactions.tsx:110-113 | the type filter is case-sensitive ("Expense" hides an "expense" record), while a record always matches its own category in either case |
| TransactionList.FilterIgnoresCategoryCase | client/src/pages/Transactions.tsx:110-112 | a category filter and its lower-cased form show the same list, unless the filter is a casing of "all" |
| TransactionList.Edited | client/src/pages/Transactions.tsx:137-147 | an edited record keeps its id and date, takes the form's title and type and the parsed amount, and its category is empty only when both the form's and the old one are |
| TransactionList.ApplyEdit | client/src/pages/Transactions.tsx:136-149 | same length; every record whose id differs is unchanged at its position; every matching record is replaced by its edited form (`Edited`), so it keeps its id and date, takes the form's title, type and parsed amount, and gets the category and icon `EditedCategoryAndIcon` describes |
| TransactionList.EditedCategoryAndIcon | client/src/pages/Transactions.tsx:134-145 | the edited category is the matching option's label, else the form's text, else the old category; the icon is the option's icon, else the old icon |
| TransactionList.SaveUnchangedKeepsFields | client/src/pages/Transactions.tsx:118-145 | opening the editor and saving without changes keeps the id, date, title and type, and keeps the amount whenever the amount's text parses back to it |
| TransactionList.EditToFoodStoresLabel | client/src/pages/Transactions.tsx:134-142 | choosing "food" stores the label "Food & Dining" as the category, which the "food" filter then hides and which gets the default icon |
| TransactionList.RemoveById | client/src/pages/Transactions.tsx:171 | a record stays iff it was in the list and its id differs; with no record of that id the list is unchanged |
| TransactionList.RemoveByIdKeepsOrder | client/src/pages/Transactions.tsx:171 | deleting distributes over concatenation, so the remaining records keep their order |
| TransactionList.RemoveAfterEdit | client/src/pages/Transactions.tsx:136-171 | editing a record and then deleting it leaves the same list as deleting it straight away |
| TransactionList.TransactionsPage.constructor | client/src/pages/Transactions.tsx:63-82 | the initial state: empty list, loading, both filters "all", modal closed, empty form with type "expense", no pending deletion |
| TransactionList.TransactionsPage.FetchFinished | client/src/pages/Transactions.tsx:84-98 | a successful fetch replaces the list, a failed one keeps it; loading ends either way; nothing else changes |
| TransactionList.TransactionsPage.SetFilters | client/src/pages/Transactions.tsx:218-240 | the two selects set the category and type filters |
| TransactionList.TransactionsPage.ClearFilters | client/src/pages/Transactions.tsx:250-254 | both filters return to "all" and the rendered list is then the whole list |
| TransactionList.TransactionsPage.HandleEdit | client/src/pages/Transactions.tsx:118-127 | remembers the transaction, copies title and type into the form, lower-cases the category, renders the amount as text, opens the modal |
| TransactionList.TransactionsPage.SetEditForm | client/src/pages/Transactions.tsx:366-436 | the modal's inputs replace the form |
| TransactionList.TransactionsPage.CloseEditModal | client/src/pages/Transactions.tsx:449 | the cancel button closes the modal |
| TransactionList.TransactionsPage.HandleSaveEdit | client/src/pages/Transactions.tsx:130-167 | with no transaction being edited nothing happens; otherwise the list becomes the optimistic edit, the PATCH carries the form's text with the category value, the toast reports the PATCH's outcome, the local edit is kept even when the PATCH fails, and the modal closes |
| TransactionList.TransactionsPage.AskDelete | client/src/pages/Transactions.tsx:322 | the delete button asks to confirm that id |
| TransactionList.TransactionsPage.CancelDelete | client/src/pages/Transactions.tsx:494 | cancelling clears the pending confirmation |
| TransactionList.TransactionsPage.HandleDelete | client/src/pages/Transactions.tsx:170-180 | every record with that id is removed, the rest stay in order, the confirmation is cleared, and the DELETE's outcome only picks the toast |
| JsValues.TrimEmptyIffBlank | client/src/pages/Add.tsx:109 | a title trims to "" exactly when it consists of white space only |
| AddWizard.CurrentCategories | client/src/pages/Add.tsx:104-106 | the expense list when the type is "expense", the income list otherwise |
| AddWizard.GetCategoryInfo | client/src/pages/Add.tsx:97-102 | the option with that value; none iff neither list offers it; a value the expense list offers is answered from the expense list |
| AddWizard.CanProceedStep1 | client/src/pages/Add.tsx:108-111 | step 1 may be left iff the title is not blank, the amount text is not empty and it parses to a number above zero |
| AddWizard.CanProceedStep2 | client/src/pages/Add.tsx:112 | every category the list offers opens the step-2 gate |
| AddWizard.Step2GateIsOffered | client/src/pages/Add.tsx:112 | while the category is unset or offered, the step-2 gate opens exactly on an offered category |
| AddWizard.OfferedCategoryFits | client/src/pages/Add.tsx:7-27 | every category the wizard offers is a non-empty value within the server's 100-character limit |
| AddWizard.PayloadCarriesForm | client/src/pages/Add.tsx:58-64 | the POST body carries the title, type, category and description (as `desc`) as text and the parsed amount as a number, `null` when it is NaN; the date is never sent |
| AddWizard.SubmittedFormValidation | client/src/pages/Add.tsx:58-64 | a form that passed both gates is accepted by the server's validation iff its title and description are within their limits and its amount is a whole number of cents |
| AddWizard.AddPage.constructor | client/src/pages/Add.tsx:30-39 | the wizard starts at step 1, not submitting, with the empty expense form dated today |
| AddWizard.AddPage.HandleNext | client/src/pages/Add.tsx:41-45 | one step forward below step 3, nothing at step 3 |
| AddWizard.AddPage.HandleBack | client/src/pages/Add.tsx:47-51 | one step back above step 1, nothing at step 1 |
| AddWizard.AddPage.ClickNext | client/src/pages/Add.tsx:241-243 | Next moves one step exactly when its gate holds; the step stays in 1..3 and a later step is only reached with the earlier gates satisfied |
| AddWizard.AddPage.ClickBack | client/src/pages/Add.tsx:284-289 | Back moves one step on step 2, and on step 3 unless a submit is in flight |
| AddWizard.AddPage.ChooseType | client/src/pages/Add.tsx:153-174 | choosing expense or income sets the type, clears the category and leaves every other field unchanged |
| AddWizard.AddPage.EditStep1 | client/src/pages/Add.tsx:191-235 | the step-1 inputs change only title, amount and date |
| AddWizard.AddPage.SelectCategory | client/src/pages/Add.tsx:260-266 | a category button stores that option's value, which is one of the offered categories |
| AddWizard.AddPage.EditDescription | client/src/pages/Add.tsx:308-312 | the step-3 input changes only the description |
| AddWizard.AddPage.BeginSubmit | client/src/pages/Add.tsx:53-64 | submitting posts title, parsed amount, type, category and the description as `desc`, and no date; no second post is made while one is in flight |
| AddWizard.AddPage.FinishSubmit | client/src/pages/Add.tsx:65-86 | success resets the form to its defaults and the step to 1; failure clears the submitting flag and leaves form and step untouched |

## Left out

- Users.FindOneByUsername: the username is always a string. The sign-in and sign-up bodies are not validated (server/src/auth/auth.controller.ts:9-20), so a missing username reaches the lookup as `undefined`. The repository then drops that condition and returns some row. This is not modelled.
- Auth.AuthService.SignUp: name, username and password are always strings. With a missing username the lookup finds any row, so sign-up answers Conflict whenever the table is not empty. A missing password makes bcrypt's hash fail with an error. Neither is modelled.
- Auth.AuthService.SignIn: username and password are always strings. With a missing username the password is compared against some row's hash. A missing password makes bcrypt's compare fail with an error rather than answer Unauthorized. Neither is modelled.
- bcrypt's salt generation, hashing and comparison are abstract functions. The only fact assumed is that a password matches its own salted hash. Constant-time comparison is not modelled.
- JWT signing is an abstract function of the payload and the time of issue. Verification, the secret and the two-day expiry in server/src/auth/auth.module.ts are not modelled.
- The database's uuid generation is a counter (`nextId`). The created/updated timestamps are not modelled.
- The TypeORM repositories, the Postgres configuration and the ValidationPipe wiring are not modelled. Requests are treated one at a time.
  - So the check-then-create race in `signUp` is not modelled. The unique constraint that settles it is modelled as `Create`'s failure case.
- `signUp` reaching `create` with a taken username cannot happen one request at a time. `SignUp` therefore has no error path for it.
- server/src/transactions/transactions.service.ts and its controller are not part of this model. `create` is a single save, and the other operations are placeholders.
- Floating point is not modelled. Amounts are exact rationals, and `parseFloat`/`toString` are uninterpreted parameters.
  - The decimal-place count that class-validator takes from a float's text (for example exponent notation) is replaced by exact arithmetic.
  - The column's `decimal(10,2)` range is not checked.
- `toLowerCase` is modelled on ASCII letters only; `trim` uses the ECMAScript white-space set. Dafny strings cannot hold lone surrogates, so text with unpaired UTF-16 surrogates is not modelled.
- React rendering, stale closures and the interleaving of asynchronous handlers are not modelled.
  - Each handler runs to completion, except the add wizard's submit, which is split at its request.
  - The transactions page's `isUpdating` flag is set and cleared within one `HandleSaveEdit`.
- The client plumbing is not part of this model: local storage, token decoding, the axios wrappers and the protected routes.
  - ProtectedRoutes removes the key "access_token" while the token is stored under "accessToken".
- Presentation is not part of this model: JSX markup, currency and date formatting, Nav, Dashboard, the SignUp page and routing.

## Findings

| source | as written | input that shows it | evidently intended | confidence | as-written member | corrected member |
|---|---|---|---|---|---|---|
| client/src/pages/Transactions.tsx:48-50 | the icon table is a plain object literal indexed by the lower-cased category, so keys inherited from Object.prototype are found and the default is not used | a transaction whose category is "Constructor" (or "__proto__") | the table's icon for its own keys and "📦" for every other category | not executed; follows from JavaScript property lookup on object literals | TransactionList.CategoryIconAsWritten, TransactionList.ConstructorCategoryHasNoIcon | TransactionList.CategoryIcon |
