# Banking system: a verified model of the ledger and the client-side checks

This project models a small banking application in Dafny. There are two sides to it.

**The server.** The Express server holds three MySQL tables: users, accounts and transactions. Its routes do the following:
- register a customer together with an account, and an opening deposit when the initial amount is positive;
- log a user in by email, password and role;
- check a bearer token;
- report a customer's balance and transactions, newest first;
- make a deposit or a withdrawal;
- let a banker list customers, view one customer and view that customer's transactions.

**The browser.** Four React components each make a decision before anything is sent:
- the amount check of the deposit/withdraw dialog;
- the registration form's field checks;
- the banker's customer search filter;
- the route guard that sends signed-out or wrong-role users to a login page.

## Files

- `wrappers.dfy`: the `Option` and `Result` datatypes.
- `text.dfy`: the JavaScript string operations the client relies on:
  - `trim`, with ECMAScript's white-space set;
  - `toLowerCase`, for ASCII letters;
  - `includes`.
- `ledger.dfy`: `server/index.js`.
  - Row types and the read-only queries are pure functions.
  - The store is a class `Bank` whose table fields are sequences. The three state-changing routes are methods proved against their specification, and each keeps the store invariant `Valid()`.
  - A mutating route runs inside one SQL transaction that commits every write or rolls all of them back. It is therefore modelled as one method that either makes all of its changes or leaves the object unchanged (`unchanged(this)`).
- `transaction_modal.dfy`: `src/components/TransactionModal.tsx`.
- `customer_registration.dfy`: `src/pages/CustomerRegistration.tsx`.
  - `validateForm` builds its error record step by step, so it is a method: the checks run in the source's order and a message is assigned as each check fails.
- `banker_dashboard.dfy`: the search effect of `src/pages/BankerDashboard.tsx`.
- `protected_route.dfy`: `src/components/ProtectedRoute.tsx`.

## Representation choices

- Amounts are integers (cents).
- Row ids come from a counter. The source uses uuid v4, so the only property relied on is freshness.
- `created_at` is a counter that increases with every write, so entries of the log never tie.
- Parser results are inputs: `parseFloat` and `parseInt` of a field, and the year of `new Date(dob)`. `None` stands for `NaN`.
- The current year is an input.
- bcrypt and JWT are inputs:
  - `matches(password, hash)` decides a password comparison;
  - `verify(token)` yields the token's claims, or `None` for a token that does not verify.
- The store has one invariant that cannot be read off the tables alone. Registration writes the opening balance in every case but records an opening deposit only when `initialAmount > 0`. A ghost map `opening` therefore keeps each account's opening amount. The invariant says every balance equals the signed sum of its log entries plus the opening amount when that amount is negative (`Unrecorded`).

### Where the model follows the code rather than what its messages and client checks evidently intend

- `/customer/deposit` and `/customer/withdraw` accept zero and negative amounts. A negative deposit can make a balance negative; only the client dialog rejects such amounts.
- `/register` does not validate `initialAmount`. A negative amount produces a negative balance and no transaction.
- `admin@example.com` logs in with any password.
- The customer routes do not check the caller's role. Only the banker routes are gated.
- `/customer/transactions` for a user without an account returns an empty list, not an error.
- The date-of-birth check compares calendar years only. An unreadable date, which gives `NaN`, passes it.
- The registration form accepts an initial amount of zero, although its message asks for a "positive number".

## Model

| member | source | states |
|---|---|---|
| Ledger.RoleName | server/index.js:82 | the stored role names: "customer" names exactly the customer role and "banker" exactly the banker role |
| Ledger.Split | server/index.js:40 | `split(' ')` yields at least one piece, no piece holds a space, and joining the pieces with single spaces gives back the header |
| Ledger.SplitJoin | server/index.js:40 | splitting a space-joined list of space-free pieces returns exactly those pieces |
| Ledger.BearerToken | server/index.js:39-40 | no header gives no token; with a header, a token is present exactly when the header splits into more than one piece and the second piece is non-empty, and it is then that second piece (space-free, so the header contains a space) |
| Ledger.BearerRoundTrip | server/index.js:40 | the header `Bearer <token>` yields `<token>` back for any non-empty, space-free token |
| Ledger.Authenticate | server/index.js:38-53 | no token gives 401 "Authentication required"; a token that does not verify gives 403 "Invalid token"; otherwise the request carries the token's claims |
| Ledger.BankerGate | server/index.js:296-298 | a banker route refuses a caller exactly when the caller's role is not banker, with 403 "Access denied" |
| Ledger.FindAccount | server/index.js:210-219 | the first account row of the user, or none exactly when the user owns no account |
| Ledger.BalanceOf | server/index.js:168-183 | the balance is that of an account of the user; "Account not found" (400) exactly when the user has none |
| Ledger.TransactionsOf | server/index.js:185-195 | the listing holds exactly the log entries of the user's accounts: the join condition is `OwnedBy` |
| Ledger.TransactionsOfNewestFirst | server/index.js:187-193 | over a log in creation order, the listing is ordered by `created_at` descending |
| Ledger.CustomerSummaries | server/index.js:300-317 | the banker's list holds the summary of every customer-role user and of nothing else; `Summary` is the camelCase mapping of lines 307-315 |
| Ledger.CustomerSummariesDistinct | server/index.js:300-317 | with distinct user ids (which the store keeps), the list names each customer once: no two entries share an id |
| Ledger.FindLogin | server/index.js:117-126 | the first user row with that email and role (no earlier row has both), or none exactly when there is no such row |
| Ledger.Login | server/index.js:113-161 | every failure is 400 "Invalid credentials"; a success names a user with that email and role whose password matched (unless the email is the administrator's) and carries that user's claims and that user's id, names, email and role as the returned user; no such user means failure |
| Ledger.AdminSkipsPassword | server/index.js:128-134 | `admin@example.com` logs in with any password when a user with that email and role exists |
| Ledger.LoginNeedsPassword | server/index.js:117-134 | with unique emails, any other address logs in exactly when the password matches the stored hash |
| Ledger.CustomerDetailOf | server/index.js:329-342 | "Customer not found" (400) exactly when no customer-role user has the id; otherwise that customer's row, whose balance is NULL exactly when the customer has no account and is otherwise the balance of an account of the customer |
| Ledger.FindCustomer | server/index.js:330-340 | the first customer-role user with the id (no earlier row is a customer with that id), or none exactly when there is none |
| Ledger.SignedSumAppend | server/index.js:228-231 | appending one log entry changes only its own account's signed sum, by its signed amount |
| Ledger.SignedSumUnmentioned | server/index.js:92-98 | an account without log entries, such as a new one with no opening deposit, sums to zero |
| Ledger.Unrecorded | server/index.js:87-98 | the unrecorded part of an opening amount is never positive, and it is zero exactly when the amount is not negative |
| Ledger.SetBalance | server/index.js:223-226 | `UPDATE ... WHERE id = ?` sets the balance of every row with that id and leaves every other row as it was |
| Ledger.BalanceIsSignedSum | server/index.js:87-98 | in a consistent store, an account opened with a non-negative amount has a balance equal to the signed sum of its log |
| Ledger.StoreBalanceIsSignedSum | server/index.js:87-98 | the same for the `Bank` object: an account of a valid store whose recorded opening amount is non-negative has a balance equal to the signed sum of its log |
| Ledger.OpeningIsLogged | server/index.js:80-98 | registering with 100 into an empty store gives an account whose balance and logged sum are both 100 |
| Ledger.Bank.Register | server/index.js:56-111 | a taken email fails with "Email already registered" and changes nothing; otherwise one customer user and one account with balance `initialAmount` are added, the log gains an opening deposit if and only if `initialAmount > 0`, the new account's opening amount is recorded as `initialAmount`, and the invariant is kept; the `SELECT ... WHERE email = ?` check is `EmailTaken` |
| Ledger.Bank.Deposit | server/index.js:201-244 | no account: "Account not found" and nothing changes; otherwise only the caller's account moves by `amount`, exactly one deposit entry is appended, the new balance is returned, users and opening amounts are unchanged, and the invariant is kept |
| Ledger.Bank.Withdraw | server/index.js:246-292 | no account: "Account not found"; balance below amount: "Insufficient funds"; both change nothing; otherwise only the caller's account drops by `amount`, the new balance is non-negative, exactly one withdraw entry is appended, users and opening amounts are unchanged, and the invariant is kept |
| Ledger.Bank.Apply | server/index.js:223-231 | the commit of a deposit or withdrawal: one account row moves by the signed amount of the one entry appended, opening amounts are unchanged, and the invariant is kept |
| Ledger.Bank.CustomerBalance | server/index.js:168-183 | a success is the balance of an account of the caller; "Account not found" exactly when the caller has no account |
| Ledger.Bank.CustomerTransactions | server/index.js:185-199 | the caller's listing holds exactly the log entries of the caller's accounts |
| Ledger.Bank.BankerCustomers | server/index.js:295-322 | a non-banker caller gets 403 "Access denied"; a banker always succeeds, with exactly the `CustomerSummaries` list: the summaries of the customer-role users, each customer once when user ids are distinct |
| Ledger.Bank.BankerCustomer | server/index.js:324-346 | a non-banker caller gets 403 "Access denied"; a banker gets exactly the customer detail that `CustomerDetailOf` specifies |
| Ledger.Bank.BankerCustomerTransactions | server/index.js:348-366 | a non-banker caller gets 403 "Access denied"; a banker gets the customer's listing |
| Ledger.ListingIsNewestFirst | server/index.js:354-360 | in a store that keeps its invariant, the customer's and the banker's transaction listings are newest first |
| Ledger.RegisterKeepsInvariant | server/index.js:80-98 | the rows registration writes keep user, account and transaction ids fresh and pairwise distinct, emails unique, one account per user, the log chronological, and balances consistent with the log |
| Ledger.RegisterKeepsUsers | server/index.js:80-83 | the new user keeps user ids distinct and emails unique |
| Ledger.RegisterKeepsAccounts | server/index.js:86-90 | the new account keeps account ids distinct and one account per user |
| Ledger.RegisterKeepsLog | server/index.js:93-97 | the opening deposit, if any, refers to an existing account, has an id distinct from every earlier entry's, and is the newest entry |
| Ledger.RegisterKeepsConsistency | server/index.js:87-98 | after registration every balance still equals its log sum plus the unrecorded opening amount |
| Ledger.ApplyKeepsInvariant | server/index.js:221-231 | moving one balance by the signed amount of one appended entry keeps every table invariant |
| Text.Trim | src/pages/CustomerRegistration.tsx:57 | `trim()` yields a string no longer than its input that neither starts nor ends with white space |
| Text.TrimRemovesBlankEnds | src/pages/CustomerRegistration.tsx:57 | `trim()` yields the input with exactly a blank prefix and a blank suffix removed |
| Text.TrimEmptyIffBlank | src/pages/BankerDashboard.tsx:42 | `s.trim() === ''` holds exactly when every character of `s` is white space |
| Text.LowerChar | src/pages/BankerDashboard.tsx:47 | only 'A'..'Z' change, each to its lower-case letter |
| Text.ToLower | src/pages/BankerDashboard.tsx:47 | `toLowerCase()` keeps the length and lowercases position by position |
| Text.ToLowerIdempotent | src/pages/BankerDashboard.tsx:47-51 | lowercasing twice is lowercasing once |
| Text.LowerKeepsBlank | src/pages/BankerDashboard.tsx:42-47 | lowercasing keeps a string blank or non-blank |
| Text.Contains | src/pages/BankerDashboard.tsx:49-51 | `includes` holds exactly when the needle occurs at some position |
| TransactionModal.ValidateTransaction | src/components/TransactionModal.tsx:28-46 | an empty or non-numeric amount, then an amount of zero or less, then a withdrawal above the balance, are refused with their messages in that order; acceptance holds exactly when the amount is positive and, for a withdrawal, at most the balance |
| TransactionModal.DepositHasNoUpperBound | src/components/TransactionModal.tsx:40-43 | any positive deposit is accepted whatever the balance |
| TransactionModal.Submit | src/components/TransactionModal.tsx:48-59 | a failed check shows its message and makes no call; a passed check marks the dialog busy and calls deposit for a deposit and withdrawal otherwise, with the checked amount |
| TransactionModal.ChangeAmount | src/components/TransactionModal.tsx:23-26 | editing the amount stores the new text and clears the error |
| TransactionModal.EditClearsStaleError | src/components/TransactionModal.tsx:23-59 | after an edit no earlier message remains, and the next submission depends on the new text alone |
| CustomerRegistration.Set | src/pages/CustomerRegistration.tsx:47 | the edited field takes the value and every other field is kept |
| CustomerRegistration.SetError | src/pages/CustomerRegistration.tsx:50 | the field's message is replaced and every other message is kept |
| CustomerRegistration.HandleChange | src/pages/CustomerRegistration.tsx:45-52 | a change updates only that field and clears only that field's (non-empty) error |
| CustomerRegistration.IndexOf | src/pages/CustomerRegistration.tsx:73 | the first position of the character, or none when it does not occur |
| CustomerRegistration.LastIndexOf | src/pages/CustomerRegistration.tsx:73 | the last position of the character, or none when it does not occur |
| CustomerRegistration.EmailCheckMatchesPattern | src/pages/CustomerRegistration.tsx:73 | `IsValidEmail`, the decision procedure for the regular expression, accepts exactly the strings that fit local@domain.TLD with the pattern's character classes, case-insensitive |
| CustomerRegistration.Utf16Length | src/pages/CustomerRegistration.tsx:77 | `length` counts UTF-16 code units: one per character plus one more for each character above U+FFFF |
| CustomerRegistration.ValidateForm | src/pages/CustomerRegistration.tsx:54-87 | each field ends with exactly the message its check gives, no general message is set, and the form is valid (`NoneRecorded`: no key in the record) exactly when it satisfies every field rule |
| CustomerRegistration.CheckPerson | src/pages/CustomerRegistration.tsx:57-70 | name, age and date-of-birth messages as the checks give them, nothing else recorded |
| CustomerRegistration.CheckCredentials | src/pages/CustomerRegistration.tsx:72-77 | e-mail and password messages as the checks give them, other messages kept |
| CustomerRegistration.CheckConfirmationAndAmount | src/pages/CustomerRegistration.tsx:79-83 | confirmation and initial-amount messages as the checks give them, other messages kept |
| CustomerRegistration.NoErrorIffAccepted | src/pages/CustomerRegistration.tsx:85-86 | no field has a message exactly when the form meets every rule |
| CustomerRegistration.EachFieldAccepted | src/pages/CustomerRegistration.tsx:57-83 | field by field, the absence of a message is the same as meeting that field's rule |
| CustomerRegistration.FieldErrorIffAccepted | src/pages/CustomerRegistration.tsx:57-83 | `FieldError`, the message each check gives: a field has no message exactly when it meets its rule: a non-blank name; a present age of at least 18; a present date of birth whose year, when readable, is at least 18 years back; an e-mail of the pattern; a password of at least 6 code units; a matching confirmation; a readable initial amount of at least zero |
| CustomerRegistration.PatternIsNotBlank | src/pages/CustomerRegistration.tsx:72-74 | an address of the e-mail pattern is never blank, so the "Email is required" branch never hides a valid address |
| CustomerRegistration.InitialFormIsRefused | src/pages/CustomerRegistration.tsx:33-42 | the form as first shown is refused, with "First name is required" for its blank first name |
| CustomerRegistration.BlankNameIsRequired | src/pages/CustomerRegistration.tsx:57 | a whitespace-only first name gets "First name is required" |
| CustomerRegistration.DobComparesYearsOnly | src/pages/CustomerRegistration.tsx:64-70 | a birth year exactly 18 years back passes the date-of-birth check |
| BankerDashboard.Keep | src/pages/BankerDashboard.tsx:48-52 | the filter keeps only matching customers, each matching customer as often as in the input |
| BankerDashboard.FilterCustomers | src/pages/BankerDashboard.tsx:41-55 | a blank term shows the full list unchanged; any other term keeps a customer exactly when the lowercased term occurs in its lowercased first name, last name or e-mail, and each kept customer as often as in the list |
| BankerDashboard.KeptPositions | src/pages/BankerDashboard.tsx:48 | the kept customers sit at increasing positions of the input |
| BankerDashboard.KeepIsSubsequence | src/pages/BankerDashboard.tsx:48 | the filter's result is an order-preserving sub-list of its input |
| BankerDashboard.FilterIsSubsequence | src/pages/BankerDashboard.tsx:41-55 | the shown list is always an order-preserving sub-list of the customers |
| BankerDashboard.FilterIgnoresCase | src/pages/BankerDashboard.tsx:47 | terms that differ only in letter case show the same list |
| BankerDashboard.LeadingSpaceIsMatched | src/pages/BankerDashboard.tsx:42-47 | a non-blank term is matched untrimmed: " ann" misses a customer that "ann" finds |
| ProtectedRoute.LoginPath | src/components/ProtectedRoute.tsx:14 | a login path is the role segment wrapped in "/" and "/login" |
| ProtectedRoute.LoginSegment | src/components/ProtectedRoute.tsx:14 | a segment read back out of a path is one whose login path is exactly that path |
| ProtectedRoute.LoginPathRoundTrip | src/components/ProtectedRoute.tsx:14-18 | the segment read back out of a login path is the one it was built from |
| ProtectedRoute.LoginPathInjective | src/components/ProtectedRoute.tsx:14-18 | different segments give different login paths |
| ProtectedRoute.RoleSegment | src/components/ProtectedRoute.tsx:18 | `user?.role` is the role's name, or "undefined" without a user |
| ProtectedRoute.Guard | src/components/ProtectedRoute.tsx:10-22 | signed out: redirect to the required role's login; signed in with another or no role: redirect to that role's login; the page renders exactly when signed in with the required role |
| ProtectedRoute.MismatchLeavesRequiredLogin | src/components/ProtectedRoute.tsx:17-19 | a user of the other role is sent to their own login page, not the one a signed-out visitor would get |
| ProtectedRoute.RedirectsGoToLogin | src/components/ProtectedRoute.tsx:13-19 | every redirect goes to the login page of "customer", "banker" or "undefined" |

## Left out

- Express, CORS, JSON parsing, the MySQL connection pool and `console.log`: plumbing and I/O. The tables are sequences in memory.
- Row locking (`FOR UPDATE`) and concurrent requests: the model is sequential, and each route is one atomic method.
- bcrypt and JWT: foreign libraries. They are the inputs `matches` and `verify`. Token expiry and the signing of the claims that `Login` returns are outside the model.
- uuid v4: ids come from a counter.
- MySQL's `DEFAULT CURRENT_TIMESTAMP`: a strictly increasing counter. Ties in `created_at`, and so their ordering, are not modelled.
- Floating point and JavaScript coercion: amounts are integer cents. The following are inputs or are not modelled:
  - `parseFloat` and `parseInt` of request fields;
  - the string-versus-number comparison in `/customer/withdraw`;
  - the DECIMAL column's rounding.
- Ledger.Bank.Register: does not model a `parseInt(age)` of NaN being stored. The age is an integer input.
- Ledger.Bank.Register: gives the stored amount and the amount tested for the opening deposit the same value. In server/index.js the account balance (line 89) and the deposit (line 96) store `parseFloat(initialAmount)`, but the test at line 93 coerces the raw body value with `Number`. A body such as `"5abc"` parses to 5 but is not greater than 0, so the source commits a balance of 5 with no opening deposit, and the balance then differs from the log's signed sum. Such inputs are outside the model.
- Ledger.Bank.Register, Ledger.Bank.Deposit, Ledger.Bank.Withdraw: a missing or non-numeric amount is not modelled. There `parseFloat` gives NaN, the write fails and the route rolls back with 400. The model's amounts are integers, so this failure path does not arise.
- Text.ToLower: ASCII letters only. Unicode case mapping is not modelled.
- Ledger.EmailTaken: compares e-mail addresses exactly. The MySQL schema and its collation are not part of this model; under MySQL's usual case-insensitive collation, `WHERE email = ?` would also find an address differing only in letter case or trailing spaces.
- Ledger.FindLogin: compares the e-mail and the role exactly (`AND role = ?` is matched against the stored role's name), for the same reason. Under a case-insensitive collation `ADMIN@example.com` would find the administrator's row, while the exact `!==` at server/index.js:129 would still demand that row's password; the model finds no row for it and fails with "Invalid credentials".
- CustomerRegistration.NoneRecorded: carries no contract of its own. What it decides is stated by `ValidateForm` (`valid` exactly when `Accepted`) and by `NoErrorIffAccepted`.
- BankerDashboard.Matches: carries no contract of its own. Its meaning is given by `Text.Contains`, and the filter it drives by `FilterCustomers`.
- `handleSubmit` of the registration page and of the transaction dialog after the request: navigation, `onSuccess`, and showing the server's error message depend on the network reply.
- The customer list's initial fetch and refresh in `BankerDashboard.tsx`, and the rest of its rendering.
- `src/services/api.ts`, `AuthContext` and the other pages: they are not part of this model.
