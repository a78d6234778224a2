# investi — a verified model of the account, ledger and form logic

investi is an investment-platform web application: an Express server over
MongoDB (`server/server.js`) and a React client. This project models its
sequential core in Dafny and proves what that core promises.

- **Server** (`auth.dfy`, `accounts.dfy`, `ledger.dfy`, `backend.dfy`):
  - the authentication middleware, with its 401 and 403 decisions;
  - login with the failed-attempt counter and the 15-minute lock;
  - registration, with its duplicate-email check and zeroed portfolio, and the Google sign-in that finds or creates a verified account;
  - e-mail verification, the forgot-password lookup and the mock 2FA check;
  - the portfolio ledger behind deposit, withdraw and invest, with the invariant `totalValue = availableCash + investedAmount`;
  - the ordered guard chain of invest;
  - the wallet and plan administration routes and the admin update of a user's status.

  The routes are methods of the class `Backend.Server`. Its fields are the collections: users by email, portfolios by user id, wallets by id, and plans as the stored array. Each method returns the route's status code.
- **Client** (`signup.dfy`, `admin_dashboard.dfy`, `user_dashboard.dfy`, `main_slider.dfy`, `faq.dfy`):
  - the sign-up form's change handler, ordered validation and submit control;
  - the admin user search and filter, the Suspend/Activate update and the settings update;
  - the user dashboard's wallet filter, unread badge, last-ten chart with its running total, and investment-form guards;
  - the carousel index;
  - the single-open FAQ accordion.
- **Shared** (`common.dfy`):
  - `Option`/`Result`;
  - the status codes;
  - `Filter`, the model of `Array.prototype.filter`, with lemmas for membership, order (subsequence), concatenation and single matches.

Amounts are integers, for example cents. Times are milliseconds since the epoch, passed in as `now`. A transaction's date is its UTC day number.

Three foreign calls become fixed functions supplied to the `Server` constructor:
- `bcrypt.compare` becomes `compare`;
- `bcrypt.hash` becomes `hash`;
- `jwt.verify` becomes `verify`, which yields the claims or fails.

`new ObjectId()` is replaced by the counter `nextId`.

`Backend.Server.Valid()` is kept by every mutating route. It says:
- every user is stored under its own email;
- every id was issued by the counter, and no two users share an id (`DistinctIds`);
- every portfolio is keyed by its owner and satisfies `Ledger.Consistent`. That predicate requires that value equals cash plus invested, that both agree with the transaction history, and that transaction ids run 1, 2, 3, …

## Model

| member | source | states |
|---|---|---|
| Auth.ExtractToken | server/server.js:92-93 | a non-empty cookie is the token; otherwise the token is the second space-separated field of the Authorization header; an empty result counts as no token |
| Auth.SecondField | server/server.js:93 | splitting on spaces gives a second field exactly when the header holds a space; that field is the text after the first space, up to the next space or the end of the header |
| Auth.BearerHeader | server/server.js:93 | the header "scheme token", followed by nothing or by further space-separated fields, yields exactly the token |
| Auth.Authenticate | server/server.js:91-106 | 401 exactly when no token is found; 403 exactly when the verifier rejects the token; otherwise success with the verifier's claims |
| Auth.RequireAdmin | server/server.js:109-114 | succeeds exactly for role 'admin'; any other role gets 403 |
| Auth.AuthorizeAdmin | server/server.js:91-114 | an admin route passes exactly for an authenticated admin; the authentication failure (401 or 403) wins; an authenticated non-admin gets 403 |
| Auth.NoCredentialsIsUnauthorized | server/server.js:95-97 | a request with neither cookie nor header gets 401 on user and admin routes, whatever the verifier says |
| Auth.CookieTakesPrecedence | server/server.js:93 | with a non-empty cookie, the Authorization header has no influence on the outcome |
| Auth.BearerAuthenticates | server/server.js:92-105 | without a cookie, a "Bearer token" header authenticates exactly as the token does |
| Accounts.MinutesUntil | server/server.js:155-156 | the reported wait is at least one minute and is the remaining lock time rounded up to whole minutes |
| Accounts.SessionMaxAge | server/server.js:186-197 | the cookie lives 2592000000 ms (30 days) with remember-me and 86400000 ms (one day) without |
| Accounts.NewUser | server/server.js:226-236 | the inserted document carries the submitted fields and the hash, has role 'user', is unverified, has no 2FA and is never locked |
| Accounts.GoogleUser | server/server.js:47-56 | the document created for an unknown Google e-mail has no password, role 'user', is already verified, has no 2FA and is never locked |
| Accounts.LoginSpec | server/server.js:153-197 | a session exactly when the account is unlocked, the password matches and the e-mail is verified, with the user's id, email and role and the counter and lock cleared; 403 exactly when the account is locked or this failure is the fifth; only the counter and the lock of the document change |
| Accounts.LockedAccountRefused | server/server.js:154-157 | a locked account gets 403 with the rounded-up minutes, does not depend on the password, and the document is unchanged |
| Accounts.WrongPassword | server/server.js:159-177 | a wrong password stores the count plus one; reaching five locks the account for 15 minutes with 403, otherwise 401 with the lock untouched; nothing else changes |
| Accounts.RightPassword | server/server.js:179-197 | a verified user gets a session with its id, email and role, and the counter and lock are cleared; an unverified user gets 401 and keeps its counter |
| Accounts.FailuresBelowLimit | server/server.js:159-177 | fewer than five failures on an unlocked account all answer 401 and only raise the counter |
| Accounts.FifthFailureLocks | server/server.js:159-177 | from a fresh account, five wrong passwords answer 401, 401, 401, 401, 403; the account ends with counter 5 and locked until 15 minutes after the fifth attempt |
| Accounts.FailedRunSplit | server/server.js:159-177 | a run of failures can be split at any point: its effect and responses compose |
| Accounts.LockHoldsFifteenMinutes | server/server.js:154-157 | during the 15 minutes after a lock, any attempt, right password or not, gets 403 with a wait of 1 to 15 minutes and changes nothing |
| Accounts.RelockAfterExpiry | server/server.js:159-184 | only a success clears the counter, so after the lock expires the next wrong password locks again at once |
| Accounts.NewUserMustVerify | server/server.js:179-181 | a newly registered user with the right password is refused as unverified, and the document is unchanged |
| Accounts.GoogleUserSignsInAtOnce | server/server.js:53 | an account created through Google has no verification step: once a credential check passes, a session follows at once |
| Ledger.ZeroPortfolio | server/server.js:241-248 | the portfolio created at registration satisfies the ledger invariant |
| Ledger.NextTransaction | server/server.js:325-333 | a new transaction is numbered one past the current count, with quantity 1 |
| Ledger.FlowsAppend | server/server.js:335 | pushing one transaction moves each ledger sum by that transaction alone |
| Ledger.Deposited | server/server.js:324-336 | cash and value rise by the amount; the invested amount is untouched; exactly one Deposit with id old length + 1 and total +A is appended; the invariant is kept |
| Ledger.Withdrawn | server/server.js:346-359 | cash and value fall by the amount; the invested amount is untouched; exactly one Withdraw with id old length + 1 and total −A is appended; the invariant is kept |
| Ledger.Invested | server/server.js:545-560 | the invested amount and value rise by the amount; cash is untouched; exactly one Investment named after the plan is appended; the invariant is kept |
| Ledger.ValueIsSumOfTotals | server/server.js:320-364 | in a consistent portfolio the value is the sum of all transaction totals |
| Ledger.FlowsSplit | server/server.js:320-364 | the sum of all totals is the cash flow plus the invested flow |
| Ledger.ReplayKeepsLedger | server/server.js:320-364 | any history of deposits, withdrawals and investments keeps the invariant and appends one transaction per accepted request |
| Ledger.FromZero | server/server.js:241-248 | from the zeroed portfolio, after any history, value = cash + invested = the sum of all totals, and ids run 1..n |
| Backend.FindPlan | server/server.js:508 | the first plan with that id (no earlier plan has it), or none exactly when no plan has it; whether the plan is active is not consulted |
| Backend.FindActiveWallet | server/server.js:509 | a wallet is found exactly when one with that id exists and is active |
| Backend.ActivePlans | server/server.js:501-504 | the active plans, exactly, in stored order, each as many times as it is stored |
| Backend.RefusalStatus | server/server.js:511-525 | a missing plan or a missing or inactive wallet answers 404; amounts outside the limits or above the balance answer 400 |
| Backend.InvestCheck | server/server.js:511-525 | the guards run in order and the first failure decides: plan missing, then wallet missing or inactive, then amount outside the inclusive limits, then balance below the amount; the request passes exactly when all four hold |
| Backend.NewInvestment | server/server.js:531-542 | the record is active, for the plan and the amount, and runs for the plan's duration in days |
| Backend.Server.Login | server/server.js:144-213 | an unknown email gets 401 and no change; otherwise the response and the stored user are those of Accounts.LoginSpec, nothing else changes, and Valid is kept |
| Backend.Server.Register | server/server.js:215-254 | an existing email gets 400 and nothing is inserted; otherwise 201, exactly one new unverified user with role 'user' and exactly one zeroed portfolio under a fresh id |
| Backend.Server.GoogleSignIn | server/server.js:40-74 | a known e-mail signs in as its stored user with nothing changed; an unknown one gets exactly one new verified Google user and one zeroed portfolio under a fresh id; either way the callback (lines 122-141) issues that user's id, email and role for one day |
| Backend.Server.VerifyEmail | server/server.js:256-269 | a known email becomes verified with 200; an unknown one gets 404 and no change |
| Backend.Server.ForgotPassword | server/server.js:276-289 | 200 exactly when the e-mail belongs to a user, 404 otherwise; nothing changes |
| Backend.Server.Verify2FA | server/server.js:291-299 | after authentication, 200 exactly for the code 123456 and 401 otherwise |
| Backend.Server.GetPortfolio | server/server.js:302-309 | the caller's portfolio with 200, or 404 when there is none |
| Backend.Server.GetTransactions | server/server.js:311-318 | the caller's transactions, or the empty list, always with 200 once authenticated |
| Backend.Server.Deposit | server/server.js:320-341 | 404 and no change without a portfolio; otherwise the portfolio becomes Ledger.Deposited of it, the response shows the document as read, and the invariant is kept |
| Backend.Server.Withdraw | server/server.js:343-364 | 400 and no change when there is no portfolio or too little cash; otherwise the portfolio becomes Ledger.Withdrawn of it, the response shows what findOneAndUpdate returns by default (the document before the update), and the invariant is kept |
| Backend.Server.Invest | server/server.js:506-567 | a refusal from the guard chain changes nothing and answers 404 for a missing plan or a missing or inactive wallet, 400 for an amount outside the limits or above the balance; on success the wallet balance drops by the amount, the portfolio (if any) becomes Ledger.Invested of it, and remainingBalance is balance − amount |
| Backend.Server.UpdateUserStatus | server/server.js:384-399 | admins only; the one user with that id gets the new status and is returned with it; 404 and no change when no user has the id; nothing else changes |
| Backend.Server.AddWallet | server/server.js:423-435 | admins only; appends one active wallet with balance 0 under a fresh id; the currency defaults to BTC |
| Backend.Server.DeleteWallet | server/server.js:456-464 | admins only; removes the wallet with that id; 200 exactly when one was there, 404 otherwise |
| Backend.Server.UpdateWallet | server/server.js:437-454 | an authorised request always gets 404 because the lookup is null |
| Backend.Server.AddPlan | server/server.js:472-486 | admins only; appends one active plan under a fresh id |
| Backend.Server.UpdatePlan | server/server.js:488-498 | an authorised request always gets 404 because the lookup is null |
| Backend.Server.UserPlans | server/server.js:501-504 | any authenticated user gets exactly the active plans, in order, each as many times as it is stored |
| Signup.HandleChange | Client/src/components/home/signup.jsx:29-35 | only the named field changes; a checkbox stores its checked state and any other input its text |
| Signup.ChangeKeepsShape | Client/src/components/home/signup.jsx:29-35 | events from the rendered inputs keep text fields textual and checkbox fields boolean |
| Signup.ValidateForm | Client/src/components/home/signup.jsx:37-51 | valid exactly when the passwords match, have at least 8 characters and the terms are accepted; otherwise only the first failing check's message is given, in the order mismatch, length, terms |
| Signup.LengthBoundary | Client/src/components/home/signup.jsx:42 | an 8-character password passes the length check and a 7-character one fails it |
| Signup.MismatchReportedFirst | Client/src/components/home/signup.jsx:38-49 | a mismatch is reported even when the password is also too short and the terms are unchecked |
| Signup.HandleSubmit | Client/src/components/home/signup.jsx:53-79 | register is called exactly for a valid form; an invalid form changes only the error and leaves loading false; loading always ends false; the outcome sets success or the error message |
| AdminDashboard.ToLower | Client/src/pages/AdminDashboard.jsx:129-130 | same length, each letter A–Z lowered |
| AdminDashboard.Includes | Client/src/pages/AdminDashboard.jsx:129-130 | the empty search text is found in every string, and a text longer than the string in none |
| AdminDashboard.IncludesIsSubstring | Client/src/pages/AdminDashboard.jsx:129-130 | includes holds exactly when the needle occurs contiguously in the text |
| AdminDashboard.IncludesHasOccurrence | Client/src/pages/AdminDashboard.jsx:129-130 | what includes finds is a contiguous occurrence |
| AdminDashboard.OccurrenceIsIncluded | Client/src/pages/AdminDashboard.jsx:129-130 | every contiguous occurrence is found by includes |
| AdminDashboard.FilteredUsers | Client/src/pages/AdminDashboard.jsx:128-133 | a user is kept exactly when the lowercased search occurs in the lowercased name or email and the filter is 'All' or equals the status; the result keeps the users' order and each kept user's multiplicity |
| AdminDashboard.EmptySearchKeepsAll | Client/src/pages/AdminDashboard.jsx:129-131 | an empty search with filter 'All' keeps every user |
| AdminDashboard.HandleUserAction | Client/src/pages/AdminDashboard.jsx:135-139 | same length; users with that id get the new status; every other user is unchanged |
| AdminDashboard.UserActionIdempotent | Client/src/pages/AdminDashboard.jsx:136-138 | applying the same action twice equals applying it once |
| AdminDashboard.OfferedAction | Client/src/pages/AdminDashboard.jsx:410-419 | Active offers Suspended, Suspended offers Active, any other status offers nothing |
| AdminDashboard.OfferedActionToggles | Client/src/pages/AdminDashboard.jsx:410-419 | following the offered action twice gives the user back unchanged |
| AdminDashboard.HandleSettingsChange | Client/src/pages/AdminDashboard.jsx:141-143 | exactly the one key takes the new value; all other settings are unchanged |
| UserDashboard.ActiveWallets | Client/src/pages/UserDashboard.jsx:58 | exactly the active wallets, in order, each as many times as it is listed |
| UserDashboard.UnreadCount | Client/src/pages/UserDashboard.jsx:215-216 | counts the unread notifications, never more than the list; zero exactly when none is unread |
| UserDashboard.UnreadCountAppend | Client/src/pages/UserDashboard.jsx:215-216 | the count over two lists together is the sum of the counts |
| UserDashboard.BadgeIffUnread | Client/src/pages/UserDashboard.jsx:215-216 | the badge is shown exactly when some notification is unread |
| UserDashboard.InitialBadgeShowsTwo | Client/src/pages/UserDashboard.jsx:33-37 | the initial notifications show a badge of 2 |
| UserDashboard.LastN | Client/src/pages/UserDashboard.jsx:72 | the last n elements, or all when fewer: a suffix of length min(size, n) |
| UserDashboard.TxnPoints | Client/src/pages/UserDashboard.jsx:73-75 | one point per transaction, in order, carrying its date and total |
| UserDashboard.WindowPoints | Client/src/pages/UserDashboard.jsx:72-75 | exactly the last 10 transactions, or all of them when there are fewer, each as its date and total |
| UserDashboard.Chart | Client/src/pages/UserDashboard.jsx:77-81 | one chart entry per point, on the point's day |
| UserDashboard.HistoricalChart | Client/src/pages/UserDashboard.jsx:77-81 | the running-total loop computes Chart: the same length and days, and entry i is the total value less the values of points 0..i |
| UserDashboard.ChartFirst | Client/src/pages/UserDashboard.jsx:77-81 | the first entry is the total value less the first point |
| UserDashboard.ChartStep | Client/src/pages/UserDashboard.jsx:77-81 | each entry is the previous one less that point's value |
| UserDashboard.ChartLast | Client/src/pages/UserDashboard.jsx:77-81 | the last entry is the total value less all the point values |
| UserDashboard.PointsSumToFlow | Client/src/pages/UserDashboard.jsx:72-75 | the chart points of a transaction list sum to the ledger's total flow |
| UserDashboard.ChartOfWholeHistoryEndsAtZero | Client/src/pages/UserDashboard.jsx:72-81 | for a consistent portfolio with at most ten transactions, the chart has one entry per transaction and ends at 0 |
| UserDashboard.SubmitInvestment | Client/src/pages/UserDashboard.jsx:95-123 | no request when the plan, amount or wallet is missing, or when the amount is outside the inclusive plan limits; otherwise exactly one request; success closes the modal, clears the amount and wallet, and reloads; failure shows the server's message or 'Investment failed' |
| UserDashboard.RangeBoundsInclusive | Client/src/pages/UserDashboard.jsx:101-105 | the minimum and maximum themselves are posted; one below the minimum or one above the maximum is refused |
| UserDashboard.RefusalIgnoresServer | Client/src/pages/UserDashboard.jsx:96-105 | a refused submission does not depend on what the server would answer |
| MainSlider.NextSlide | Client/src/components/home/MainSlider.jsx:36-38 | keeps a valid index in range; the last slide wraps to 0 |
| MainSlider.PrevSlide | Client/src/components/home/MainSlider.jsx:40-42 | keeps a valid index in range; slide 0 wraps to the last |
| MainSlider.GoToSlide | Client/src/components/home/MainSlider.jsx:44-46 | whatever the previous index, the clicked indicator's slide becomes the only active one; an index outside the list leaves none active |
| MainSlider.NextPrevInverse | Client/src/components/home/MainSlider.jsx:36-42 | previous undoes next and next undoes previous on every valid index |
| MainSlider.NextTimesWraps | Client/src/components/home/MainSlider.jsx:36-38 | k steps forward, up to one turn, land on i + k wrapped once |
| MainSlider.FullCycle | Client/src/components/home/MainSlider.jsx:36-38 | as many nexts as there are slides return to the start |
| MainSlider.OneActiveSlide | Client/src/components/home/MainSlider.jsx:57-68 | exactly the current slide carries 'active' when the index is valid |
| MainSlider.RunStaysInRange | Client/src/components/home/MainSlider.jsx:36-58 | any run of next, previous and indicator clicks keeps the index among the two slides |
| MainSlider.AlwaysOneActive | Client/src/components/home/MainSlider.jsx:9-68 | from the initial index 0, exactly one slide is active after any run of clicks |
| FAQ.Toggle | Client/src/components/home/FAQ.jsx:52-54 | toggling the open item closes it; toggling any other item, or toggling when none is open, opens exactly that one |
| FAQ.ToggleTwice | Client/src/components/home/FAQ.jsx:53 | toggling the same id twice restores a state that was that id or none |
| FAQ.ToggleTwiceFromOther | Client/src/components/home/FAQ.jsx:53 | from another open item, toggling an id twice leaves nothing open |
| FAQ.IdsDistinct | Client/src/components/home/FAQ.jsx:9-50 | the eight item ids are distinct |
| FAQ.AtMostOneOpen | Client/src/components/home/FAQ.jsx:53-86 | at most one panel is expanded: the open id when it is listed, none when nothing is open |
| FAQ.InitiallyFirstOpen | Client/src/components/home/FAQ.jsx:7 | the page opens with exactly 'collapse1' expanded |
| FAQ.ClicksKeepListed | Client/src/components/home/FAQ.jsx:53-76 | after any clicks on listed items, the open item is listed or there is none |
| Common.FilterMembership | Client/src/pages/AdminDashboard.jsx:128 | an element survives the filter exactly when it was present and satisfies the predicate |
| Common.FilterIsSubsequence | Client/src/pages/AdminDashboard.jsx:128 | the filter keeps the input's order |
| Common.Filter | Client/src/pages/AdminDashboard.jsx:128 | the result is never longer than the input |
| Common.FilterCount | Client/src/pages/AdminDashboard.jsx:128 | the filter keeps every occurrence of a satisfying element and none of any other |

## Left out

- MongoDB, Express and HTTP plumbing are not modelled. Collections are in-memory maps, a response is its status code, and the message texts are not carried (server/server.js:1-32, 700-721).
- bcrypt and jsonwebtoken are not modelled. `compare`, `hash` and `verify` are fixed functions given to the server. `jwt.sign` becomes the `Claims` of the issued session, and token expiry is part of what `verify` answers.
- Backend.Server.GoogleSignIn: passport's redirect to Google, its failure redirect and the role-based redirect to a dashboard are not modelled (server/server.js:117-141). The profile's `googleId` is not stored, and the absent phone and date of birth read as empty strings. Session (de)serialisation (lines 77-85) is left to passport.
- Backend.Server.Login: the user object of the response (id, email, firstName, lastName, role, twoFAEnabled; server/server.js:199-209) is not carried. `SessionIssued` holds the token's claims and the cookie lifetime.
- Logout (server/server.js:271-274) is not modelled: it only clears the cookie, and the cookie is not part of the state.
- GET /api/admin/metrics, GET /api/admin/users and GET /api/admin/transactions (server/server.js:367-382) are not modelled. They only read stored documents.
- GET /api/admin/wallets (server/server.js:418-421) and GET /api/admin/plans (server/server.js:467-470) are not modelled. They only return the stored list.
- The admin settings routes (server/server.js:401-415) are not modelled. GET answers a fixed literal, and PUT answers success without storing anything.
- The market data and test routes (server/server.js:569-594) are not modelled. They answer fixed literals.
- Concurrency is not modelled. Each handler is one atomic step, so the race between the wallet debit and the portfolio credit of invest is not captured.
- Floating point is not modelled. Amounts are integers. `parseFloat` is a supplied function whose `None` stands for NaN; NaN compares false, so it passes the client's range guard, as in the source. `pnlPercent` and number formatting are not modelled.
- Dates are not modelled as ISO strings. A transaction's date is its UTC day number, and `lastUpdated`/`startDate` are millisecond timestamps.
- UserDashboard.HistoricalChart: the client's sort of the window by date is taken as given. The method takes the points in the order the chart uses. The ledger pushes transactions in time order, so that order is the sorted one when requests arrive in time order.
- The loader of the user dashboard is not modelled. `loadInitialData` reads `portfolioResponse`, which it never binds, so it throws and the chart is never set; the running total is modelled as a function of the total value and the transaction window. The loader also calls GET /api/admin/wallets, which answers 403 to a non-admin user.
- Signup.ValidateForm: a password's length counts characters, not UTF-16 code units as JavaScript does.
- AdminDashboard.ToLower: only the letters A to Z are lowered. JavaScript's `toLowerCase` also lowers other alphabets.
- Backend.Server.AddWallet: the source's response omits the new id. The model returns the stored wallet, which carries it.
- Backend.Server.AddPlan: the source's response omits the new id. The model returns the stored plan, which carries it.
- Backend.Server.Withdraw: the response carries what `findOneAndUpdate` returns. With the driver's default (`returnDocument: 'before'`), that is the document before the update, and the model shows that document. The ModifyResult wrapper that older driver versions return is not modelled.
- Backend.Server.DeleteWallet: an id that is not a valid ObjectId makes `new ObjectId(id)` throw outside any try/catch (server/server.js:458). This case is not modelled; ids are natural numbers.
- Backend.Server.UpdateUserStatus: an id that is not a valid ObjectId makes the driver throw and the route answer 500. This case is not modelled; ids are natural numbers.
- Backend.Server.Invest: the client may send ids that are not valid ObjectIds, which makes the driver throw. These are not modelled; ids are natural numbers.
- The rendering of the pages is not modelled: JSX, charts, modals, alerts and navigation. Only the state the handlers compute is modelled. The settings screen passes a merged market-hours pair, modelled as one `Hours` value.
- InvestmentPlans.jsx, seedDatabase and the other presentational files are not modelled. They are constant data or layout.
