# MedSkill core, modelled in Dafny

MedSkill is a web platform for medical students. It offers tutoring ("bimbel") classes, try-out exams and the rental of training mannequins. Accounts are registered through an Express back end, and a React front end talks to a Supabase database and its auth provider. This project models the logic at its centre. Every module is self-contained and verified.

- **Registration (`registration.dfy`).** This is the account workflow of `backend/routes/emailRoutes.js`.
  - `POST /register` stores a pending registration with a fresh token and mails a verification link.
  - `GET /verify/:token` resolves the token. It then finds or creates the identity for the pending email, overwrites that identity's profile metadata, inserts the `users` row (tolerating a duplicate key) and deletes the pending rows of that email.
  - The three stores are the fields of the class `EmailService`. Each handler is a method whose new state is that of a pure step function, `RegisterStep` or `VerifyStep`.
  - Every provider call that can fail takes its outcome as a parameter: the insert, the mail transport, the lookup, the listing of identities (whose error the handler drops), `createUser`, the metadata update, the `users` insert and the delete. The token minted by `uuidv4()` is also a parameter. So every combination of failures is covered.
  - The lemmas prove the following:
    - The store invariants hold: one identity per email ignoring case, `users` keyed by id, and every user row joined to its identity.
    - Single use: a used token is rejected afterwards.
    - Recovery: a retry after a 500 succeeds without a second identity.
    - The round trip from registration to a verified account.
- **Try-out exam (`tryout_exam.dfy`).** This covers the exam page `src/pages/TryoutExamPage.tsx`.
  - `formatTime`, with its round trip through a parser.
  - The answer and flag maps and their counters.
  - The score loop.
  - Navigation clamped to the question list.
  - The badge colour of a question.
  - The class `ExamSession` holding the page's state.
- **Dashboard (`dashboard.dfy`).** This is the booking aggregation of `src/admin/AdminDashboard.tsx`.
  - The normalisation of the joined mannequin.
  - The headline figures.
  - The status distribution.
  - The per-date timeline: a dictionary updated booking by booking, then sorted by date and cut to the last ten. It is proved to account for every booking and every rupiah of revenue exactly once.
- **Tutoring classes (`bimbel_admin.dfy`).** This is the admin page `frontend/src/admin/AdminBimbelManager.tsx`.
  - Validating and normalising the partial form into a payload. This is proved idempotent.
  - Saving it as an update or an insert.
  - Resetting the form.
  - Flipping the published and hot switches.
- **Navigation bar (`navbar.dfy`).** This covers `src/components/Navbar.tsx`.
  - The password-strength regular expression, proved equal to its plain-words rule.
  - The login/register handler, with its guard order and field clearing.
  - The active-link test.
  - The redirect on logout.
- **Admin guard (`admin_route.dfy`).** In `src/routes/AdminRoute.tsx`, only a session whose `users.role` is exactly `"admin"` sees the children.
- **Hot topics (`hot_topics.dfy`).** `frontend/src/lib/hotTopicService.ts` maps the topic rows to topics linking to the tutoring tab of their category.
- **Shared helpers (`text.dfy`, `wrappers.dfy`).**
  - JavaScript `trim`, `toLowerCase`, `toUpperCase`, `startsWith` and `includes`.
  - JavaScript truthiness of optional strings.
  - An `Option` type.

## Model

| member | source | states |
|---|---|---|
| Registration.OrNull | backend/routes/emailRoutes.js:100-101 | `x \|\| null`: the field is kept exactly when it is present and non-empty, otherwise it is `null` |
| Registration.VerificationLink | backend/utils/mailer.js:15-16 | the link starts with `FRONTEND_URL` when that is set and non-empty, otherwise with the local URL, and it ends in `/verify/` followed by the token, with nothing else in between |
| Registration.RowsWithToken | backend/routes/emailRoutes.js:52-55 | the selected rows are exactly the pending rows carrying the token |
| Registration.PendingFor | backend/routes/emailRoutes.js:52-61 | `.maybeSingle()`: a row is found exactly when one row carries the token; that row is in the table and is the only one with the token |
| Registration.WithoutEmail | backend/routes/emailRoutes.js:109 | the delete keeps exactly the rows whose email differs |
| Registration.ConsumedTokenIsGone | backend/routes/emailRoutes.js:52-109 | after the rows of the resolved email are deleted, the token resolves to nothing |
| Registration.ProfileRow | backend/routes/emailRoutes.js:97-103 | the `users` row carries the identity id and the pending email, `null` for empty names, and is verified |
| Registration.FindIdentity | backend/routes/emailRoutes.js:64-67 | `find`: the first identity whose email equals the pending email ignoring case, and `None` exactly when there is none |
| Registration.CreateUser | backend/routes/emailRoutes.js:74-85 | creation is refused when it fails or the email is taken (ignoring case); otherwise exactly one confirmed identity with the pending credentials is appended under the next id |
| Registration.InsertUser | backend/routes/emailRoutes.js:97-106 | the insert succeeds exactly for a new id with no fault; an existing id gives the duplicate-key error; a refused insert leaves the table as it was; unique ids are kept |
| Registration.DuplicateKeyIsTolerated | backend/routes/emailRoutes.js:105-106 | the primary-key error the store gives contains "duplicate", so the handler does not throw on it |
| Registration.VerifyReply.Status | backend/routes/emailRoutes.js:58-121 | the verification replies 200, 400 and 500 correspond exactly to success, a bad token and a crash |
| Registration.RegisterStep | backend/routes/emailRoutes.js:22-44 | a missing email or password gives a 400 with nothing written; a store error gives a 400 with its message; otherwise exactly one pending row with the token is appended; a mail with the token's link goes to the registered address exactly on a 200; the invariants are kept |
| Registration.ResolvedId | backend/routes/emailRoutes.js:69-86 | the id found for the email, or the next id when none is found |
| Registration.SyncIdentity | backend/routes/emailRoutes.js:63-94 | fails exactly when the identity does not resolve: an identity exists but the listing failed (the dropped error hides it and `createUser` refuses the taken email), or none exists and creation fails; otherwise the resolved identity matches the email, others are untouched, at most one is added, an existing one keeps its credentials, a created one is confirmed, and the metadata becomes the pending profile unless the ignored update failed on an existing identity |
| Registration.VerifyStep | backend/routes/emailRoutes.js:49-122 | a 400 happens exactly when the lookup fails or the token does not resolve to one row, and changes nothing; a 500 leaves the pending rows; at most one identity and one `users` row are added, and none is removed |
| Registration.VerifyKeepsInvariant | backend/routes/emailRoutes.js:49-122 | verification keeps one identity per email, unique user ids, and every user row verified and joined to its identity |
| Registration.ExistingIdentityIsReused | backend/routes/emailRoutes.js:64-72 | with an identity for the email and a failed listing, the reply is a 500 and nothing is written; with a working listing, no identity is created, its id is the one written to `users`, and the other identities are untouched |
| Registration.MissingIdentityIsCreatedOnce | backend/routes/emailRoutes.js:73-86 | without an identity, exactly one is created, confirmed, with the pending email, password and metadata; a failed creation is a 500 that writes nothing |
| Registration.MetadataIsOverwritten | backend/routes/emailRoutes.js:88-94 | after verification the email resolves to the same identity, whose metadata is the pending profile unless the ignored update failed on an existing identity |
| Registration.ProfileRowIsWritten | backend/routes/emailRoutes.js:96-106 | an existing row for the id is kept and counts as success; otherwise the profile row is appended, or a fault leaves the table and succeeds exactly when its message contains "duplicate" |
| Registration.TokenIsSingleUse | backend/routes/emailRoutes.js:108-109 | after a success whose delete took effect, no pending row of that email is left, and the token is then rejected whatever fails, with nothing written |
| Registration.CrashIsRecoverable | backend/routes/emailRoutes.js:115-121 | after a 500 the token still resolves to the same row, and a retry without failures succeeds and creates no second identity when one was already made |
| Registration.RoundTrip | backend/routes/emailRoutes.js:22-122 | registering a fresh address and verifying its token gives one confirmed identity, one verified `users` row with the registered fields, and no pending row |
| Registration.TwoRegistrationsOneAccount | backend/routes/emailRoutes.js:28-109 | two registrations of one address: verifying the later token creates one identity and one user and retires the earlier token |
| Registration.EmailService.Register | backend/routes/emailRoutes.js:22-44 | the handler's new stores and reply are those of `RegisterStep`, the mail is appended to the outbox exactly when one is sent, and the invariant is kept |
| Registration.EmailService.Verify | backend/routes/emailRoutes.js:49-122 | the handler's writes, made one store at a time with its early returns, leave the stores and the reply of `VerifyStep`; no mail is sent; the invariant is kept |
| TryoutExam.Decimal | src/pages/TryoutExamPage.tsx:70-71 | `String(n)`: one or more digits, no leading zero, and a single digit exactly below ten |
| TryoutExam.DecimalRoundTrip | src/pages/TryoutExamPage.tsx:70-71 | the decimal text reads back as the number |
| TryoutExam.PadTwo | src/pages/TryoutExamPage.tsx:70-71 | `padStart(2, "0")`: long strings are unchanged; short ones get leading zeros up to two characters |
| TryoutExam.PaddedDecimal | src/pages/TryoutExamPage.tsx:70-71 | the padded number is at least two digits, reads back as the number, and has no leading zero beyond two digits |
| TryoutExam.PaddedSmallDecimal | src/pages/TryoutExamPage.tsx:70-71 | a number below 100 pads to exactly two digits |
| TryoutExam.FormatTime | src/pages/TryoutExamPage.tsx:67-73 | the text is the minutes, a colon and two digits of seconds, and the two halves read back as `s / 60` and `s % 60`; below 100 minutes it is exactly five characters, and a longer text has no leading zero |
| TryoutExam.FormatTimeRoundTrip | src/pages/TryoutExamPage.tsx:67-73 | parsing the formatted time gives back the seconds |
| TryoutExam.FullDurationShowsThirtyMinutes | src/pages/TryoutExamPage.tsx:67-77 | the configured 30-minute duration shows as "30:00" |
| TryoutExam.Ids | src/pages/TryoutExamPage.tsx:94-97 | the set of question ids, no larger than the question list |
| TryoutExam.InitialAnswers | src/pages/TryoutExamPage.tsx:91-100 | the init effect gives one `null` answer per question, so nothing counts as answered |
| TryoutExam.InitialFlags | src/pages/TryoutExamPage.tsx:91-100 | the init effect gives one cleared flag per question, so nothing counts as flagged |
| TryoutExam.SelectAnswer | src/pages/TryoutExamPage.tsx:136-138 | the chosen key is recorded for the question and every other answer is unchanged |
| TryoutExam.ToggleFlag | src/pages/TryoutExamPage.tsx:140-142 | the question's flag is negated (a missing flag counts as cleared) and every other flag is unchanged |
| TryoutExam.ToggleTwiceRestores | src/pages/TryoutExamPage.tsx:140-142 | toggling twice restores the flag, and the whole map when the question already had an entry |
| TryoutExam.AnsweredCount | src/pages/TryoutExamPage.tsx:126-129 | the number of non-`null` answers is at most the number of entries |
| TryoutExam.FlaggedCount | src/pages/TryoutExamPage.tsx:130-133 | the number of set flags is at most the number of entries |
| TryoutExam.CountsAreBounded | src/pages/TryoutExamPage.tsx:126-133 | when the maps are keyed by question ids, neither counter exceeds the number of questions |
| TryoutExam.CountCorrect | src/pages/TryoutExamPage.tsx:165-170 | the score never exceeds the number of questions |
| TryoutExam.CountCorrectCountsPositions | src/pages/TryoutExamPage.tsx:166-170 | the score is the number of questions that have a key and whose answer equals it |
| TryoutExam.Score | src/pages/TryoutExamPage.tsx:165-170 | the `forEach` loop computes exactly that count |
| TryoutExam.NextIndex | src/pages/TryoutExamPage.tsx:150-153 | `Math.min(i + 1, n - 1)` |
| TryoutExam.PrevIndex | src/pages/TryoutExamPage.tsx:155-158 | `Math.max(i - 1, 0)` |
| TryoutExam.StepsStayInRange | src/pages/TryoutExamPage.tsx:150-158 | from a valid index, next and prev stay valid and move by at most one |
| TryoutExam.StatusClass | src/pages/TryoutExamPage.tsx:185-191 | the red badge exactly for a flagged question, the blue one exactly for an unflagged answered one, and the grey one otherwise |
| TryoutExam.ExamSession.constructor | src/pages/TryoutExamPage.tsx:80-100 | not started, not agreed, on the first question, with the initial answer and flag maps |
| TryoutExam.ExamSession.Answered | src/pages/TryoutExamPage.tsx:126-129 | the answered counter is bounded by the number of questions |
| TryoutExam.ExamSession.Flagged | src/pages/TryoutExamPage.tsx:130-133 | the flagged counter is bounded by the number of questions |
| TryoutExam.ExamSession.Agree | src/pages/TryoutExamPage.tsx:422 | the checkbox sets `agreed`, and nothing else changes |
| TryoutExam.ExamSession.Start | src/pages/TryoutExamPage.tsx:160-163 | the exam starts only when agreed, and nothing else changes |
| TryoutExam.ExamSession.Select | src/pages/TryoutExamPage.tsx:136-138 | the answers become `SelectAnswer` of the old ones, and nothing else changes |
| TryoutExam.ExamSession.Toggle | src/pages/TryoutExamPage.tsx:140-142 | the flags become `ToggleFlag` of the old ones, and nothing else changes |
| TryoutExam.ExamSession.GoTo | src/pages/TryoutExamPage.tsx:144-148 | the index moves only once started, and stays valid for a valid target |
| TryoutExam.ExamSession.Next | src/pages/TryoutExamPage.tsx:150-153 | once started, it moves to the clamped next index and stays in range |
| TryoutExam.ExamSession.Prev | src/pages/TryoutExamPage.tsx:155-158 | once started, it moves to the clamped previous index and stays in range |
| TryoutExam.ExamSession.Submit | src/pages/TryoutExamPage.tsx:165-182 | the submitted score is the number of correctly answered questions, at most their number |
| Dashboard.Normalise | src/admin/AdminDashboard.tsx:64-70 | the fields are copied; an array join becomes its first element (none when empty), an object is kept, `null` stays none |
| Dashboard.NormaliseAll | src/admin/AdminDashboard.tsx:64-70 | one normalised row per fetched row, in order |
| Dashboard.CountStatus | src/admin/AdminDashboard.tsx:79-80 | a status count never exceeds the number of rows |
| Dashboard.RevenueOfAppend | src/admin/AdminDashboard.tsx:81-86 | the `reduce` adds one booking's contribution at a time |
| Dashboard.VerifiedRows | src/admin/AdminDashboard.tsx:80 | the result holds exactly the rows whose status is verified, and they number `sukses` |
| Dashboard.OnlyVerifiedRowsEarn | src/admin/AdminDashboard.tsx:81-86 | the revenue is the revenue of the verified rows alone |
| Dashboard.NoVerifiedNoRevenue | src/admin/AdminDashboard.tsx:81-88 | without a verified booking the revenue is zero |
| Dashboard.ComputeStats | src/admin/AdminDashboard.tsx:78-95 | the total is the row count, `sukses` the verified count, and `pendapatan` the revenue; the ticket is `ZeroTicket` exactly without verified bookings (a rounded average of 0 also shows as "0"), and otherwise the revenue over `sukses` |
| Dashboard.Donut | src/admin/AdminDashboard.tsx:114-123 | three slices, verified, pending and cancelled, with their counts |
| Dashboard.DonutCoversAllRows | src/admin/AdminDashboard.tsx:114-123 | when every status is one of the three declared values, the slices add up to the number of bookings |
| Dashboard.ByDateOfAppend | src/admin/AdminDashboard.tsx:100-107 | a booking joins its own date's group and no other |
| Dashboard.OffDateMembers | src/admin/AdminDashboard.tsx:100-107 | the bookings off a date are exactly those with another date |
| Dashboard.NoRowsOnAbsentDate | src/admin/AdminDashboard.tsx:102 | a date no booking has has an empty group |
| Dashboard.DateSetMembers | src/admin/AdminDashboard.tsx:99-102 | the dictionary's keys are exactly the booking dates |
| Dashboard.LexIrreflexive | src/admin/AdminDashboard.tsx:109 | no date sorts before itself |
| Dashboard.LexTransitive | src/admin/AdminDashboard.tsx:109 | the date order is transitive |
| Dashboard.LexTotal | src/admin/AdminDashboard.tsx:109 | any two distinct dates are ordered |
| Dashboard.Insert | src/admin/AdminDashboard.tsx:108-109 | one entry more, exactly the old ones and the new one, still ascending when its date is new |
| Dashboard.LastTen | src/admin/AdminDashboard.tsx:110 | `slice(-10)`: the last ten entries, or all when there are fewer |
| Dashboard.GroupByDate | src/admin/AdminDashboard.tsx:99-107 | the dictionary has one key per booking date, each entry counting that date's bookings and verified revenue |
| Dashboard.DateSetOfAppend | src/admin/AdminDashboard.tsx:101-102 | a booking adds its date to the keys |
| Dashboard.EntryOfAppend | src/admin/AdminDashboard.tsx:102-106 | a booking bumps its own date's orders by one and earning by its contribution; other dates are unchanged |
| Dashboard.GroupStep | src/admin/AdminDashboard.tsx:100-106 | one loop step keeps every entry equal to its date's group |
| Dashboard.Bumped | src/admin/AdminDashboard.tsx:103-106 | the entry's orders go up by one and its earning by the booking's contribution |
| Dashboard.SortByDate | src/admin/AdminDashboard.tsx:108-109 | the groups in strictly ascending date order, each exactly once |
| Dashboard.Timeline | src/admin/AdminDashboard.tsx:98-111 | the full sorted list has one entry per date, ascending, each that date's count and revenue; the chart shows its last ten |
| Dashboard.SplitByDate | src/admin/AdminDashboard.tsx:100-106 | splitting by one date splits the count and the revenue |
| Dashboard.OtherDatesUnaffected | src/admin/AdminDashboard.tsx:100-106 | removing one date's bookings leaves other dates' groups as they were |
| Dashboard.TimelineAccountsForEveryBooking | src/admin/AdminDashboard.tsx:98-111 | before truncation the orders sum to the number of bookings and the earnings to the revenue |
| Dashboard.Bookings.Load | src/admin/AdminDashboard.tsx:52-76 | a successful load replaces the rows with their normalisation, a failed one keeps them, and loading ends |
| BimbelAdmin.TrimmedOrEmpty | frontend/src/admin/AdminBimbelManager.tsx:81-82 | `field?.trim() ?? ""` |
| BimbelAdmin.TrimmedOr | frontend/src/admin/AdminBimbelManager.tsx:94-96 | `field?.trim() \|\| fallback`: the trimmed text when the field is not blank, and the fallback otherwise |
| BimbelAdmin.BuildPayload | frontend/src/admin/AdminBimbelManager.tsx:81-99 | refused exactly when the trimmed title or the upper-cased trimmed category is empty; otherwise every field is normalised as written, with the defaults for missing ones and the spread fields carried over |
| BimbelAdmin.PayloadIsNormalised | frontend/src/admin/AdminBimbelManager.tsx:81-99 | normalising an already normalised payload changes nothing |
| BimbelAdmin.FallbacksAreTrimmed | frontend/src/admin/AdminBimbelManager.tsx:94-96 | the fallbacks "-" and "" are already trimmed |
| BimbelAdmin.NormalisedTextIsStable | frontend/src/admin/AdminBimbelManager.tsx:94-96 | with a trimmed fallback, `trim() \|\| fallback` is idempotent |
| BimbelAdmin.Apply | frontend/src/admin/AdminBimbelManager.tsx:103-106 | an update writes every payload field, and keeps the row's id, image and creation time where the payload has none |
| BimbelAdmin.UpdateWhere | frontend/src/admin/AdminBimbelManager.tsx:103-106 | `.update(payload).eq("id", id)`: exactly the rows with the id are updated, the others are unchanged |
| BimbelAdmin.NewRow | frontend/src/admin/AdminBimbelManager.tsx:109 | an insert applies the payload to a new row with the database's id |
| BimbelAdmin.SavingAnUnchangedEditKeepsTheTable | frontend/src/admin/AdminBimbelManager.tsx:102-107 | saving the normalised fields of a class back onto itself leaves the table unchanged |
| BimbelAdmin.SetSwitch | frontend/src/admin/AdminBimbelManager.tsx:130-134 | exactly the rows with the id get the switch set; every other field and row is unchanged |
| BimbelAdmin.ToggleTwiceRestores | frontend/src/admin/AdminBimbelManager.tsx:130-137 | two toggles of a shown value restore the table |
| BimbelAdmin.Manager.constructor | frontend/src/admin/AdminBimbelManager.tsx:20-26 | starts with the default form `{category: "KOS", price: 0}` and no edit |
| BimbelAdmin.Manager.StartEdit | frontend/src/admin/AdminBimbelManager.tsx:216 | Edit puts the whole class in the form and remembers its id |
| BimbelAdmin.Manager.CancelEdit | frontend/src/admin/AdminBimbelManager.tsx:181 | Cancel clears the edit and resets the form |
| BimbelAdmin.Manager.HandleSubmit | frontend/src/admin/AdminBimbelManager.tsx:78-119 | an invalid form changes nothing; a store error is reported and changes nothing; a save updates the edited rows (when the edit id is truthy) or appends one row, then resets the form |
| BimbelAdmin.Manager.ToggleField | frontend/src/admin/AdminBimbelManager.tsx:130-137 | writes the negation of the shown value; on an error nothing changes and the alert carries the message |
| Navbar.Scan | src/components/Navbar.tsx:62-63 | one pass tells exactly whether every character is in the class and whether each kind occurs |
| Navbar.StrengthMeetsSpec | src/components/Navbar.tsx:61-65 | the regular expression's test holds exactly for passwords of eight or more allowed characters with a lower-case letter, an upper-case letter, a digit and a symbol |
| Navbar.ForeignCharacterRejects | src/components/Navbar.tsx:62-63 | one character outside the class rejects the password |
| Navbar.ShortPasswordRejects | src/components/Navbar.tsx:62-63 | fewer than eight characters are rejected |
| Navbar.Examples | src/components/Navbar.tsx:61-65 | sample passwords are accepted or rejected as the rule says |
| Navbar.HandleAuthStep | src/components/Navbar.tsx:68-124 | the mismatch check runs before the strength check and both return before any provider call, keeping the fields; otherwise the first call is sign-up or sign-in and the fields are cleared; an unconfirmed login is signed out again; the modal closes only on a confirmed login; exactly one of error and success is set |
| Navbar.SignUpOnlyForStrongMatchingPasswords | src/components/Navbar.tsx:74-94 | a sign-up request is made exactly when registering with matching passwords that meet the rule |
| Navbar.IsActive | src/components/Navbar.tsx:146-149 | the home link is active only on "/" itself, and every other link on any path that starts with it |
| Navbar.LogoutRedirect | src/components/Navbar.tsx:131-136 | a redirect home happens exactly from the booking and payment pages |
| Navbar.LogoutExamples | src/components/Navbar.tsx:127-149 | sample paths redirect, and links activate, as the rules say |
| Navbar.NavbarState.constructor | src/components/Navbar.tsx:10-24 | the empty form, no session, a closed drawer and no provider calls |
| Navbar.NavbarState.HandleAuth | src/components/Navbar.tsx:68-124 | the form's new state and the provider calls are those of `HandleAuthStep`; a login leaves a session exactly when the email is confirmed, and a register attempt or a failed login keeps the session as it was |
| Navbar.NavbarState.Register | src/components/Navbar.tsx:74-102 | the register branch leaves the state and calls of `RegisterAttempt` |
| Navbar.NavbarState.RequestSignUp | src/components/Navbar.tsx:88-102 | the sign-up call and its outcome, as `RegisterAttempt` says for a password that passed both checks |
| Navbar.NavbarState.Login | src/components/Navbar.tsx:103-124 | the login branch leaves the state and calls of `LoginAttempt`; a successful sign-in leaves a session exactly when the email is confirmed (an unconfirmed one is signed out), and a failed one keeps the session as it was |
| Navbar.NavbarState.Logout | src/components/Navbar.tsx:127-138 | signs out, drops the session, goes home from a session-only page and closes the drawer |
| AdminRoute.Decide | src/routes/AdminRoute.tsx:8-43 | every modelled outcome of the session and the role query settles the check, and it grants access exactly to a session whose role row is exactly "admin" |
| AdminRoute.OtherRolesAreDenied | src/routes/AdminRoute.tsx:34-37 | any other role, including "Admin", is denied |
| AdminRoute.Render | src/routes/AdminRoute.tsx:45-48 | a placeholder while checking, a redirect when denied, the children when allowed |
| AdminRoute.ChildrenOnlyForAdmins | src/routes/AdminRoute.tsx:8-48 | the children render exactly for an admin session |
| AdminRoute.Guard.constructor | src/routes/AdminRoute.tsx:6 | the guard starts in `checking` |
| AdminRoute.Guard.Check | src/routes/AdminRoute.tsx:8-43 | the status becomes `Decide` of the session and the query, and the role is queried only with a session |
| HotTopics.LinkFor | frontend/src/lib/hotTopicService.ts:17-19 | the link is the tab of the lower-cased category, or the plain page without a category |
| HotTopics.LinkNamesTheCategory | frontend/src/lib/hotTopicService.ts:17-19 | the link's tab reads back as the lower-cased category, and there is no tab without one |
| HotTopics.CaseOfCategoryDoesNotMatter | frontend/src/lib/hotTopicService.ts:17-19 | categories that differ only in case give the same link |
| HotTopics.ToTopic | frontend/src/lib/hotTopicService.ts:11-20 | the row's fields are copied and the link is added |
| HotTopics.ActiveHotTopics | frontend/src/lib/hotTopicService.ts:4-21 | a failed query gives no topics, otherwise one topic per row, in order |
| Text.Lower | backend/routes/emailRoutes.js:66 | `toLowerCase` maps each character to its lower case and keeps the length |
| Text.LowerIsIdempotent | backend/routes/emailRoutes.js:66 | lower-casing leaves no upper-case letter and is idempotent |
| Text.Upper | frontend/src/admin/AdminBimbelManager.tsx:82 | `toUpperCase` maps each character to its upper case and keeps the length |
| Text.Trim | frontend/src/admin/AdminBimbelManager.tsx:81-82 | `trim` removes a blank prefix and a blank suffix of its input and nothing else, and neither starts nor ends with whitespace (the full ECMAScript set: white space, the BOM, every space separator and the line terminators) |
| Text.TrimStart | frontend/src/admin/AdminBimbelManager.tsx:81 | only a leading blank stretch is removed |
| Text.TrimEnd | frontend/src/admin/AdminBimbelManager.tsx:81 | only a trailing blank stretch is removed |
| Text.TrimEmptyIffBlank | frontend/src/admin/AdminBimbelManager.tsx:84 | the trim is empty exactly when the text is blank |
| Text.TrimIsIdempotent | frontend/src/admin/AdminBimbelManager.tsx:81-96 | trimming twice is trimming once |
| Text.UpperOfTrimmed | frontend/src/admin/AdminBimbelManager.tsx:82 | upper-casing a trimmed text keeps it trimmed and is idempotent |
| Text.UpperOfUnpadded | frontend/src/admin/AdminBimbelManager.tsx:82 | a text with no whitespace at either end stays trimmed after upper-casing |
| Text.UpperIsIdempotent | frontend/src/admin/AdminBimbelManager.tsx:82 | upper-casing twice is upper-casing once |
| Text.Contains | backend/routes/emailRoutes.js:105 | `includes` holds exactly when the needle occurs at some position |

## Left out

- Pagination of `listUsers`: the model sees the provider's whole user list in one page, as the handler assumes (`backend/routes/emailRoutes.js:64`).
- The mail transport (nodemailer), the environment variables other than `FRONTEND_URL`, `console` logging and minting the `uuidv4` token: the transport's failure and the token are parameters.
- Concurrency: two verifications of one token running at once interleave their awaits in the source; the model runs each handler to completion.
- Registration.VerifyStep: the errors of `listUsers`, `updateUserById` and of the final delete are ignored by the handler, so they are modelled only as "the listing found nothing" and "the write did not take effect"; a thrown `updateUserById` (a network exception) is not modelled.
- Registration.FindIdentity: a provider identity without an email (`u.email?`) is not modelled; every identity has an email.
- Floating point: the exam's percentage and `toFixed(2)`, the dashboard's `Math.round` of the average ticket and every `toLocaleString` format. The model keeps the integer score and the ticket as revenue and count (`Dashboard.Ticket`).
- TryoutExam.FormatTime: defined for natural numbers of seconds only; the timer never shows a negative count.
- Timers and browser events: the countdown interval, the automatic submit when time runs out, the unload warning, alerts, the mobile drawer of the exam page and focus handling.
- TryoutExam.NextIndex: with an empty question list the source would move to index -1; the model computes the same value, and the range lemma assumes at least one question.
- Case mapping covers ASCII letters only; `localeCompare` is modelled as code-unit lexicographic order, which agrees with it on `YYYY-MM-DD` dates.
- JavaScript strings are UTF-16 code units, while Dafny strings are Unicode scalar values. The difference shows only in the length of the emoji-carrying messages, which nothing here inspects.
- Dashboard.SortByDate: `Array.prototype.sort` is modelled as an insertion of one group at a time; the result is determined because the keys are distinct. The order in which `Object.values` lists the keys is not modelled, because the sort removes it.
- The dashboard's fetch ordering (`created_at` descending) and the chart rendering: the model takes the rows in the order delivered.
- BimbelAdmin: the image upload (`handleFileUpload`), `handleDelete` with its confirmation dialog, `fetchClasses` after a save (the table is updated in place instead), and `handleChange` with its `Number(value)` conversion of the price (which can give `NaN`) are not modelled.
- BimbelAdmin.NewRow: the values the database fills in for a new row (id, creation time) are a parameter or left as they come.
- Navbar: the session listener is modelled as the `signedIn` flag that a confirmed login sets and an unconfirmed login or a logout clears; `getSession`, the scroll shadow, the body-scroll lock and the `go` helper are not modelled, nor is an exception thrown by the provider calls.
- AdminRoute.Decide: a rejected `getSession` or role query is not caught by `check` (`src/routes/AdminRoute.tsx:8-43`), so the status would stay "checking" and the page would show its loading text; the model covers only answered calls.
- AdminRoute: with no matching row, the client's `.single()` answers with an error rather than with no data. The model keeps the two as separate query outcomes; both are denied, so the distinction changes nothing.
- HotTopics.ActiveHotTopics: a query that answers neither an error nor data is not modelled; the source would throw on `data.map`.
