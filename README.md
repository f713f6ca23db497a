# Dashboard authentication core in Dafny

This project models the authentication core of a dashboard application made of a browser client
(React, axios) and a Django REST server, and proves properties of that model:

- **Token refresh in the API client** (`santo-project/src/services/apiReusable.js`). The request
  interceptor attaches `Bearer <access>`. The response interceptor turns a 401 into one refresh
  call: the first qualifying failure starts the refresh, failures arriving meanwhile wait in
  `failedQueue`, and `processQueue` settles them in order once the refresh ends. The client runs on
  one event loop, so this is a sequential state machine: `TokenRefresh` states each event as a
  function of the old state, and the class `ApiReusable.Coordinator` holds the module-level
  variables and `localStorage` as fields that its methods update in place. The `await` on the
  refresh call splits the error handler into two events: `OnError` (lines 39-72) and
  `RefreshDone` (lines 76-97).
- **The password-reset code on the server** (`dashboard/views.py`, `dashboard/models.py`). The
  class `Views.Database` holds the user table and the reset-code table. Its methods are
  `register_api`, `forgot_password`, `verify_otp` and `reset_password`. `Models` holds the rows, the
  `is_valid` rule and the ORM lookups (`get` with its `DoesNotExist` and `MultipleObjectsReturned`
  outcomes).
- **Registration and login validation** (`dashboard/serializers.py`), in `Serializers`, with the
  declared DRF fields' rules: trimming, required and blank values, and the refusal of NUL.
- **The reset wizard page** (`santo-project/src/pages/ForgotPassword.jsx`), in
  `ForgotPasswordPage`: the digit filter of the code field, and the three-step state machine,
  specified by functions on a `Screen` value and run in place by the class `ResetWizard`. Each
  handler is split at its `await api.post(...)` into two events: the part up to the post
  (`StartSend`, `StartVerify`, `StartReset`) and the part that runs when the post settles
  (`Settle`). Other events may come in between, and posts may settle in any order.

`Text` holds the string rules of the two runtimes: JavaScript/Python truthiness, Python's
`str.strip`, the digit filter `replace(/\D/g, '')` and Python's `str(n)`.

Times are integers in microseconds, the resolution of a Django `DateTimeField`. Tables are
sequences of rows in insertion order. A stored password is `Hashed(raw)`: the model compares
hashes the way `check_password` does, without modelling the hash function.

Where the code and the intended design of the refresh protocol differ, the model follows the code:

- When no refresh token is stored, the code clears the store and rejects the request, but it
  leaves `isRefreshing` set and does not settle the queue (apiReusable.js:60-69).
- A refresh answered with a 2xx status other than 200 also leaves `isRefreshing` set
  (apiReusable.js:76-86, 100). axios's default `validateStatus` throws on any other status, so a
  4xx or 5xx answer takes the `catch` branch and logs out (`TokenRefresh.ErrorStatusRefreshLogsOut`).
- After either of these, every later 401 waits in the queue until the page is reloaded
  (`TokenRefresh.StuckForever`). The no-refresh-token branch assigns `window.location.href`
  (apiReusable.js:67), which reloads the page at once; after the 2xx case the client stays stuck.
- Queued requests are replayed without the `_retry` mark (apiReusable.js:48-50). A queued replay
  that fails with 401 again can start a second refresh.
- DRF's `CharField` and `EmailField` trim surrounding whitespace before validation. So the
  e-mail, password and a non-blank username are stored trimmed, not exactly as submitted.
- The wizard's step 3 can show an e-mail and code the page never sent for verification. The
  back arrow and the e-mail field stay usable while a verification is in flight, and its success
  still moves to step 3 (`ForgotPasswordPage.BackDuringVerifyBreaksPairing`). The reset then
  carries that pair; the server's `reset_password` checks the pair itself (views.py:194-197).
  When each post settles before the next event, the page only ever resets a verified pair
  (`ForgotPasswordPage.Paired`).

## Model

| member | source | states |
|---|---|---|
| `TokenRefresh.Authorize` | santo-project/src/services/apiReusable.js:10-19 | with a truthy access token, the Authorization header becomes `Bearer <token>` and every other header is kept; otherwise the request is untouched |
| `TokenRefresh.Qualifies` | santo-project/src/services/apiReusable.js:43 | the interceptor acts on an error only when it has a response with status 401 and its request is not marked `_retry`; `OnError`, `LeaderReplayIsNotRetried` and `QueuedReplayMayRefreshAgain` state what follows from it |
| `TokenRefresh.OnError` | santo-project/src/services/apiReusable.js:39-100 | an error that is not a 401, has no response, or is already `_retry` is rejected and nothing changes; a qualifying 401 while refreshing is appended to the queue; a refresh call is issued exactly when a qualifying 401 arrives while idle with a refresh token stored; every qualifying 401 leaves the flag set |
| `TokenRefresh.Settle` | santo-project/src/services/apiReusable.js:25-35 | `processQueue` settles each queued request exactly once, in queue order, with the one verdict |
| `TokenRefresh.RefreshDone` | santo-project/src/services/apiReusable.js:76-97 | the outstanding refresh call is consumed and no new refresh call is issued |
| `TokenRefresh.InitialInv` | santo-project/src/services/apiReusable.js:22-23 | the client starts idle with an empty queue, inside the invariant |
| `TokenRefresh.OnErrorKeepsInv` | santo-project/src/services/apiReusable.js:43-72 | a failed request keeps the invariant: at most one refresh call outstanding, and a queue or an outstanding call only while the flag is set |
| `TokenRefresh.RefreshDoneKeepsInv` | santo-project/src/services/apiReusable.js:76-97 | the end of the refresh call keeps the invariant |
| `TokenRefresh.RunWhileRefreshing` | santo-project/src/services/apiReusable.js:44-55 | while refreshing, any sequence of failures only appends the qualifying ones to the queue, in arrival order |
| `TokenRefresh.OneRefreshPerBurst` | santo-project/src/services/apiReusable.js:43-72 | a burst of qualifying 401s arriving while idle issues exactly one refresh call: the first failure leads it and the rest are queued in order |
| `TokenRefresh.AtMostOneRefreshPerRun` | santo-project/src/services/apiReusable.js:57-72 | any run of failures keeps the invariant and issues at most one refresh call, and none if a refresh is already under way |
| `TokenRefresh.RefreshSucceeded` | santo-project/src/services/apiReusable.js:76-85 | a 200 refresh stores the new access token, replays the leader and resolves every queued request in order with `Bearer <new>`, empties the queue and clears the flag |
| `TokenRefresh.RefreshFailed` | santo-project/src/services/apiReusable.js:87-97 | a refresh that throws rejects every queued request with the refresh error, empties the queue, clears the flag and all three stored keys, and redirects once |
| `TokenRefresh.StuckForever` | santo-project/src/services/apiReusable.js:44-58 | with the flag set and no refresh outstanding, later failures only queue up and no refresh call is ever issued |
| `TokenRefresh.NoRefreshTokenLeavesFlagSet` | santo-project/src/services/apiReusable.js:60-69 | with no refresh token, the keys are removed, the original error is rejected, no refresh call is made, the queue is untouched and the flag stays set |
| `TokenRefresh.NonOkRefreshLeavesFlagSet` | santo-project/src/services/apiReusable.js:76-100 | a refresh answered with a 2xx status other than 200 rejects the original error, settles no queued request and leaves the flag set |
| `TokenRefresh.AxiosSettle` | santo-project/src/services/apiReusable.js:72-74 | the refresh call resolves only with a 2xx response; any other status throws, carrying that status, and a call without a response throws as it is |
| `TokenRefresh.ErrorStatusRefreshLogsOut` | santo-project/src/services/apiReusable.js:72-97 | a refresh answered with a non-2xx status goes through the `catch` branch: the store is cleared, the queue drained, the flag cleared, and the client is not stuck |
| `TokenRefresh.LeaderReplayIsNotRetried` | santo-project/src/services/apiReusable.js:43-57 | the leader's replay is marked `_retry`, so a second 401 on it is rejected unchanged |
| `TokenRefresh.QueuedReplayMayRefreshAgain` | santo-project/src/services/apiReusable.js:45-50 | a queued replay is not marked `_retry`, so a 401 on it once idle issues a new refresh call |
| `ApiReusable.Coordinator.constructor` | santo-project/src/services/apiReusable.js:22-23 | the client is loaded idle, with whatever the store holds |
| `ApiReusable.Coordinator.Dispatch` | santo-project/src/services/apiReusable.js:10-19 | the interceptor sends the request `Authorize` gives for the stored access token |
| `ApiReusable.Coordinator.OnResponseError` | santo-project/src/services/apiReusable.js:39-72 | the in-place handler performs the `OnError` transition and keeps the invariant |
| `ApiReusable.Coordinator.ProcessQueue` | santo-project/src/services/apiReusable.js:25-35 | the loop over the queue returns `Settle` of the old queue and leaves the queue empty |
| `ApiReusable.Coordinator.OnRefreshDone` | santo-project/src/services/apiReusable.js:76-97 | the resumed handler performs the `RefreshDone` transition and keeps the invariant |
| `ApiReusable.FiveFailuresOneRefresh` | santo-project/src/services/apiReusable.js:43-85 | five simultaneous 401s with a refresh returning `T2` make one refresh call and five replays, each carrying `Bearer T2` |
| `ApiReusable.RefreshThrows` | santo-project/src/services/apiReusable.js:87-97 | a refresh that throws leaves the store empty, rejects the caller with the refresh error and redirects exactly once |
| `ApiReusable.ReplayFailsAgain` | santo-project/src/services/apiReusable.js:43-85 | the leader's replay, marked `_retry`, that fails with 401 again is rejected to its caller with no second refresh call; a queued replay is not marked and can start a new refresh (`TokenRefresh.QueuedReplayMayRefreshAgain`) |
| `ApiReusable.ExpiredRefreshToken` | santo-project/src/services/apiReusable.js:72-97 | a refresh answered with 401 logs the user out: the store is empty, the caller gets the refresh error and the flag is cleared |
| `Text.Strip` | dashboard/serializers.py:39 | Python's `str.strip()` with Python's whitespace set; its properties are the four lemmas below |
| `Text.StripUnchangedIff` | dashboard/serializers.py:39 | stripping leaves a string unchanged exactly when it neither starts nor ends with whitespace |
| `Text.StripEmptyIffBlank` | dashboard/serializers.py:39 | `s.strip() == ''` exactly when every character of s is whitespace |
| `Text.StripHasNoOuterSpace` | dashboard/serializers.py:39 | a stripped string neither starts nor ends with whitespace |
| `Text.StripIdempotent` | dashboard/serializers.py:39 | stripping twice is stripping once |
| `Text.DigitsOf` | santo-project/src/pages/ForgotPassword.jsx:158 | the digit filter keeps only digits, never lengthens the input, and keeps an all-digit input as it is |
| `Text.DigitsOfAppend` | santo-project/src/pages/ForgotPassword.jsx:158 | filtering a concatenation filters each part; with `DigitsOfChar` this fixes the filter on every input |
| `Text.DigitsOfChar` | santo-project/src/pages/ForgotPassword.jsx:158 | a single character is kept exactly when it is a digit |
| `Text.Decimal` | dashboard/views.py:144 | `str(n)` is a non-empty string of digits that denotes n, with no leading zero unless n is 0 |
| `Text.DecimalInjective` | dashboard/views.py:144 | two numbers print the same only when they are equal |
| `Text.DecimalOfSixDigitNumber` | dashboard/views.py:144 | every number `randint(100000, 999999)` returns prints as exactly six digits |
| `Models.IsValid` | dashboard/models.py:66-69 | `is_valid`: unused and created less than ten minutes ago; its properties are `UsedIsNeverValid`, `ExpiresAtTenMinutes` and `ExpiryIsFinal` |
| `Models.UsedIsNeverValid` | dashboard/models.py:69 | a used code is never valid |
| `Models.ExpiresAtTenMinutes` | dashboard/models.py:66-69 | an unused code is valid one microsecond before the ten-minute mark and invalid at it |
| `Models.ExpiryIsFinal` | dashboard/models.py:68-69 | once a code is invalid it stays invalid at every later time |
| `Models.Where` | dashboard/views.py:147 | `filter` yields exactly the indices of the matching rows, in increasing order |
| `Models.Get` | dashboard/views.py:175 | `get` raises `DoesNotExist` exactly when no row matches, finds the only matching row, and reports several rows exactly when two match |
| `Models.GetUser` | dashboard/views.py:139 | `User.objects.get(email=...)` raises `DoesNotExist` exactly when no user has the e-mail, and a found row has it |
| `Models.GetOtp` | dashboard/views.py:175 | `PasswordResetOTP.objects.get(email=..., otp=...)` raises `DoesNotExist` exactly when no record holds both, and a found record holds both |
| `Models.GetUserUnique` | dashboard/models.py:14 | with unique e-mails, looking up a user by e-mail finds exactly the row holding it |
| `Models.WithoutEmail` | dashboard/views.py:147 | deleting the records of an e-mail keeps only rows of other e-mails, all from the table |
| `Models.RecordsForWithoutEmail` | dashboard/views.py:147 | after the delete, the e-mail has no record and every other e-mail keeps its records |
| `Models.ReplaceRecords` | dashboard/views.py:146-150 | delete then create leaves exactly the new record for the e-mail and the other e-mails' records unchanged |
| `Models.GetOtpUnique` | dashboard/views.py:175 | with one record per e-mail, `get(email=..., otp=...)` never finds two rows |
| `Models.UsedRecordStaysFoundAndInvalid` | dashboard/views.py:205-207 | the record marked used is still the one found for its e-mail and code, and is invalid at every time |
| `Serializers.NulSurvivesStrip` | dashboard/serializers.py:16-18 | trimming neither removes nor adds a NUL, so testing the submitted value tests the trimmed one |
| `Serializers.EmailPrefix` | dashboard/serializers.py:41 | `email.split('@')[0]` is the longest prefix of the e-mail without '@', followed by '@' when shorter |
| `Serializers.EmailPrefixOfAddress` | dashboard/serializers.py:41 | the prefix of `local@domain` is `local` when `local` holds no '@' |
| `Serializers.ResolveUsername` | dashboard/serializers.py:36-41 | the username `create` passes on; `UsernameRule` states it |
| `Serializers.UsernameRule` | dashboard/serializers.py:36-41 | a missing or whitespace-only username becomes the e-mail's prefix; any other username is kept |
| `Serializers.EmailTaken` | dashboard/serializers.py:28-32 | `validate_email` refuses an e-mail some user already has; `ValidateRegistration` states its effect |
| `Serializers.RegisterErrors` | dashboard/serializers.py:15-32 | the username is in error exactly when it holds a NUL, the password exactly when it is missing, blank or holds a NUL, the e-mail exactly when it is one of those or taken |
| `Serializers.AppendNewEmail` | dashboard/models.py:14 | inserting a user whose e-mail is not taken keeps e-mails unique |
| `Serializers.ValidateRegistration` | dashboard/serializers.py:15-49 | registration succeeds exactly when e-mail and password are supplied without NUL, the e-mail is not taken and the username holds no NUL; an e-mail error is reported exactly when it is missing, blank, holds a NUL or is taken, and a username error exactly when it holds a NUL; the inserted user carries the e-mail, the resolved username and the password, is active, and keeps e-mails unique |
| `Serializers.AutoGeneratedUsername` | dashboard/tests.py:55-66 | an empty username with any address `local@domain` (the test uses `testuser@example.com`) registers as `local` |
| `Serializers.Authenticate` | dashboard/serializers.py:62-63 | authentication gives a user exactly when an active user has that e-mail and password, and then that user |
| `Serializers.ValidateLogin` | dashboard/serializers.py:52-66 | login fails with field errors, naming exactly the fields missing, blank or holding a NUL, unless both are supplied, and succeeds exactly when an active user has that e-mail and password; the result is that user |
| `Serializers.LoginAfterRegistration` | dashboard/tests.py:68-97 | a user who has just registered logs in with the same e-mail and password |
| `Views.Database.constructor` | dashboard/models.py:60-64 | both tables start empty, inside the table constraints |
| `Views.Database.Register` | dashboard/views.py:22-30 | a valid registration inserts the validated user with 200; otherwise 400 with the fields in error and no change; e-mails stay unique |
| `Views.Database.ForgotPassword` | dashboard/views.py:129-163 | no e-mail gives 400 and no user 404, both leaving the codes unchanged; otherwise the e-mail's records are replaced by one unused six-digit code, kept even when the mail fails (500) |
| `Views.Database.VerifyOtp` | dashboard/views.py:165-182 | changes nothing, and answers 200 exactly when both fields are given and a valid record holds that e-mail and code, 400 otherwise |
| `Views.Database.ResetPassword` | dashboard/views.py:184-213 | a missing field, an unknown or invalid code changes nothing (400), a missing user changes nothing (404); otherwise the user's password is set and the record marked used (200) |
| `Views.UsedRecordKeepsOnePerEmail` | dashboard/views.py:205-207 | marking a record used keeps one record per e-mail |
| `Views.PlainRegistration` | dashboard/serializers.py:28-49 | values without outer whitespace, under a new e-mail, are inserted exactly as given |
| `Views.DuplicateUsernameAllowed` | dashboard/tests.py:14-34 | two registrations with one username and two e-mails both answer 200, and two users then share the username |
| `Views.DuplicateEmailRejected` | dashboard/tests.py:36-53 | a second registration with a taken e-mail answers 400 with an e-mail error |
| `Views.ResetTwice` | dashboard/views.py:194-209 | a code resets the password once, and a second reset with the same code is refused with 400 |
| `ForgotPasswordPage.SanitizeOtp` | santo-project/src/pages/ForgotPassword.jsx:158 | the field keeps only digits, at most six of them, and they are the first digits typed, in order |
| `ForgotPasswordPage.TypeCharacter` | santo-project/src/pages/ForgotPassword.jsx:158-160 | a digit typed at the end is appended while fewer than six are shown; any other character, or a seventh digit, changes nothing |
| `ForgotPasswordPage.SanitizeOtpIdempotent` | santo-project/src/pages/ForgotPassword.jsx:158 | a filtered value passes through the filter unchanged |
| `ForgotPasswordPage.GeneratedCodePassesSanitizer` | santo-project/src/pages/ForgotPassword.jsx:158 | every code the server generates can be typed into the field as it is |
| `ForgotPasswordPage.Fallback` | santo-project/src/pages/ForgotPassword.jsx:30-79 | the message each handler shows when its post fails without an `error` text |
| `ForgotPasswordPage.StartSend` | santo-project/src/pages/ForgotPassword.jsx:16-26 | `handleSendOTP` up to its `await`; `StartSendSteps` states it |
| `ForgotPasswordPage.StartVerify` | santo-project/src/pages/ForgotPassword.jsx:36-46 | `handleVerifyOTP` up to its `await`; `StartVerifySteps` states it |
| `ForgotPasswordPage.StartReset` | santo-project/src/pages/ForgotPassword.jsx:56-75 | `handleResetPassword` up to its `await`; `StartResetSteps` states it |
| `ForgotPasswordPage.Settle` | santo-project/src/pages/ForgotPassword.jsx:27-82 | the rest of the handler whose post settles; `SettleSteps` states it |
| `ForgotPasswordPage.Back` | santo-project/src/pages/ForgotPassword.jsx:91 | the back arrow: `/login` from step 1, otherwise one step back; `BackKeepsInv` and `BackKeepsPaired` state what it keeps |
| `ForgotPasswordPage.InitialInv` | santo-project/src/pages/ForgotPassword.jsx:8-14 | the page starts at step 1 inside the invariant |
| `ForgotPasswordPage.StartSendKeepsInv` | santo-project/src/pages/ForgotPassword.jsx:16-26 | starting a code request at step 1 or 2 keeps the invariant |
| `ForgotPasswordPage.StartVerifyKeepsInv` | santo-project/src/pages/ForgotPassword.jsx:36-46 | starting a verification at step 2 keeps the invariant: a verification is posted only after some code request succeeded |
| `ForgotPasswordPage.StartResetKeepsInv` | santo-project/src/pages/ForgotPassword.jsx:56-75 | starting a reset at step 3 keeps the invariant: a reset is posted only after some verification succeeded |
| `ForgotPasswordPage.SettleKeepsInv` | santo-project/src/pages/ForgotPassword.jsx:27-82 | any pending post may settle with any reply at any step and the invariant holds: step 2 only after a successful code request, step 3 only after a successful verification |
| `ForgotPasswordPage.BackKeepsInv` | santo-project/src/pages/ForgotPassword.jsx:91 | the back arrow keeps the invariant |
| `ForgotPasswordPage.StartSendSteps` | santo-project/src/pages/ForgotPassword.jsx:16-26 | an empty e-mail shows its error and changes nothing else; otherwise the e-mail is posted and awaited, loading is shown and the message cleared; the step never changes |
| `ForgotPasswordPage.StartVerifySteps` | santo-project/src/pages/ForgotPassword.jsx:36-46 | an empty code shows its error and changes nothing else; otherwise the current e-mail and code are posted and awaited; the step never changes |
| `ForgotPasswordPage.StartResetSteps` | santo-project/src/pages/ForgotPassword.jsx:56-75 | empty or different passwords show their error and change nothing else; otherwise e-mail, code and password are posted and awaited; the step never changes |
| `ForgotPasswordPage.SettleSteps` | santo-project/src/pages/ForgotPassword.jsx:27-82 | the settled post leaves the pending list once and loading ends; a success is recorded and moves to step 2 or 3 whatever the current step, or to `/login` for a reset; a failure shows the server's error or the handler's fallback |
| `ForgotPasswordPage.InitialPaired` | santo-project/src/pages/ForgotPassword.jsx:8-14 | the page starts with no request in flight and the pairing holding |
| `ForgotPasswordPage.SettleOnly` | santo-project/src/pages/ForgotPassword.jsx:27-82 | when the handler's own post is the only one in flight, its settling leaves the page quiet, with the step the reply decides |
| `ForgotPasswordPage.SendOtpKeepsPaired` | santo-project/src/pages/ForgotPassword.jsx:16-34 | with each post settling before the next event, a code request keeps the pairing: past step 1 the current e-mail is one the server accepted |
| `ForgotPasswordPage.VerifyOtpKeepsPaired` | santo-project/src/pages/ForgotPassword.jsx:36-54 | with each post settling before the next event, at step 3 the current e-mail and code are a pair the server verified |
| `ForgotPasswordPage.ResetPasswordKeepsPaired` | santo-project/src/pages/ForgotPassword.jsx:56-83 | with each post settling before the next event, every reset carries a verified e-mail and code pair |
| `ForgotPasswordPage.BackKeepsPaired` | santo-project/src/pages/ForgotPassword.jsx:91 | the back arrow keeps the pairing |
| `ForgotPasswordPage.EditKeepsPaired` | santo-project/src/pages/ForgotPassword.jsx:133-204 | typing into the field a step shows keeps the pairing |
| `ForgotPasswordPage.BackDuringVerifyBreaksPairing` | santo-project/src/pages/ForgotPassword.jsx:36-133 | going back and changing the e-mail while a verification is in flight reaches step 3 with an e-mail and code never sent for verification, and the next reset posts that pair |
| `ForgotPasswordPage.SendOtp` | santo-project/src/pages/ForgotPassword.jsx:16-34 | `handleSendOTP` when its post settles before the next event; `SendOtpSucceeds` and `SendOtpKeepsPaired` state it |
| `ForgotPasswordPage.VerifyOtp` | santo-project/src/pages/ForgotPassword.jsx:36-54 | `handleVerifyOTP` when its post settles before the next event; `VerifyOtpSucceeds` and `VerifyOtpKeepsPaired` state it |
| `ForgotPasswordPage.ResetPassword` | santo-project/src/pages/ForgotPassword.jsx:56-83 | `handleResetPassword` when its post settles before the next event; `ResetPasswordSucceeds` and `ResetPasswordKeepsPaired` state it |
| `ForgotPasswordPage.SendOtpSucceeds` | santo-project/src/pages/ForgotPassword.jsx:16-34 | a successful code request for an entered e-mail posts it and moves to step 2 |
| `ForgotPasswordPage.VerifyOtpSucceeds` | santo-project/src/pages/ForgotPassword.jsx:36-54 | a successful verification of an entered code posts the e-mail and code and moves to step 3 |
| `ForgotPasswordPage.ResetPasswordSucceeds` | santo-project/src/pages/ForgotPassword.jsx:56-83 | a successful reset with matching passwords posts e-mail, code and password and goes to `/login` |
| `ForgotPasswordPage.ResetWizard.constructor` | santo-project/src/pages/ForgotPassword.jsx:8-14 | the page's hooks start at step 1 with empty fields and nothing posted |
| `ForgotPasswordPage.ResetWizard.ChangeEmail` | santo-project/src/pages/ForgotPassword.jsx:133 | the e-mail field stores what is typed and nothing else changes |
| `ForgotPasswordPage.ResetWizard.ChangeOtp` | santo-project/src/pages/ForgotPassword.jsx:158 | the code field stores the filtered value and nothing else changes |
| `ForgotPasswordPage.ResetWizard.ChangeNewPassword` | santo-project/src/pages/ForgotPassword.jsx:191 | the new-password field stores what is typed |
| `ForgotPasswordPage.ResetWizard.ChangeConfirmPassword` | santo-project/src/pages/ForgotPassword.jsx:204 | the confirmation field stores what is typed |
| `ForgotPasswordPage.ResetWizard.Send` | santo-project/src/pages/ForgotPassword.jsx:22-26 | `setIsLoading(true)`, `setMessage('')` and the post, recorded as sent and pending, keeping the invariant |
| `ForgotPasswordPage.ResetWizard.HandleSendOtp` | santo-project/src/pages/ForgotPassword.jsx:16-26 | the in-place handler up to its `await` performs `StartSend` and keeps the invariant |
| `ForgotPasswordPage.ResetWizard.HandleVerifyOtp` | santo-project/src/pages/ForgotPassword.jsx:36-46 | the in-place handler up to its `await` performs `StartVerify` and keeps the invariant |
| `ForgotPasswordPage.ResetWizard.HandleResetPassword` | santo-project/src/pages/ForgotPassword.jsx:56-75 | the in-place handler up to its `await` performs `StartReset` and keeps the invariant |
| `ForgotPasswordPage.ResetWizard.Resume` | santo-project/src/pages/ForgotPassword.jsx:27-82 | the handler of a pending post resumes with its reply, performs `Settle` and keeps the invariant |
| `ForgotPasswordPage.ResetWizard.GoBack` | santo-project/src/pages/ForgotPassword.jsx:91 | from step 1 the page goes to `/login`, otherwise one step back |
| `ForgotPasswordPage.HappyPath` | santo-project/src/pages/ForgotPassword.jsx:16-83 | a full reset passes through steps 2 and 3, posts the three requests in order, the reset carrying the e-mail and the filtered code, keeps the pairing and ends on `/login` |
| `ForgotPasswordPage.SequentialReset` | santo-project/src/pages/ForgotPassword.jsx:16-83 | the same for any non-empty code: three requests in order and one navigation to `/login` |
| `ForgotPasswordPage.SequentialResetPaired` | santo-project/src/pages/ForgotPassword.jsx:16-83 | the pairing holds after each of the three steps |

## Left out

- The HTTP transport of axios and its defaults merge are not modelled. A request is an id, its headers and the `_retry` mark. The refresh endpoint's answer is an input of `RefreshDone`. The refresh call is taken to use axios's default `validateStatus` (a 2xx status resolves, any other throws), since the call passes no configuration of its own.
- The `window.location.href = "/login"` redirect is counted in `redirects`; the page change itself is not modelled.
- What a caller does with a replay's own response is not modelled; a resolved queue entry records the request that is replayed.
- Real concurrency and timing are not modelled: interceptor invocations are a sequence of discrete events on one event loop, and each server view runs to completion before the next request. The server can in fact run requests in parallel: the resend link is never disabled, so two `forgot_password` requests for one e-mail can overlap, and their delete and create steps (views.py:146-150) can interleave and leave two valid codes for that e-mail. `Models.OnePerEmail`, and what `Views.Database` proves from it, holds only for views run one at a time.
- `send_mail`, `random.randint` and `timezone.now()` are not modelled. Their outcomes are parameters of `ForgotPassword`, `VerifyOtp` and `ResetPassword`: whether the mail was sent, the code drawn and the current time.
- `authenticate` is modelled by the model backend's rule (the user with that e-mail, a matching password, active). Password hashing is `Hashed(raw)`.
- `Serializers.ValidateRegistration`, `Views.Database.Register` and `Serializers.LoginAfterRegistration`: `create_user`'s `normalize_email` (lower-casing the domain) and Unicode normalisation of the username are not modelled; Django's code for them is not part of this model. This costs two behaviours:
  - With `a@b.com` registered, a registration of `a@B.com` passes `validate_email` (serializers.py:28-32), but `create_user` stores `a@b.com` and the unique constraint fails: the source answers 500 and inserts no row, while the model answers 200 and inserts a second row.
  - Registering `Bob@Example.COM` stores `Bob@example.com`, so logging in with the submitted address fails under a case-sensitive collation, while `LoginAfterRegistration` proves that it succeeds in the model.
- The e-mail format check of `EmailField` is not modelled: any non-blank string is accepted as an e-mail.
- `Views.Database.Register`: the 150-character limit on usernames is not modelled. The serializer's own `CharField` declares no maximum, so the serializer does not enforce it; the limit is the column's (`varchar(150)`, models.py:11), and the database layer is not modelled.
- The error message texts of the views and the JSON bodies of the responses are not modelled; a view's result is its status code.
- `ForgotPasswordPage.Settle`: the two-second `setTimeout` before navigating to `/login` is not modelled; the navigation is recorded when the reset succeeds.
- `disabled={isLoading}` is not modelled as a guard. It stops clicks on the send, verify and reset buttons, but the Enter key on the e-mail, code and confirmation fields and the resend link call the same handlers while a post is in flight, so the model lets a handler start whenever its step is rendered. `isLoading` itself is modelled (`Screen.loading`).
- How the runtime orders replies is not modelled: any pending post may settle next (`Settle` takes its index).
- The wizard's handlers are started only in the steps where the JSX renders their buttons and fields (send at steps 1 and 2, verify at step 2, reset at step 3, the e-mail field at step 1, the code field at step 2, the password fields at step 3). The back arrow is always rendered, and a pending post may settle at any step.
- After the page has navigated away, the model keeps applying settled replies to the page's state; React drops those updates. The `/login` navigation of a late reset is recorded either way.
- Rendering, styling and the step titles of the page are not modelled.
- `UserProfileAPI`, `get_user_profile`, the `Post` model and `dashboard/custom_user.py` are not part of this model: plain CRUD and a duplicate of the user model.
