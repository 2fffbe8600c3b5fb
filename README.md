# Login modal: phone guard, login validation and resend countdown

This project models the logic of the login modal of a packaging-design web
front end (`components/Login/index.tsx`). The modal has two tabs, password
login and SMS-code login, and its state is a handful of local fields: the
selected tab, the phone number, the password, the verification code, the
password-visibility flag, the terms checkbox and a resend countdown. It
models three pieces:

- **The "send code" guard.** A phone number whose length is not 11 raises
  an alert and changes nothing. Otherwise a code request is issued (a stub
  in the source) and a 60-second countdown starts, driven by a one-second
  interval.
- **The login validator.** The checks run in a fixed order, and the first
  failure wins. The phone length comes first, then the terms checkbox, then
  the credential of the selected tab: the password on the password tab, the
  code on the SMS tab. If all pass, the `{phoneNumber, password}` or
  `{phoneNumber, verificationCode}` request is dispatched (also a stub).
- **The countdown and the form fields.** Each firing of the interval either
  lowers the countdown by one or, at 1 or below, sets it to 0 and clears the
  interval. The resend button is enabled exactly when the countdown is 0.
  Each field setter changes its own field and nothing else. Switching tabs
  keeps both credentials, so switching back shows the earlier input.

Layout:

- `validation.dfy`, module `Validation`: the two guards as total functions.
  Their results are outcome datatypes, one value per alert and one per
  dispatched request. The module also gives a reference reading of the login
  handler: a "first failing check wins" evaluation over the ordered list of
  checks. Lemmas state the properties of both guards.
- `countdown.dfy`, module `Countdown`: the countdown as a pure state machine
  (seconds left, interval scheduled or not), with lemmas about runs of
  consecutive firings.
- `login_modal.dfy`, module `LoginModal`: class `Modal`. It has one field per
  state variable of the component and one method per handler. Every method
  says how the whole state changes, as an update of a `FormState` snapshot.
  `SendCode`, `Tick` and `Submit` are proved against the functions of the
  other two modules. `Sessions` is a client that drives the modal through
  the scenarios the design describes.

Where the design description and the code disagree, the model follows the code:

- The description asks the countdown controller to refuse a "send code"
  while a countdown is running, with an "already counting" error. The
  handler has no such guard. Only the disabled button (line 173) prevents
  it. `SendCode` therefore restarts the countdown at 60 whatever its value.
- The description speaks of "exactly 11 digits". The code checks the length
  only, so any 11 characters pass (`PhoneCheckIsLengthOnly`).
- The description asks for the interval to be cleared when the view is torn
  down. The code has no such cleanup: only the tick that reaches 0 clears
  it.

## Model

| member | source | states |
|---|---|---|
| Validation.PhoneAccepted | components/Login/index.tsx:32-35 | the guard "empty, or length not 11", as written, accepts exactly the numbers of length 11; the emptiness disjunct adds nothing |
| Validation.HandleSendCode | components/Login/index.tsx:31-45 | a code is requested exactly when the phone has length 11, and the request carries that phone; otherwise the phone alert |
| Validation.HandleLogin | components/Login/index.tsx:47-79 | decision table of the submit handler: each alert and each request is produced exactly under its condition (phone wrong; phone right and terms unticked; then the credential of the selected tab empty or not), and the request carries the phone and the tab's credential |
| Validation.FirstFailure | components/Login/index.tsx:49-71 | reference semantics of an ordered check chain: all checks pass gives the success value; otherwise the result is the failure of the first failing check |
| Validation.HandleLoginIsFirstFailure | components/Login/index.tsx:49-74 | the submit handler equals "first failing check wins" over phone, terms, tab credential, in that order |
| Validation.PhoneGuardShared | components/Login/index.tsx:31-52 | send-code and login refuse exactly the same phone numbers |
| Validation.PhoneCheckIsLengthOnly | components/Login/index.tsx:49-52 | an 11-letter non-digit string passes; the empty string and "123" are refused; "13800138000" passes |
| Validation.TermsDominateCredentials | components/Login/index.tsx:54-57 | with a valid phone and terms unticked, login fails on the terms whatever the tab, password or code |
| Validation.UnusedCredentialIgnored | components/Login/index.tsx:60-74 | the password tab never examines the code, and the SMS tab never examines the password |
| Validation.SmsMirrorsPassword | components/Login/index.tsx:60-74 | the SMS tab behaves as the password tab with the two credentials exchanged (missing-credential alerts and requests correspond) |
| Validation.AnyNonEmptyCodeAccepted | components/Login/index.tsx:67-74 | any non-empty code, of any length, passes the SMS check; the 6-character limit lives only in the input element |
| Countdown.StartedConsistent | components/Login/index.tsx:16-20 | the initial state (0, no interval) and the started state (60, interval scheduled) satisfy the countdown invariant |
| Countdown.TickPreservesConsistent | components/Login/index.tsx:21-27 | a firing keeps the countdown in [0, 60] with the interval scheduled exactly while positive, and never raises it |
| Countdown.TicksPreserveConsistent | components/Login/index.tsx:20-28 | any number of firings keeps that invariant; the countdown is never negative |
| Countdown.TicksCountDown | components/Login/index.tsx:20-28 | from a running countdown n, after k < n firings n - k seconds are left and the interval still runs; the n-th firing leaves 0 with the interval cleared |
| Countdown.IdleStaysIdle | components/Login/index.tsx:22-24 | once cleared, the interval fires no more and the state stays at 0 |
| Countdown.CountdownFromStart | components/Login/index.tsx:18-28 | from a fresh start, 60 - k seconds remain after k < 60 firings, and from the 60th firing on the state is 0 with no interval |
| Countdown.ClearedOnlyAtLastTick | components/Login/index.tsx:21-27 | the interval is cleared by the n-th firing of a countdown from n and by no earlier one |
| LoginModal.Modal.constructor | components/Login/index.tsx:10-16 | initial state: password tab, empty phone, password and code, password hidden, terms unticked, countdown 0 |
| LoginModal.Modal.SetLoginType | components/Login/index.tsx:112-121 | clicking a tab changes the tab only; phone, password, code, terms and countdown are kept |
| LoginModal.Modal.SetPhoneNumber | components/Login/index.tsx:131-137 | the phone input changes the phone only |
| LoginModal.Modal.EditCredential | components/Login/index.tsx:145-151 | the shared input writes the password on the password tab and the code on the SMS tab, and keeps the other |
| LoginModal.Modal.TogglePasswordVisibility | components/Login/index.tsx:157-160 | the eye button flips password visibility and changes nothing else |
| LoginModal.Modal.SetAgreedToTerms | components/Login/index.tsx:184-189 | the checkbox sets the terms flag only |
| LoginModal.Modal.ResendEnabled | components/Login/index.tsx:170-176 | the send-code button is enabled exactly when the countdown is 0, that is, exactly when no interval runs |
| LoginModal.Modal.SendCode | components/Login/index.tsx:18-45 | result is the send-code guard's; a refused phone leaves every field, the countdown included, unchanged; a valid one sets the countdown to 60 with the interval scheduled and changes nothing else |
| LoginModal.Modal.Tick | components/Login/index.tsx:20-28 | one firing is the state machine's tick: at 1 or below the countdown becomes 0 and the interval is cleared, otherwise it drops by one; the countdown strictly decreases; nothing else changes |
| LoginModal.Modal.RunTimer | components/Login/index.tsx:20-28 | the interval fires exactly as many times as there were seconds left, ends at 0 with no interval, and its end state is that many ticks of the state machine |
| LoginModal.Modal.Submit | components/Login/index.tsx:47-79 | the submit handler's early returns produce exactly the outcome of the validator function, and change no state |

## Left out

- Rendering, styling, images, the close button and the `isOpen` / `onClose` props (lines 81-217, apart from the handlers and the enable rule above). They are presentation only.
- `alert`, `console.log` and `console.error`. Each alert or logged request is the value returned by the handler.
- The `try` / `catch` blocks of both handlers. Nothing inside them can throw, because the requests are stubs.
- The login and code-delivery requests themselves. They are stubs in the source and not part of this model.
- Real `setInterval` / `clearInterval` scheduling and wall-clock time. The interval is the `timerRunning` flag, and each firing is an explicit `Tick`.
- LoginModal.Modal.SendCode: if it is called while a countdown runs, the source schedules a second interval beside the first, and the two then both fire. The model keeps one flag and restarts that one countdown at 60. The UI never does this, because the button is disabled while the countdown is positive.
- Validation.PhoneAccepted: lengths count Unicode characters. JavaScript counts UTF-16 code units, so a character outside the Basic Multilingual Plane counts twice in the source.
- The `maxLength` limits of the inputs (11 for the phone, 6 for the code). The browser enforces them on typing, and no handler checks them. `SetPhoneNumber` and `EditCredential` accept any string.
- The input type and label choices (password masked or shown, the resend button's countdown caption). They are presentation derived from the modelled fields.
- The design-options modal (`components/Design/index.tsx`) and the navigation rail (`components/LeftNavigation/index.tsx`) are not part of this model. They are presentation with single-field setters and a logging stub.
