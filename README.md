# NutriJel sign-up: credential submission model

A Dafny model of the logic inside the `SignUp` component of NutriJel's
registration page (`src/pages/Register.jsx`): the draft of the four form
fields and its copy-on-write field update, the two reveal toggles, the local
password checks in `handleSubmit`, and the two submission handlers (e-mail sign-up and
Google sign-in) with their effects on the inline error, the `loading` flag,
local storage, the toast notifications and the delayed navigation.

Files:

- `Draft.dfy` (module `FormDraft`): the `Draft` record, `WithField`
  (`handleChange`) and `Validate` with `Violations`, a reference list of every
  rule a draft breaks, in rule order.
- `Submission.dfy` (module `Submission`): the handlers as data. Each statement
  a handler executes is an `Event` (`setError`, `setLoading`, the provider
  call, `localStorage.setItem` / `removeItem`, `toast`, `setTimeout`);
  `AttemptEffects`, `SubmitEffects` and `GoogleEffects` list the Events of one
  attempt in order; `Run` folds Events over a `Form` snapshot of the
  component's state. The lemmas state what an attempt leaves behind and how its
  Events are ordered and counted.
- `SignUp.dfy` (module `SignUpPage`): class `SignUp`, whose fields are the
  component's state (`formData`, `showPassword`, `showConfirmPassword`,
  `error`, `loading`), local storage (`storage`), the toasts shown
  (`notifications`) and the navigations waiting on a timer (`pendingNav`).
  `HandleSubmit`, `HandleGoogleSignup` and the shared `Attempt` and `Settle`
  update those fields step by step and append what they did to the ghost log
  `effects`; each one's postcondition is that `effects` grew by exactly its
  Event list and that the new state is `Run` of the old state over that list.
  `HandleChange` and the two toggles state their new state directly (through
  `WithField` or a flipped flag) and leave `effects` unchanged, as their
  `modifies` frames show. Three client methods walk the
  scenarios of a mismatched pair, a short pair and a reject-then-accept retry.

External collaborators become inputs or records: the awaited result of
`signup(email, password, displayName)` or `loginWithGoogle()` is an `Outcome`
argument (`Success` or `Failure(message)`), the provider call itself is a
`Called` Event carrying its arguments, `toast` is an entry of
`notifications`, `setTimeout(() => navigate("/home"), 1500)` is an entry of
`pendingNav`, and `localStorage` is the `storage` map.

`isAuthenticated` is stored as the string `"true"` and `isExploring` is
removed as a key, so local storage is a string-to-string map.

## Model

| member | source | states |
|---|---|---|
| FormDraft.WithField | src/pages/Register.jsx:23-28 | the named field holds the new value and each of the other three fields keeps its old value |
| FormDraft.Validate | src/pages/Register.jsx:33-39 | the result is the first entry of the reference rule list (Valid when none is broken); a mismatch always gives "Passwords do not match", a matching pair shorter than 6 gives "Password must be at least 6 characters", and the draft is accepted exactly when the pair matches and has length at least 6 |
| FormDraft.MismatchWinsOverLength | src/pages/Register.jsx:33-39 | a draft breaking both rules has both on record, yet only the mismatch is reported, because it is checked first |
| FormDraft.ValidateIgnoresOtherFields | src/pages/Register.jsx:33-39 | editing the display name or e-mail never changes `Validate`'s verdict: only the password fields are checked locally |
| Submission.DefaultFailureMessage | src/pages/Register.jsx:70-122 | each path's fallback error message, the e-mail one at :70 and the Google one at :122, is non-empty |
| Submission.FailureMessage | src/pages/Register.jsx:70 | `error.message || fallback`: the provider's message when non-empty, otherwise the fallback, so never empty when the fallback is not |
| Submission.ErrorMessage | src/pages/Register.jsx:69-122 | the message a failed attempt surfaces, computed at :70 for e-mail and :122 for Google, is never empty, is the provider's own message whenever that is non-empty, and is the path's fallback when the provider gives none |
| Submission.SuccessMessage | src/pages/Register.jsx:51-103 | the success toast text of each path as written in the source, the e-mail one at :51 and the Google one at :103; neither is empty |
| Submission.Apply | src/pages/Register.jsx:41-89 | the state after one handler statement: each Event writes the one piece of state its statement writes |
| Submission.ApplyFrame | src/pages/Register.jsx:41-89 | an Event never changes the draft or toggles; only `setError` changes the error, only `setLoading` changes `loading`, only the storage calls change storage, and toasts and timers each append exactly what the Event carries |
| Submission.OutcomeEffects | src/pages/Register.jsx:45-86 | the Events after the provider call settles, in source order; the same holds on the Google path at :97-137 |
| Submission.OutcomeOrder | src/pages/Register.jsx:45-86 | on success: set `isAuthenticated`, remove `isExploring`, a success toast, the `/home`@1500 timer; on failure: the inline error, then an error toast with the same message; the same holds on the Google path at :97-137 |
| Submission.AttemptEffects | src/pages/Register.jsx:41-89 | the Events of the shared try/catch and trailing reset, in source order; the same holds on the Google path at :93-140 |
| Submission.AttemptOrder | src/pages/Register.jsx:41-89 | clear the error, set `loading`, call the provider, the outcome's Events, then reset `loading` last; the same holds on the Google path at :93-140 |
| Submission.SubmitEffects | src/pages/Register.jsx:30-90 | the Events of `handleSubmit`, in source order: the checks first, then the attempt |
| Submission.SubmitOrder | src/pages/Register.jsx:30-90 | a rejected draft's only Event is setting the reason; an accepted draft clears the error, sets `loading` and calls `signup(email, password, displayName)` |
| Submission.GoogleEffects | src/pages/Register.jsx:92-141 | the Events of `handleGoogleSignup`, in source order, with no checks |
| Submission.GoogleOrder | src/pages/Register.jsx:92-141 | the federated call comes right after clearing the error and setting `loading`, and the attempt has 8 Events on success and 6 on failure, as the e-mail attempt |
| Submission.Run | src/pages/Register.jsx:30-141 | no handler Event changes the draft or either reveal toggle, whatever the sequence of Events |
| Submission.RunAppend | src/pages/Register.jsx:41-89 | running two Event lists in a row is running their concatenation: the handlers' effects compose step by step |
| Submission.AttemptRuns | src/pages/Register.jsx:41-89 | an attempt clears the error and sets `loading` before the call, runs the outcome's effects, and always ends by resetting `loading`; the same holds on the Google path at :93-140 |
| Submission.OutcomeRuns | src/pages/Register.jsx:45-86 | the settled call's Events leave exactly the success or failure state of `Settled`; the same holds on the Google path at :97-137 |
| Submission.SuccessRuns | src/pages/Register.jsx:45-68 | after a successful call: `isAuthenticated` set to "true", `isExploring` removed, one success toast of 5000 ms, one navigation to "/home" after 1500 ms, and nothing else changed; the same holds on the Google path at :97-120 |
| Submission.FailureRuns | src/pages/Register.jsx:69-86 | after a failed call: the inline error and one error toast of 5000 ms carry the same message; storage and pending navigations unchanged; the same holds on the Google path at :121-137 |
| Submission.AttemptSucceeds | src/pages/Register.jsx:41-89 | a successful attempt ends with error "", `loading` false, the session flags written, exactly one success toast and exactly one pending navigation added, all else unchanged; the same holds on the Google path at :93-140 |
| Submission.AttemptFails | src/pages/Register.jsx:69-89 | a failed attempt ends with `loading` false, the inline error equal to the one added error toast's message, storage and pending navigations untouched; the same holds on the Google path at :121-140 |
| Submission.AttemptCallsOnce | src/pages/Register.jsx:42-44 | every attempt calls the provider exactly once with the given arguments, and writes `loading` exactly twice: true, then false; the same holds on the Google path at :94-96 |
| Submission.OutcomeQuiet | src/pages/Register.jsx:45-86 | the Events after the provider call settles never call the provider again and never write `loading`; the same holds on the Google path at :97-137 |
| Submission.AttemptNotifiesOnce | src/pages/Register.jsx:51-73 | every attempt shows exactly one toast: the path's success toast, or an error toast with the surfaced message, each for 5000 ms; the same holds on the Google path at :103-125 |
| Submission.AttemptNavigatesOnlyOnSuccess | src/pages/Register.jsx:66-68 | one navigation to "/home" with delay 1500 is queued on success and none on failure; the same holds on the Google path at :118-120 |
| Submission.AttemptStoresOnlyOnSuccess | src/pages/Register.jsx:46-48 | storage is written only on success: set `isAuthenticated`, then remove `isExploring`; never on failure; the same holds on the Google path at :98-100 |
| Submission.NavigationAfterNotification | src/pages/Register.jsx:51-68 | on success the 6th Event is the success toast and the 7th the `/home`@1500 navigation, and no other Event is either, so the navigation is queued strictly after the toast; the same holds on the Google path at :103-120 |
| Submission.LoadingDuringAttempt | src/pages/Register.jsx:43-89 | `loading` is true from its set through the provider call and the whole outcome handling, and false once the attempt is over; the same holds on the Google path at :95-140 |
| Submission.SubmitRejected | src/pages/Register.jsx:33-39 | a rejected draft's only Event is setting the error to the reason: no provider call, `loading`, storage, toasts and navigation unchanged |
| Submission.SubmitAccepted | src/pages/Register.jsx:41-89 | an accepted draft calls `signup(email, password, displayName)` exactly once, in that argument order, and ends in `Attempted` for the e-mail path: the outcome's state over the opened one, with `loading` reset |
| Submission.GoogleAttempt | src/pages/Register.jsx:92-141 | the Google path, with no validation, calls the federated sign-in exactly once and ends in `Attempted` for the Google path, the same shape as the e-mail path with its own messages |
| SignUpPage.SignUp.constructor | src/pages/Register.jsx:10-19 | the component starts with an empty draft, both toggles off, no error, not loading, no toasts and no pending navigation |
| SignUpPage.SignUp.HandleChange | src/pages/Register.jsx:23-28 | only `formData` changes, to the old draft with the named field replaced |
| SignUpPage.SignUp.TogglePassword | src/pages/Register.jsx:242 | only `showPassword` flips; the draft and everything else stay as they were |
| SignUpPage.SignUp.ToggleConfirmPassword | src/pages/Register.jsx:263 | only `showConfirmPassword` flips; the draft and everything else stay as they were |
| SignUpPage.SignUp.Attempt | src/pages/Register.jsx:41-89 | the shared try/catch: the log grows by exactly the attempt's Events, the new state is those Events run over the old one, and `loading` ends false |
| SignUpPage.SignUp.Settle | src/pages/Register.jsx:45-86 | the post-call part of the try block or the catch block: the log grows by exactly the outcome's Events and the new state is their run |
| SignUpPage.SignUp.HandleSubmit | src/pages/Register.jsx:30-90 | the log grows by exactly the submit's Events (validation first), the new state is their run over the old one, the draft is untouched and `loading` ends false |
| SignUpPage.SignUp.HandleGoogleSignup | src/pages/Register.jsx:92-141 | the log grows by exactly the Google attempt's Events, the new state is their run over the old one, the draft is neither validated nor changed, and `loading` ends false |

## Left out

- Exceptions after the provider call: the `try` blocks at
  src/pages/Register.jsx:41-68 and :93-120 also wrap `localStorage.setItem`,
  `localStorage.removeItem`, `toast.success` and `setTimeout`. If one of those
  throws (a storage `SecurityError` or `QuotaExceededError`, say), the `catch`
  block runs even though the account already exists: the exception's message is
  shown and no navigation is queued. The model lets only the provider call fail.
- Submission.LoadingDuringAttempt and SignUpPage.SignUp.Attempt: `loading`
  ending false is proved for rejections that carry an error object. A rejection
  with `null` or `undefined` makes `error.message` at src/pages/Register.jsx:70
  or :122 throw inside the `catch`, so `setLoading(false)` at :89 or :140 never
  runs and `loading` stays true; such rejections are not modelled.
- Rendering (JSX markup, Tailwind classes, framer-motion animations, the back
  button, links): presentation without logic.
- Toast styling and position and the `<Toaster/>` component: only kind,
  message and duration are recorded.
- Timers and asynchronous suspension: `setTimeout` is a recorded pending
  navigation that the model never fires; the awaited provider call is an
  `Outcome` argument; event-loop interleaving is not modelled.
- Re-entrancy: the handlers themselves do not guard against a second submit
  while `loading` is true; `requires !loading` stands for the disabled buttons.
  Since the model has no suspension point, `loading` is observable as true only
  in the Event log, between `LoadingSet(true)` and `LoadingSet(false)`.
- React details: batched and asynchronous `setState`, the stale-closure
  `formData` spread in `handleChange`, and `e.preventDefault()` at
  src/pages/Register.jsx:31, which only stops the browser's own form
  submission; updates are sequential assignments.
- `console.error` diagnostics in both catch blocks: foreign I/O.
- The identity provider, local storage, `useAuth`, `useNavigate` and
  `window.history.back` as real calls: they are inputs or recorded effects.
- Field names: `handleChange` is modelled for the four names the inputs carry;
  an event with any other `name` (which would add an unrelated key to
  `formData`) is not modelled.
- Failure messages: a thrown value whose `message` is missing or empty is
  `Failure("")`; both are falsy in `error.message || default`, so both take the
  default.
- String length: JavaScript's `.length` counts UTF-16 code units; the model
  uses the length of a Dafny `string`.
