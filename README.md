# learnMatrix client logic, modelled in Dafny

learnMatrix is a learning-tracker web application. Most of it is page markup
and glue around a hosted identity provider (Clerk) and a hosted database
(Supabase). This project models the few pieces of self-contained decision
logic and proves properties of them:

- **Focus-timer demo** (`FocusTimer`, `focus_timer.dfy`): the landing page's
  countdown. Its state is `timeLeft` and `isActive`, kept in a `Timer` class
  with tick, play/pause and reset handlers. `formatTime` renders the seconds as
  `MM:SS`, with JavaScript's `Math.floor`, truncating `%`, `toString` and
  `padStart` written out.
- **Onboarding wizard** (`Onboarding`, `onboarding.dfy`): a dialog over a fixed
  four-entry step table. It opens after a delay unless completion was stored,
  and it stores completion in `localStorage`. The `Dialog` class holds `step`,
  `open` and the pending opening, and it shares the store.
- **Mock API client** (`Api`, `api.dfy`): `getHeaders` over the
  stored token, `handleResponse`, and the mock `auth.login`, `auth.register`
  and `auth.logout`.
- **Authentication context** (`AuthContext`, `auth_context.dfy`): the name
  split in `register`, the role defaulting after the backend lookup, the
  early exits of `login`, `register` and `loginWithProvider`, and the
  `useAuth` guard.
- **Common** (`common.dfy`): an option type, JavaScript truthiness of a
  string-or-null, and `localStorage` as a class over a `map<string, string>`.

Each stateful widget has two layers. A datatype with pure transition functions
(`AfterTick`, `AfterNext`, …) is what the lemmas are about. A class has
methods whose `ensures` equate the new state with the function of the old
state.

Time is an input. Each firing of the one-second interval is a call to
`Timer.Tick`. The onboarding delay is `Dialog.Mount` followed later by
`Dialog.OpenTimerFires`. The outcomes of the identity provider's calls
(`signIn.create`, `signUp.create`, the awaited `setActive`,
`authenticateWithRedirect`), of the token fetch and of the backend role
lookup are parameters.

The onboarding table `STEPS` (`onboarding.dfy`) reproduces the four entries
of client/src/components/Onboarding.tsx:8-33: their titles, descriptions and
colours, in order.

The demo timer is not the Pomodoro page's timer. At zero it keeps
`isActive == true` and ticks do nothing: it never stops itself, counts no
pomodoros and switches no modes. The model follows the demo's code here.

## Model

| member | source | states |
|---|---|---|
| FocusTimer.Initial | client/src/components/landing/InteractiveDemo.tsx:10-11 | The timer starts paused at 1500 seconds. |
| FocusTimer.AfterTick | client/src/components/landing/InteractiveDemo.tsx:13-19 | A tick changes the state exactly when the timer is active and above zero; it then lowers `timeLeft` by one, never changes `isActive`, and never takes a non-negative count below zero. |
| FocusTimer.AfterPlayPause | client/src/components/landing/InteractiveDemo.tsx:62 | Play/pause flips `isActive` and keeps `timeLeft`. |
| FocusTimer.AfterReset | client/src/components/landing/InteractiveDemo.tsx:70-73 | Reset yields the initial state (paused, 1500) from any state. |
| FocusTimer.PlayPauseTwice | client/src/components/landing/InteractiveDemo.tsx:62 | Two presses of play/pause restore the state. |
| FocusTimer.ResetIdempotent | client/src/components/landing/InteractiveDemo.tsx:70-73 | Resetting twice is resetting once. |
| FocusTimer.TicksStayNonNegative | client/src/components/landing/InteractiveDemo.tsx:15-16 | From a non-negative count, any number of ticks keeps `timeLeft` between 0 and its start and leaves `isActive` unchanged. |
| FocusTimer.TicksWhenStopped | client/src/components/landing/InteractiveDemo.tsx:15 | A paused timer, or one at zero, is unchanged by any number of ticks. |
| FocusTimer.TicksCountDown | client/src/components/landing/InteractiveDemo.tsx:15-16 | An active timer after `n <= timeLeft` ticks shows exactly `timeLeft - n` and is still active. |
| FocusTimer.TicksSaturateAtZero | client/src/components/landing/InteractiveDemo.tsx:15-16 | An active timer ticked at least `timeLeft` times ends at 0 and stays active (no automatic stop). |
| FocusTimer.ResetPlayCountDown | client/src/components/landing/InteractiveDemo.tsx:62-73 | From any state, reset, play and `n <= 1500` ticks give an active timer at `1500 - n`. |
| FocusTimer.Digits | client/src/components/landing/InteractiveDemo.tsx:24 | `toString` of a natural number yields decimal digits whose value is the number, with no leading zero, one digit exactly below 10 and two exactly in 10..99. |
| FocusTimer.NumberToString | client/src/components/landing/InteractiveDemo.tsx:24 | `toString` of an integer is its digits, behind a minus sign when negative. |
| FocusTimer.PadStart | client/src/components/landing/InteractiveDemo.tsx:24 | `padStart` keeps the string as a suffix and fills on the left with the fill character up to the width. |
| FocusTimer.JsRemainder | client/src/components/landing/InteractiveDemo.tsx:23 | `%` gives a remainder with the sign of the dividend, of magnitude below the divisor. |
| FocusTimer.Pad2Digits | client/src/components/landing/InteractiveDemo.tsx:24 | Padding a number's digits to two characters keeps its value and gives length 2 below 10. |
| FocusTimer.FormatTime | client/src/components/landing/InteractiveDemo.tsx:21-25 | `formatTime` of any integer is at least five characters long and starts with a minus sign exactly when the count is negative. |
| FocusTimer.FormatTimeIsClock | client/src/components/landing/InteractiveDemo.tsx:22-24 | For a non-negative count the text is the padded digits of `s div 60`, a colon and the padded digits of `s mod 60`. |
| FocusTimer.FormatTimeShape | client/src/components/landing/InteractiveDemo.tsx:21-25 | For non-negative seconds the text is minutes (value `s div 60`), a colon, then exactly two digits with value `s mod 60` in 00..59. |
| FocusTimer.FormatTimeLength | client/src/components/landing/InteractiveDemo.tsx:21-25 | For 0 <= s < 6000 the text has length 5. |
| FocusTimer.FormatTimeRoundTrip | client/src/components/landing/InteractiveDemo.tsx:22-24 | Reading the two fields back as `minutes * 60 + seconds` recovers the non-negative input. |
| FocusTimer.FormatTimeNegative | client/src/components/landing/InteractiveDemo.tsx:22-24 | With JavaScript's operators, -1 renders as `-1:-1`. |
| FocusTimer.Timer.constructor | client/src/components/landing/InteractiveDemo.tsx:10-11 | A new timer is in the initial state, with the count between 0 and 1500. |
| FocusTimer.Timer.Tick | client/src/components/landing/InteractiveDemo.tsx:15-16 | The interval callback updates the fields as `AfterTick` does and keeps the count between 0 and 1500. |
| FocusTimer.Timer.PlayPause | client/src/components/landing/InteractiveDemo.tsx:62 | The play/pause handler updates the fields as `AfterPlayPause` does and leaves the count's range as it was. |
| FocusTimer.Timer.Reset | client/src/components/landing/InteractiveDemo.tsx:70-73 | The reset handler updates the fields as `AfterReset` does, which brings the count back into 0..1500. |
| FocusTimer.Timer.Display | client/src/components/landing/InteractiveDemo.tsx:54 | The face shows `formatTime(timeLeft)`; it reads back as the remaining seconds whenever they are non-negative, and within the timer's 0..1500 range it is always five characters `MM:SS` with the minutes and the seconds below 60. |
| Onboarding.Initial | client/src/components/Onboarding.tsx:36-37 | The wizard starts at step 0 with the dialog closed and nothing scheduled. |
| Onboarding.AfterMount | client/src/components/Onboarding.tsx:39-46 | Mounting schedules the opening exactly when the stored flag is missing or empty, and changes nothing else. |
| Onboarding.AfterOpenTimer | client/src/components/Onboarding.tsx:43 | The delay opens the dialog exactly when an opening was scheduled; step and store are unchanged. |
| Onboarding.AfterComplete | client/src/components/Onboarding.tsx:56-59 | Completion stores `"true"` under the completion key, closes the dialog, keeps the step and leaves every other key as it was. |
| Onboarding.AfterNext | client/src/components/Onboarding.tsx:48-54 | Before the last step `handleNext` advances the step by one and touches nothing else; at the last step it completes; a valid step stays valid. |
| Onboarding.AfterOpenChange | client/src/components/Onboarding.tsx:64 | Closing the dialog completes; opening it changes nothing. |
| Onboarding.ButtonLabel | client/src/components/Onboarding.tsx:89-93 | The button reads "Get Started" exactly at the last step and "Next" otherwise. |
| Onboarding.Dots | client/src/components/Onboarding.tsx:79-83 | There is one dot per step, and dot `i` is highlighted exactly when `i` is the current step. |
| Onboarding.ExactlyOneDot | client/src/components/Onboarding.tsx:79-83 | Exactly one dot, the current step's, is highlighted. |
| Onboarding.OpensOnlyWhenNotCompleted | client/src/components/Onboarding.tsx:39-46 | After mount and delay the dialog is open exactly when the flag is missing or empty. |
| Onboarding.CompleteIdempotent | client/src/components/Onboarding.tsx:56-59 | Completing twice is completing once. |
| Onboarding.PressesFrom | client/src/components/Onboarding.tsx:48-54 | From a valid step, `k` presses reach step `min(step + k, 3)`; the step stays in range; store and dialog are untouched until the last step is pressed, and then completion is stored and the dialog is closed. |
| Onboarding.Dialog.constructor | client/src/components/Onboarding.tsx:36-37 | A new dialog is in the initial state over the shared store. |
| Onboarding.Dialog.Current | client/src/components/Onboarding.tsx:67-74 | The displayed title, description and colour are the table entry at the current step. |
| Onboarding.Dialog.Mount | client/src/components/Onboarding.tsx:39-46 | The mount effect reads the store and updates the state as `AfterMount` does. |
| Onboarding.Dialog.OpenTimerFires | client/src/components/Onboarding.tsx:43 | The delayed callback updates the state as `AfterOpenTimer` does. |
| Onboarding.Dialog.HandleComplete | client/src/components/Onboarding.tsx:56-59 | Writes the store and closes the dialog as `AfterComplete` does. |
| Onboarding.Dialog.HandleNext | client/src/components/Onboarding.tsx:48-54 | Updates the state and store as `AfterNext` does and keeps the step in range. |
| Onboarding.Dialog.OnOpenChange | client/src/components/Onboarding.tsx:64 | Updates the state and store as `AfterOpenChange` does. |
| Common.LocalStorage.GetItem | client/src/components/Onboarding.tsx:40 | `getItem` returns the stored value, or null exactly when the key is absent. |
| Common.LocalStorage.SetItem | client/src/components/Onboarding.tsx:57 | `setItem` replaces the one key's value. |
| Common.LocalStorage.RemoveItem | src/services/api.ts:68 | `removeItem` removes the one key. |
| Api.GetHeaders | src/services/api.ts:18-24 | Content type is always JSON; Authorization is `"Bearer " + token` when a non-empty token is stored and empty otherwise. |
| Api.Logout | src/services/api.ts:67-69 | Logout removes only the token key, after which the Authorization header is empty. |
| Api.Login | src/services/api.ts:36-59 | Login echoes the email and yields the admin role exactly for the exact admin pair; it never fails. |
| Api.LoginAdmin | src/services/api.ts:40-45 | The admin pair gets id `admin-1`, role admin and `mock-admin-token`. |
| Api.LoginUser | src/services/api.ts:47-52 | The user pair gets id `user-1`, role user and `mock-user-token`. |
| Api.LoginOther | src/services/api.ts:54-58 | Every other pair, a right email with a wrong password included, gets the demo user with id `1` and `mock-jwt-token`. |
| Api.Register | src/services/api.ts:60-66 | Register always yields role user with the given name and email, id `1` and `mock-jwt-token`. |
| Api.ErrorMessage | src/services/api.ts:28 | An error body that does not parse contributes "An error occurred"; a parsed one contributes the value of its `message` field exactly when it has one. |
| Api.HandleResponse | src/services/api.ts:26-32 | A failed status always throws an `Error`; a successful one returns the parsed body, or throws the parse failure. |
| Api.FailedStatusMessage | src/services/api.ts:27-29 | On a failed status the message is the body's non-empty `message`, else "API request failed", and "An error occurred" for a body that does not parse. |
| AuthContext.SplitOnSpace | client/src/context/AuthContext.tsx:82 | `split(' ')` gives at least one piece, no piece holds a space, and there is one piece exactly when the name has no space. |
| AuthContext.JoinWithSpace | client/src/context/AuthContext.tsx:83 | `join(' ')` of no pieces is empty, and two or more pieces are separated by a space right after the first piece. |
| AuthContext.FirstName | client/src/context/AuthContext.tsx:82 | The first name never holds a space. |
| AuthContext.LastName | client/src/context/AuthContext.tsx:83 | The last name is empty for a name without a space and shorter than the name otherwise. |
| AuthContext.JoinSplit | client/src/context/AuthContext.tsx:82-83 | Joining the pieces with single spaces gives back the name. |
| AuthContext.FirstNameIsPrefix | client/src/context/AuthContext.tsx:82 | The first name is the text before the first space and holds no space. |
| AuthContext.NameRoundTrip | client/src/context/AuthContext.tsx:82-83 | With a space, first name + " " + last name is the name; without one, the first name is the whole name and the last name is empty. |
| AuthContext.SignUpRequest | client/src/context/AuthContext.tsx:79-84 | Sign-up receives the email and password unchanged and the first/last names of the split. |
| AuthContext.ResolvedRole | client/src/context/AuthContext.tsx:39-49 | The role is the backend's non-empty role on a successful lookup and `'user'` on every failure; it is never empty. |
| AuthContext.UserUpdate | client/src/context/AuthContext.tsx:28-54 | No provider user gives a null context user; a failed token fetch leaves the state unset; otherwise the provider user is kept with the role `ResolvedRole` gives. |
| AuthContext.AttemptEffect | client/src/context/AuthContext.tsx:64-73 | A complete attempt activates its `createdSessionId` (when `setActive` exists) and goes to the dashboard; an incomplete one does nothing; a rejected attempt, or a rejected activation, throws the error's long message (empty when absent) without going to the dashboard. |
| AuthContext.Login | client/src/context/AuthContext.tsx:56-74 | `login` sends nothing and does nothing unless sign-in is ready; then it signs in with the email as identifier and the password, and acts on the outcome as `AttemptEffect` says. |
| AuthContext.Register | client/src/context/AuthContext.tsx:76-96 | `register` sends nothing and does nothing unless sign-up is ready; then it signs up with exactly the fields `SignUpRequest` builds from the name, email and password, and acts on the outcome as `AttemptEffect` says. |
| AuthContext.LoginWithProviderEffect | client/src/context/AuthContext.tsx:98-122 | Nothing unless sign-in is ready; a signed-in user goes to the dashboard without OAuth; otherwise the browser leaves for the provider (callback `/sso-callback`, then `/dashboard`) exactly when the redirect succeeds, goes to the dashboard exactly on a `session_exists` failure, and rethrows exactly on any other failure. |
| AuthContext.UseAuth | client/src/context/AuthContext.tsx:149-155 | `useAuth` throws exactly when there is no provider value, and otherwise returns it. |
| AuthContext.AuthState.constructor | client/src/context/AuthContext.tsx:23 | The context user starts as null. |
| AuthContext.AuthState.OnClerkUserChange | client/src/context/AuthContext.tsx:28-54 | The effect sets the user state as `UserUpdate` says, and to null when there is no provider user. |

## Left out

- Real time: the one-second `setInterval`, the one-second onboarding `setTimeout`, the 500 ms mock delays, and cancelling them on cleanup. Ticks and the delayed opening are discrete events.
- Unmounting the timer or the wizard is not modelled: after unmount no further events arrive.
- Rendering and animation of every component, and the step icons of the onboarding table. The table keeps titles, descriptions and colours.
- The identity provider's calls (`signIn.create`, `signUp.create`, `setActive`, `authenticateWithRedirect`, `getToken`) and the role lookup `fetch` are not modelled; their outcomes are parameters.
- AuthContext: the context's `logout` (sign out, then go to `/login`) has no decision in it and is not modelled. Neither are `isLoading`, `getToken` or the constant `token: null`.
- AuthContext.Login: an error without an `errors` array would make the handler itself throw a `TypeError`. The model takes the error's first long message as present or absent.
- AuthContext.Register: the same `TypeError` path as `login`, for an error without an `errors` array, is not modelled.
- Logging: the `console.error` calls of the authentication context (AuthContext.tsx lines 43, 47, 68, 71, 90, 93 and 119) have no effect on state and are not modelled.
- AuthContext.UserUpdate: it describes one run of the effect in isolation. An earlier lookup finishing after a later change of the provider's user is not modelled.
- Api.HandleResponse: JSON bodies are objects with string fields. A non-string `message` is not modelled.
- JavaScript numbers are modelled as unbounded integers: the exponent form `toString` uses from 1e21 on, and the loss of exactness beyond 2^53, are not modelled. The demo only renders counts in 0..1500.
- The mock dashboard, activity and roadmap endpoints of the API client return fixed data, timestamps and random ids, and are not modelled.
- The server (controllers, middleware, routes, database clients), the sound helper and the navigation components are glue over remote services or browser APIs.
- The separate Pomodoro page, with its modes and per-task pomodoro counts, is not part of this model.
