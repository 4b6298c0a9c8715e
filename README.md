# Device-authorization card of the setup wizard

The setup page of the chat gateway lets an operator sign in to an OpenAI
Codex account through the OAuth device-code flow. The page asks the local
control server to start a device-auth session. It then shows the
verification URL and the user code. A repeating timer asks the server for the
session's status every 1.5 s. A `done` status ends in a success panel, an
`error` status ends in an error panel, and a budget of 200 ticks ends in a
timeout message. Cancel, retry and picking another auth method reset the card.

The same page filters the auth-method list. Interactive methods (terminal or
browser OAuth) are hidden until the operator picks the "show all" entry. The
page also checks a backup archive before uploading it.

This project models these three parts of `src/public/setup-app.js`:

- `DeviceAuth` (device_auth.dfy) is the card as a pure state machine. It holds
  the session id, the timer handle, the run's tick counter and panel
  visibility. It also holds the browser state the handlers rely on: the
  running timers, the next timer handle, and the handlers waiting on an
  `await`. There is one function per handler, an invariant `Inv`, and runs of
  events (`Run`, `Ticks`).
- `DeviceAuthProps` (device_auth_props.dfy) holds the properties of that
  machine. At most one timer runs. A run issues at most 200 status requests.
  Transient failures are silent. `done`, `error` and timeout end the run.
  Cancel, retry and choice changes reset the card. It also proves scenarios
  of whole flows.
- `DeviceAuthCard` (device_auth_card.dfy) is the page itself. Its class `Card`
  has the page's variables as fields and one method per handler and helper.
  Each method is proved to change the fields exactly as its `DeviceAuth`
  function says, and each handler is also proved to keep `Inv`.
- `AuthOptions` (auth_options.dfy) holds the option filter, the group lookup
  and the class `AuthMenu`. The class holds the "show all" flag and the two
  select lists.
- `BackupImport` (backup_import.dfy) holds the file checks made before an
  import.
- `Text` and `Wrappers` are helpers: ASCII lower-casing, substring and suffix
  tests, decimal digits, and `Option`.

Start and cancel both `await` a request. Each is modelled as two events: the
click, then the settling of the request. Other events can happen in between.
While a start request is out, the start button is disabled, so a second start
cannot begin. A poll tick is one atomic event: the status request and the
handling of its reply happen together.

Behaviours of the code worth knowing:

- A refused start shows `String(new Error(msg))`, i.e. `"Error: " + msg`
  (`"Error: rate_limited"`), not the bare server message.
- Nothing guards a status reply against a cancel or a stop that came first.
  The code uses `setInterval`, so ticks do not wait for the previous reply.
  The model makes ticks atomic, so it claims neither a guard nor "one request
  in flight".
- Only an outstanding start request blocks a new start. A start during a
  running poll replaces the session and the timer. `startDeviceAuthPolling`
  stops the old timer first.
- There is no separate phase variable. The phase is the visibility of the
  step 1, step 2 and step 3 panels and of the success and error elements
  inside step 3. Retry hides step 3 but not the error element inside it. So
  after fail, retry, start and `done`, the success element and the old error
  show together (`RetryThenSuccessShowsStaleError`).
- Choosing a device-auth provider again while a run is polling shows step 1,
  but polling continues (`DeviceProviderShowsStep1`).

## Model

| member | source | states |
|---|---|---|
| AuthOptions.FilterOptions | src/public/setup-app.js:35-55 | the loop returns exactly the kept options, in order, and the number hidden, as `Kept` and `HiddenCount` define them |
| AuthOptions.KeptPlusHidden | src/public/setup-app.js:50-55 | every option is either kept or counted as hidden: kept + hidden = total |
| AuthOptions.KeptConcat | src/public/setup-app.js:50-52 | filtering distributes over concatenation, so the kept options stay in their original order |
| AuthOptions.KeptMembership | src/public/setup-app.js:39-55 | an option is kept iff it is present and either not interactive or "show all" is on |
| AuthOptions.HiddenIffInteractive | src/public/setup-app.js:39-55 | something is hidden iff "show all" is off and some option's lower-cased value contains one of the eight markers |
| AuthOptions.ShowAllKeepsEverything | src/public/setup-app.js:50-55 | with "show all" on, every option is kept and none is hidden |
| AuthOptions.SentinelAppendedIff | src/public/setup-app.js:57-74 | the list is the kept options, followed by the `__show_all__` entry exactly when hidden > 0 and "show all" is off |
| AuthOptions.LastMatch | src/public/setup-app.js:27-30 | the selected group is the last one whose value matches, or none |
| AuthOptions.FindGroup | src/public/setup-app.js:27-30 | the lookup loop, which never breaks, returns that last matching group |
| AuthOptions.AuthMenu.constructor | src/public/setup-app.js:14 | "show all" starts off and both lists start empty |
| AuthOptions.AuthMenu.RenderChoices | src/public/setup-app.js:26-77 | the choice list becomes the rendered options of the selected group under the current flag, and its value becomes the first entry's |
| AuthOptions.AuthMenu.RenderAuth | src/public/setup-app.js:16-78 | installs the groups, selects the first one and renders its choices; the flag is unchanged |
| AuthOptions.AuthMenu.OnGroupChange | src/public/setup-app.js:26-77 | selecting a group re-renders the choices for it |
| AuthOptions.AuthMenu.OnChoiceChange | src/public/setup-app.js:81-86 | picking the sentinel sets "show all" and re-renders; the flag is never reset |
| BackupImport.CheckBackup | src/public/setup-app.js:537-557 | accepts iff a file is chosen, its lower-cased name ends in `.tar.gz` or `.tgz`, and its size is at most 250·1024·1024; otherwise names the first failing check |
| BackupImport.RejectionMessage | src/public/setup-app.js:539-550 | `Error: Please select a file` exactly when no file is chosen, the archive-type message exactly when the name fails the suffix test, and no fixed message otherwise |
| BackupImport.SizeLimitIsInclusive | src/public/setup-app.js:553-557 | a file of exactly 250 MiB passes and one byte more is refused |
| BackupImport.UpperCaseSuffixAccepted | src/public/setup-app.js:546-547 | the suffix test ignores letter case |
| BackupImport.ZipRejected | src/public/setup-app.js:546-550 | a `.zip` is refused by name whatever its size |
| DeviceAuth.ChoiceLabel | src/public/setup-app.js:690-696 | the provider label is the text of the first option with the chosen value, or the value itself when none matches |
| DeviceAuthProps.StopPollingIdempotent | src/public/setup-app.js:672-677 | stopping is idempotent, always leaves no handle and no running timer, and changes nothing else |
| DeviceAuthProps.StartPollingLeavesOneTimer | src/public/setup-app.js:798-804 | starting a run stops the old timer first: afterwards exactly one timer runs, with a fresh counter |
| DeviceAuthProps.PollTickPreservesInv | src/public/setup-app.js:804-845 | a tick keeps the invariant: one timer at most, and requests within the budget |
| DeviceAuthProps.StepPreservesInv | src/public/setup-app.js:652-846 | every handler keeps the invariant |
| DeviceAuthProps.RunPreservesInv | src/public/setup-app.js:652-846 | any sequence of events keeps the invariant |
| DeviceAuthProps.AtMostOneTimer | src/public/setup-app.js:672-677 | from the initial page, after any events, at most one poll timer runs and the current run has issued at most 200 status requests |
| DeviceAuthProps.TicksAppend | src/public/setup-app.js:804-845 | ticking through two reply sequences in turn equals ticking through their concatenation |
| DeviceAuthProps.TicksWithinBudget | src/public/setup-app.js:801-810 | a run with c ticks used issues at most 200 − c more status requests, whatever the replies |
| DeviceAuthProps.FreshRunWithinBudget | src/public/setup-app.js:801-810 | one polling run issues at most 200 status requests |
| DeviceAuthProps.NonTerminalTicksKeepPolling | src/public/setup-app.js:822-844 | transport failures and statuses other than `done`/`error` change only the counters; timer, session and panels stay |
| DeviceAuthProps.NeverFinishingTimesOut | src/public/setup-app.js:805-844 | against a server that never finishes, giving any mix of transport failures and non-terminal statuses, the tick after the 200th request stops polling and shows `Polling timeout. Please try again.` without a request |
| DeviceAuthProps.NonTerminalThenDone | src/public/setup-app.js:822-833 | `done` after any non-terminal replies stops polling, hides step 2, shows step 3 and success, and shows `result.email` or `Unknown` |
| DeviceAuthProps.NonTerminalThenError | src/public/setup-app.js:835-838 | `error` after any non-terminal replies stops polling and shows only step 3 with the error element and `resp.error` or `Authentication failed`; nothing else in the panels changes |
| DeviceAuthProps.TickWithoutSessionStops | src/public/setup-app.js:812-815 | a tick with no session stops the timer and issues no request |
| DeviceAuthProps.StartSettledOutcomes | src/public/setup-app.js:711-738 | failure shows the error panel and keeps the old session and timer; success records the session, shows step 2 and starts one fresh run; the button always ends enabled with `Get Sign-in Code` |
| DeviceAuthProps.CancelResetsCard | src/public/setup-app.js:760-776 | cancel stops polling before any request, sends one only with a session, and ends with no session, no timer and only step 1 showing |
| DeviceAuthProps.CancelSettledResets | src/public/setup-app.js:768-776 | whatever events came between the click and the settling, a settled cancel leaves no session, no timer and only step 1 showing |
| DeviceAuthProps.RetryClearsSession | src/public/setup-app.js:781-786 | retry forgets the session and shows step 1 alone; it does not touch the timer |
| DeviceAuthProps.RetryThenTickStops | src/public/setup-app.js:781-786 | a timer still running after retry stops at its next tick without a request |
| DeviceAuthProps.OtherProviderStops | src/public/setup-app.js:698-700 | choosing a non-device-auth method hides the card, stops polling and clears the session |
| DeviceAuthProps.DeviceProviderShowsStep1 | src/public/setup-app.js:689-697 | choosing a device-auth method shows step 1 under the option's text (or `OpenAI Codex`) and leaves session and timer alone |
| DeviceAuthProps.RetryThenSuccessShowsStaleError | src/public/setup-app.js:781-796 | as written, fail, retry, start, `done` shows the success and the old error together |
| DeviceAuthProps.PendingPendingDoneScenario | src/public/setup-app.js:711-833 | start, `pending`, `pending`, `done` with `a@b.com` ends in success with that e-mail after exactly 3 requests |
| DeviceAuthProps.TransientFailureScenario | src/public/setup-app.js:822-844 | a transport failure then `pending` shows nothing new, and a following `done` still succeeds |
| DeviceAuthProps.AlwaysPendingScenario | src/public/setup-app.js:801-810 | a server that always answers `pending` gets exactly 200 requests, then the timeout message |
| DeviceAuthProps.RateLimitedScenario | src/public/setup-app.js:716-735 | a start refused with `rate_limited` shows `Error: rate_limited` and records no session |
| DeviceAuthProps.DeviceAuthProvidersAreInteractive | src/public/setup-app.js:646-649 | both device-auth providers contain `codex`, so the option filter treats them as interactive |
| DeviceAuthProps.DeviceChoicesNeedShowAll | src/public/setup-app.js:39-55 | until "show all" is on, no device-auth provider appears in the auth-choice list |
| DeviceAuthCard.LabelOf | src/public/setup-app.js:690-696 | the label loop with `break` returns `ChoiceLabel` |
| DeviceAuthCard.Card.constructor | src/public/setup-app.js:642-643 | no session, no timer, start button enabled |
| DeviceAuthCard.Card.StopPolling | src/public/setup-app.js:672-677 | clears the running timer and the handle, nothing else |
| DeviceAuthCard.Card.StartPolling | src/public/setup-app.js:798-804 | stops the old timer, then starts a fresh one with counter 0 |
| DeviceAuthCard.Card.ShowCard | src/public/setup-app.js:652-661 | card visible with the label or `OpenAI Codex`, only step 1 showing |
| DeviceAuthCard.Card.HideCard | src/public/setup-app.js:664-670 | card hidden, polling stopped, session cleared |
| DeviceAuthCard.Card.ShowError | src/public/setup-app.js:789-796 | only step 3 showing, with the error element and the message |
| DeviceAuthCard.Card.OnAuthChoiceChange | src/public/setup-app.js:682-700 | runs the menu's handler first (groups kept; the picked value recorded, or the sentinel turns "show all" on and re-renders), then shows or hides the card for the value the list holds afterwards |
| DeviceAuthCard.Card.OnStartClick | src/public/setup-app.js:706-708 | disables the start button and labels it `Starting...` |
| DeviceAuthCard.Card.OnStartSettled | src/public/setup-app.js:716-738 | moves the card as `StartSettled` says and keeps the invariant |
| DeviceAuthCard.Card.OnCancelClick | src/public/setup-app.js:760-772 | stops polling, then returns the session the cancel request is for, or resets at once |
| DeviceAuthCard.Card.OnCancelSettled | src/public/setup-app.js:768-776 | whatever the cancel request returned, hides and re-shows the card at step 1 |
| DeviceAuthCard.Card.OnRetryClick | src/public/setup-app.js:781-786 | shows step 1, hides steps 2 and 3, clears the session |
| DeviceAuthCard.Card.OnPollTick | src/public/setup-app.js:804-845 | moves the card as `PollTick` says, returns the session a status request is for, and keeps the invariant |
| DeviceAuthCard.Card.OnSuccessDelay | src/public/setup-app.js:830-833 | the 2 s timeout after success hides the card and clears the session |

## Left out

- Rendering: element look-ups, `innerHTML`, styles, the provider-group list's own options, the copy buttons and their 1.5 s label resets. Panels are modelled as visibility flags and text fields.
- Element-existence guards such as `if (deviceAuthCardEl)`: the model assumes every element of the card exists. The page's initial HTML is not part of this model, so the initial panels are a parameter of `Init`.
- HTTP: `httpJson`, the start, status and cancel requests, and every other endpoint of the page (setup run, pairing, reset, console, config editor, devices, status refresh, the backup upload, the fallback loading of auth groups). The three device-auth requests appear only as the replies fed into `StartSettled` and `PollTick`, and as the session id returned with a request. A start request that throws carries the error's string form as an opaque message.
- `refreshStatus` in the 2 s timeout after a success: only the `hideDeviceAuthCard` part is modelled (`SuccessDelayElapsed`).
- Timing: the 1.5 s interval and the 2 s delay are not modelled. Overlapping status requests from a slow server are not modelled either, because each tick is atomic. So a reply that arrives after a cancel or a stop is not modelled; the code would still apply it.
- `console.warn` logging of cancel and poll failures.
- `confirm` in `importBackup`, and the `prompt`/`alert` dialogs with the pairing channel check elsewhere on the page.
- BackupImport.CheckBackup: the too-large message rounds the size to MB with `Math.round` on floating point. That message is not modelled; the check returns the size instead.
- `toLowerCase` is modelled for ASCII letters only, in both the option filter and the file-name check. Unicode case mapping is left out.
- A status reply without a `status` field behaves like any status other than `done` and `error`, and is modelled as one.
