/**
 * The device-authorization login card of the setup page, as a state machine.
 *
 * The page keeps a current session id, the handle of a repeating poll timer,
 * the tick counter of the current polling run and the visibility of the
 * card's panels. Every handler of the card is a function from the old state
 * (and what the browser or the control server delivered) to the new one.
 * The browser's own bookkeeping that the handlers rely on is part of the
 * state too: the set of repeating timers it is running, the next handle it
 * will hand out, and the continuations still waiting for an `await`.
 */
module DeviceAuth {
  import opened Wrappers
  import AuthOptions

  /** Auth choices that use the device-code flow. */
  const DeviceAuthProviders: seq<string> := ["openai-codex", "codex-cli"]

  /** Ticks allowed per polling run (about five minutes at one tick per 1.5 s). */
  const MaxPolls: nat := 200

  const DefaultProviderName := "OpenAI Codex"
  const StartIdleLabel := "Get Sign-in Code"
  const StartBusyLabel := "Starting..."
  const TimeoutMessage := "Polling timeout. Please try again."
  const AuthFailedMessage := "Authentication failed"
  const StartFailedMessage := "Failed to start device auth"
  const UnknownEmail := "Unknown"

  predicate IsDeviceAuthProvider(choice: string) {
    choice in DeviceAuthProviders
  }

  /** JavaScript truthiness of a possibly absent string: present and non-empty. */
  predicate Truthy(o: Option<string>) {
    o.Some? && o.value != ""
  }

  /** `o || fallback` for a possibly absent string. */
  function OrElse(o: Option<string>, fallback: string): string {
    if Truthy(o) then o.value else fallback
  }

  /** What the card shows. `step3` holds both the success and the error element. */
  datatype Panels = Panels(
    card: bool,
    providerName: string,
    step1: bool,
    step2: bool,
    step3: bool,
    success: bool,
    error: bool,
    errorMsg: string,
    email: string,
    verificationUrl: string,
    userCode: string)

  /** Reply to the start request. */
  datatype StartReply =
    | Started(sessionId: Option<string>, verificationUrl: string, userCode: string)  // `ok` is truthy
    | Refused(error: Option<string>)                                                 // `ok` is falsy
    | StartUnreachable(message: string)  // the request threw; `message` is the error's string form

  /** Reply to one status request; `email` is `result.email` when both are present. */
  datatype StatusReply =
    | Status(status: string, email: Option<string>, error: Option<string>)
    | StatusUnreachable  // transport or HTTP failure

  datatype State = State(
    session: Option<string>,   // current session id
    pollTimer: Option<nat>,    // handle of the poll timer
    liveTimers: set<nat>,      // repeating timers the browser is running for the card
    nextHandle: nat,           // handle the browser gives the next timer
    pollCount: nat,            // ticks of the current polling run
    statusRequests: nat,       // status requests issued by the current polling run
    startEnabled: bool,        // the start button; disabled while a start request is out
    startLabel: string,
    cancelsInFlight: nat,      // cancel handlers waiting for their request
    successTimeouts: nat,      // pending 2 s timeouts scheduled after a success
    panels: Panels)

  function Init(panels: Panels): State {
    State(None, None, {}, 1, 0, 0, true, StartIdleLabel, 0, 0, panels)
  }

  /**
   * The card's invariant: the handle names the only timer running, handles are
   * non-zero, a running timer has ticks left, and no run issues more status
   * requests than it has ticks or than the budget.
   */
  ghost predicate Inv(s: State) {
    && s.nextHandle >= 1
    && s.liveTimers == (if s.pollTimer.Some? then {s.pollTimer.value} else {})
    && (s.pollTimer.Some? ==> 1 <= s.pollTimer.value < s.nextHandle && s.pollCount <= MaxPolls)
    && s.statusRequests <= s.pollCount
    && s.statusRequests <= MaxPolls
  }

  // ----- the page's helper functions -----

  function StopPolling(s: State): State {
    if s.pollTimer.Some? then s.(liveTimers := s.liveTimers - {s.pollTimer.value}, pollTimer := None)
    else s
  }

  /** Stop any running timer, then start a fresh run with its own counter. */
  function StartPolling(s: State): State {
    var t := StopPolling(s);
    t.(pollTimer := Some(t.nextHandle),
       liveTimers := t.liveTimers + {t.nextHandle},
       nextHandle := t.nextHandle + 1,
       pollCount := 0,
       statusRequests := 0)
  }

  /** Show the card at step 1; an empty label shows the default provider name. */
  function ShowCard(s: State, providerLabel: string): State {
    s.(panels := s.panels.(
      card := true,
      providerName := if providerLabel == "" then DefaultProviderName else providerLabel,
      step1 := true, step2 := false, step3 := false, success := false, error := false))
  }

  function HideCard(s: State): State {
    StopPolling(s.(panels := s.panels.(card := false))).(session := None)
  }

  function ShowError(s: State, msg: string): State {
    s.(panels := s.panels.(step1 := false, step2 := false, step3 := true, success := false, error := true,
                           errorMsg := msg))
  }

  // ----- events -----

  /** The auth choice changed to `selected`, whose option text is `providerLabel`. */
  function ChoiceChanged(s: State, selected: string, providerLabel: string): State {
    if IsDeviceAuthProvider(selected) then ShowCard(s, providerLabel) else HideCard(s)
  }

  /** The start button was pressed: it is disabled until the start request settles. */
  function StartClicked(s: State): State
    requires s.startEnabled
  {
    s.(startEnabled := false, startLabel := StartBusyLabel)
  }

  /** The start request settled. */
  function StartSettled(s: State, reply: StartReply): State
    requires !s.startEnabled
  {
    var t := match reply
      case Started(id, url, code) =>
        StartPolling(s.(session := id,
                        panels := s.panels.(verificationUrl := url, userCode := code, step1 := false, step2 := true)))
      case Refused(err) => ShowError(s, "Error: " + OrElse(err, StartFailedMessage))
      case StartUnreachable(msg) => ShowError(s, msg);
    t.(startEnabled := true, startLabel := StartIdleLabel)
  }

  /**
   * The cancel button was pressed. Polling stops first; with a session, a
   * cancel request for it goes out (the second component) and the handler
   * waits for it, otherwise the card is reset at once.
   */
  function CancelClicked(s: State): (State, Option<string>) {
    var t := StopPolling(s);
    if Truthy(t.session) then (t.(cancelsInFlight := t.cancelsInFlight + 1), Some(t.session.value))
    else (ShowCard(HideCard(t), ""), None)
  }

  /** A cancel request settled, successfully or not: the card is reset to step 1. */
  function CancelSettled(s: State): State
    requires s.cancelsInFlight > 0
  {
    ShowCard(HideCard(s.(cancelsInFlight := s.cancelsInFlight - 1)), "")
  }

  function RetryClicked(s: State): State {
    s.(panels := s.panels.(step1 := true, step2 := false, step3 := false), session := None)
  }

  /**
   * One tick of the poll timer, with the reply the status request would get.
   * The second component is the session a status request was issued for.
   */
  function PollTick(s: State, reply: StatusReply): (State, Option<string>)
    requires s.pollTimer.Some?
  {
    var t := s.(pollCount := s.pollCount + 1);
    if t.pollCount > MaxPolls then (ShowError(StopPolling(t), TimeoutMessage), None)
    else if !Truthy(t.session) then (StopPolling(t), None)
    else
      var u := t.(statusRequests := t.statusRequests + 1);
      var next := match reply
        case StatusUnreachable => u
        case Status(status, email, err) =>
          if status == "done" then
            var v := StopPolling(u);
            v.(panels := v.panels.(step2 := false, step3 := true, success := true, email := OrElse(email, UnknownEmail)),
               successTimeouts := v.successTimeouts + 1)
          else if status == "error" then ShowError(StopPolling(u), OrElse(err, AuthFailedMessage))
          else u;
      (next, Some(t.session.value))
  }

  /** The 2 s timeout scheduled by a success fired (the status refresh it also starts is not modelled). */
  function SuccessDelayElapsed(s: State): State
    requires s.successTimeouts > 0
  {
    HideCard(s.(successTimeouts := s.successTimeouts - 1))
  }

  // ----- arbitrary sequences of events -----

  datatype Event =
    | ChoiceChange(selected: string, providerLabel: string)
    | StartClick
    | StartSettle(startReply: StartReply)
    | CancelClick
    | CancelSettle
    | RetryClick
    | Tick(statusReply: StatusReply)
    | SuccessDelay

  /** Whether the browser can deliver `e` in state `s`. */
  predicate Enabled(s: State, e: Event) {
    match e
    case StartClick => s.startEnabled
    case StartSettle(_) => !s.startEnabled
    case CancelSettle => s.cancelsInFlight > 0
    case Tick(_) => s.pollTimer.Some?
    case SuccessDelay => s.successTimeouts > 0
    case _ => true
  }

  function Step(s: State, e: Event): State
    requires Enabled(s, e)
  {
    match e
    case ChoiceChange(sel, lbl) => ChoiceChanged(s, sel, lbl)
    case StartClick => StartClicked(s)
    case StartSettle(r) => StartSettled(s, r)
    case CancelClick => CancelClicked(s).0
    case CancelSettle => CancelSettled(s)
    case RetryClick => RetryClicked(s)
    case Tick(r) => PollTick(s, r).0
    case SuccessDelay => SuccessDelayElapsed(s)
  }

  /** Apply the events in order; an event the browser cannot deliver at that point is dropped. */
  function Run(s: State, events: seq<Event>): State
    decreases |events|
  {
    if events == [] then s
    else Run(if Enabled(s, events[0]) then Step(s, events[0]) else s, events[1..])
  }

  /**
   * Let the poll timer fire once per reply, for as long as it keeps running.
   * Returns the final state and the number of status requests issued.
   */
  function Ticks(s: State, replies: seq<StatusReply>): (State, nat)
    decreases |replies|
  {
    if replies == [] || s.pollTimer.None? then (s, 0)
    else
      var (t, req) := PollTick(s, replies[0]);
      var (u, n) := Ticks(t, replies[1..]);
      (u, n + if req.Some? then 1 else 0)
  }

  /** A reply that leaves polling running: a transport failure or a status other than `done`/`error`. */
  predicate NonTerminal(r: StatusReply) {
    r.StatusUnreachable? || (r.status != "done" && r.status != "error")
  }

  /** The auth-choice option text the change handler shows as the provider name. */
  function ChoiceLabel(choices: seq<AuthOptions.Choice>, value: string): (text: string)
    ensures (exists i :: 0 <= i < |choices| && choices[i].value == value && text == choices[i].text
                         && forall k :: 0 <= k < i ==> choices[k].value != value)
         || (text == value && forall k :: 0 <= k < |choices| ==> choices[k].value != value)
    decreases |choices|
  {
    if choices == [] then value
    else if choices[0].value == value then choices[0].text
    else ChoiceLabel(choices[1..], value)
  }
}
