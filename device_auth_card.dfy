/**
 * The device-auth card as the page runs it: the module-level variables the
 * handlers update in place, the handlers themselves, and the helpers they
 * share. Each handler is proved to move the card exactly as the matching
 * event of the `DeviceAuth` state machine does.
 */
module DeviceAuthCard {
  import opened Wrappers
  import opened DeviceAuth
  import AuthOptions
  import DeviceAuthProps

  /** The first option whose value matches gives the label; without one, the value itself. */
  method LabelOf(choices: seq<AuthOptions.Choice>, value: string) returns (text: string)
    ensures text == ChoiceLabel(choices, value)
  {
    text := value;
    var i := 0;
    while i < |choices|
      invariant 0 <= i <= |choices|
      invariant ChoiceLabel(choices, value) == ChoiceLabel(choices[i..], value)
    {
      if choices[i].value == value {
        text := choices[i].text;
        return;
      }
      assert choices[i..][1..] == choices[i + 1..];
      i := i + 1;
    }
  }

  class Card {
    var session: Option<string>
    var pollTimer: Option<nat>
    ghost var liveTimers: set<nat>
    var nextHandle: nat
    var pollCount: nat
    ghost var statusRequests: nat
    var startEnabled: bool
    var startLabel: string
    ghost var cancelsInFlight: nat
    ghost var successTimeouts: nat
    var panels: Panels

    ghost function State(): DeviceAuth.State
      reads this
    {
      DeviceAuth.State(session, pollTimer, liveTimers, nextHandle, pollCount, statusRequests,
                       startEnabled, startLabel, cancelsInFlight, successTimeouts, panels)
    }

    ghost predicate Valid()
      reads this
    {
      Inv(State())
    }

    constructor (initial: Panels)
      ensures Valid() && State() == Init(initial)
    {
      session, pollTimer, liveTimers, nextHandle := None, None, {}, 1;
      pollCount, statusRequests := 0, 0;
      startEnabled, startLabel := true, StartIdleLabel;
      cancelsInFlight, successTimeouts := 0, 0;
      panels := initial;
    }

    // ----- helpers -----

    method StopPolling()
      modifies this
      ensures State() == DeviceAuth.StopPolling(old(State()))
    {
      if pollTimer.Some? {
        liveTimers := liveTimers - {pollTimer.value};
        pollTimer := None;
      }
    }

    method StartPolling()
      modifies this
      ensures State() == DeviceAuth.StartPolling(old(State()))
    {
      StopPolling();
      pollCount := 0;
      statusRequests := 0;
      pollTimer := Some(nextHandle);
      liveTimers := liveTimers + {nextHandle};
      nextHandle := nextHandle + 1;
    }

    method ShowCard(providerLabel: string)
      modifies this
      ensures State() == DeviceAuth.ShowCard(old(State()), providerLabel)
    {
      panels := panels.(card := true,
                        providerName := if providerLabel == "" then DefaultProviderName else providerLabel,
                        step1 := true, step2 := false, step3 := false, success := false, error := false);
    }

    method HideCard()
      modifies this
      ensures State() == DeviceAuth.HideCard(old(State()))
    {
      panels := panels.(card := false);
      StopPolling();
      session := None;
    }

    method ShowError(msg: string)
      modifies this
      ensures State() == DeviceAuth.ShowError(old(State()), msg)
    {
      panels := panels.(step1 := false, step2 := false, step3 := true, success := false, error := true,
                        errorMsg := msg);
    }

    // ----- handlers -----

    /**
     * The auth-choice change handler: first the menu's own handler (which may
     * turn on "show all" and re-render), then the card follows the value the
     * list holds afterwards.
     */
    method OnAuthChoiceChange(menu: AuthOptions.AuthMenu, v: string)
      requires Valid() && menu.Valid() && AuthOptions.HasValue(menu.choices, v)
      modifies this, menu
      ensures Valid() && menu.Valid()
      ensures menu.showAll == (old(menu.showAll) || v == AuthOptions.ShowAllSentinel)
      ensures menu.groups == old(menu.groups) && menu.groupValue == old(menu.groupValue)
      ensures v != AuthOptions.ShowAllSentinel ==> menu.choices == old(menu.choices) && menu.choiceValue == v
      ensures v == AuthOptions.ShowAllSentinel ==>
        && menu.choices == AuthOptions.RenderedChoices(AuthOptions.OptionsOf(menu.groups, menu.groupValue), true)
        && menu.choiceValue == AuthOptions.FirstValue(menu.choices)
      ensures State() == ChoiceChanged(old(State()), menu.choiceValue, ChoiceLabel(menu.choices, menu.choiceValue))
    {
      menu.OnChoiceChange(v);
      var selected := menu.choiceValue;
      if IsDeviceAuthProvider(selected) {
        var providerLabel := LabelOf(menu.choices, selected);
        ShowCard(providerLabel);
      } else {
        HideCard();
      }
      DeviceAuthProps.StepPreservesInv(old(State()), ChoiceChange(selected, ChoiceLabel(menu.choices, selected)));
    }

    method OnStartClick()
      requires Valid() && startEnabled
      modifies this
      ensures Valid() && State() == StartClicked(old(State()))
    {
      startEnabled := false;
      startLabel := StartBusyLabel;
    }

    /** The rest of the start handler, once the start request has settled. */
    method OnStartSettled(reply: StartReply)
      requires Valid() && !startEnabled
      modifies this
      ensures Valid() && State() == StartSettled(old(State()), reply)
    {
      match reply {
        case Started(id, url, code) =>
          session := id;
          panels := panels.(verificationUrl := url, userCode := code, step1 := false, step2 := true);
          StartPolling();
        case Refused(err) =>
          ShowError("Error: " + OrElse(err, StartFailedMessage));
        case StartUnreachable(msg) =>
          ShowError(msg);
      }
      startEnabled := true;
      startLabel := StartIdleLabel;
      DeviceAuthProps.StartSettledOutcomes(old(State()), reply);
    }

    /** Returns the session a cancel request is sent for, if any. */
    method OnCancelClick() returns (request: Option<string>)
      requires Valid()
      modifies this
      ensures Valid()
      ensures (State(), request) == CancelClicked(old(State()))
    {
      StopPolling();
      if session.Some? && session.value != "" {
        request := Some(session.value);
        cancelsInFlight := cancelsInFlight + 1;
      } else {
        request := None;
        HideCard();
        ShowCard("");
      }
    }

    /** The rest of the cancel handler, once the cancel request has settled either way. */
    method OnCancelSettled()
      requires Valid() && cancelsInFlight > 0
      modifies this
      ensures Valid() && State() == CancelSettled(old(State()))
    {
      cancelsInFlight := cancelsInFlight - 1;
      HideCard();
      ShowCard("");
    }

    method OnRetryClick()
      requires Valid()
      modifies this
      ensures Valid() && State() == RetryClicked(old(State()))
    {
      panels := panels.(step1 := true, step2 := false, step3 := false);
      session := None;
    }

    /** One firing of the poll timer; returns the session a status request is sent for, if any. */
    method OnPollTick(reply: StatusReply) returns (request: Option<string>)
      requires Valid() && pollTimer.Some?
      modifies this
      ensures Valid()
      ensures (State(), request) == PollTick(old(State()), reply)
    {
      pollCount := pollCount + 1;
      if pollCount > MaxPolls {
        StopPolling();
        ShowError(TimeoutMessage);
        return None;
      }
      if !(session.Some? && session.value != "") {
        StopPolling();
        return None;
      }
      request := Some(session.value);
      statusRequests := statusRequests + 1;
      match reply {
        case StatusUnreachable =>
        case Status(status, email, err) =>
          if status == "done" {
            StopPolling();
            panels := panels.(step2 := false, step3 := true, success := true, email := OrElse(email, UnknownEmail));
            successTimeouts := successTimeouts + 1;
          } else if status == "error" {
            StopPolling();
            ShowError(OrElse(err, AuthFailedMessage));
          }
      }
      DeviceAuthProps.PollTickPreservesInv(old(State()), reply);
    }

    /** The 2 s timeout after a success: the card is hidden and the session forgotten. */
    method OnSuccessDelay()
      requires Valid() && successTimeouts > 0
      modifies this
      ensures Valid() && State() == SuccessDelayElapsed(old(State()))
    {
      successTimeouts := successTimeouts - 1;
      HideCard();
    }
  }
}
