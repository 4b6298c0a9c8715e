/**
 * What the device-auth card guarantees: one poll timer at most, a bounded
 * number of status requests per polling run, quiet handling of transport
 * failures, and a reset to step 1 on cancel, retry and a change of provider.
 */
module DeviceAuthProps {
  import opened Wrappers
  import opened DeviceAuth
  import AuthOptions
  import Text

  /** Only step 1 of the card is showing. */
  predicate OnlyStep1(p: Panels) {
    p.step1 && !p.step2 && !p.step3 && !p.success && !p.error
  }

  // ----- the timer -----

  /** Stopping is idempotent, always leaves no handle, and touches nothing but the timer. */
  lemma StopPollingIdempotent(s: State)
    ensures StopPolling(StopPolling(s)) == StopPolling(s)
    ensures StopPolling(s).pollTimer.None?
    ensures StopPolling(s).(pollTimer := s.pollTimer, liveTimers := s.liveTimers) == s
    ensures Inv(s) ==> Inv(StopPolling(s)) && StopPolling(s).liveTimers == {}
  {
  }

  /** Starting a run first stops the old timer, so exactly one timer runs afterwards. */
  lemma StartPollingLeavesOneTimer(s: State)
    requires Inv(s)
    ensures var t := StartPolling(s);
      && Inv(t)
      && t.pollTimer.Some? && t.liveTimers == {t.pollTimer.value}
      && (s.pollTimer.Some? ==> s.pollTimer.value !in t.liveTimers)
      && t.pollCount == 0 && t.statusRequests == 0
      && t.session == s.session && t.panels == s.panels
  {
  }

  lemma PollTickPreservesInv(s: State, r: StatusReply)
    requires Inv(s) && s.pollTimer.Some?
    ensures Inv(PollTick(s, r).0)
  {
  }

  lemma StepPreservesInv(s: State, e: Event)
    requires Inv(s) && Enabled(s, e)
    ensures Inv(Step(s, e))
  {
    match e
    case StartSettle(r) => if r.Started? { StartPollingLeavesOneTimer(s.(session := r.sessionId, panels := s.panels.(verificationUrl := r.verificationUrl, userCode := r.userCode, step1 := false, step2 := true))); }
    case Tick(r) => PollTickPreservesInv(s, r);
    case _ =>
  }

  lemma {:induction false} RunPreservesInv(s: State, events: seq<Event>)
    requires Inv(s)
    ensures Inv(Run(s, events))
    decreases |events|
  {
    if events != [] {
      if Enabled(s, events[0]) {
        StepPreservesInv(s, events[0]);
      }
      RunPreservesInv(if Enabled(s, events[0]) then Step(s, events[0]) else s, events[1..]);
    }
  }

  /**
   * Whatever the operator, the timers and the server do, at most one poll
   * timer runs and the current run has issued at most 200 status requests.
   */
  lemma AtMostOneTimer(panels: Panels, events: seq<Event>)
    ensures var s := Run(Init(panels), events);
      && |s.liveTimers| <= 1
      && (s.pollTimer.None? ==> s.liveTimers == {})
      && s.statusRequests <= MaxPolls
  {
    RunPreservesInv(Init(panels), events);
  }

  // ----- polling runs -----

  /** Ticking through `a` and then `b` is ticking through `a + b`. */
  lemma {:induction false} TicksAppend(s: State, a: seq<StatusReply>, b: seq<StatusReply>)
    ensures Ticks(s, a + b) == (Ticks(Ticks(s, a).0, b).0, Ticks(s, a).1 + Ticks(Ticks(s, a).0, b).1)
    decreases |a|
  {
    if a == [] {
      assert a + b == b;
    } else if s.pollTimer.Some? {
      assert (a + b)[0] == a[0] && (a + b)[1..] == a[1..] + b;
      TicksAppend(PollTick(s, a[0]).0, a[1..], b);
    }
  }

  /** A polling run issues at most as many status requests as it has ticks left. */
  lemma {:induction false} TicksWithinBudget(s: State, replies: seq<StatusReply>)
    requires Inv(s)
    ensures Inv(Ticks(s, replies).0)
    ensures s.pollTimer.None? ==> Ticks(s, replies).1 == 0
    ensures s.pollTimer.Some? ==> Ticks(s, replies).1 <= MaxPolls - s.pollCount
    decreases |replies|
  {
    if replies != [] && s.pollTimer.Some? {
      PollTickPreservesInv(s, replies[0]);
      TicksWithinBudget(PollTick(s, replies[0]).0, replies[1..]);
    }
  }

  /** A run that starts fresh issues at most 200 status requests, whatever the replies. */
  lemma FreshRunWithinBudget(s: State, replies: seq<StatusReply>)
    requires Inv(s)
    ensures Ticks(StartPolling(s), replies).1 <= MaxPolls
  {
    StartPollingLeavesOneTimer(s);
    TicksWithinBudget(StartPolling(s), replies);
  }

  /**
   * Transport failures and statuses other than `done`/`error` only advance the
   * counters: the session, the panels and the timer stay as they were.
   */
  lemma {:induction false} NonTerminalTicksKeepPolling(s: State, replies: seq<StatusReply>)
    requires Inv(s) && s.pollTimer.Some? && Truthy(s.session)
    requires forall i :: 0 <= i < |replies| ==> NonTerminal(replies[i])
    requires s.pollCount + |replies| <= MaxPolls
    ensures Ticks(s, replies) ==
      (s.(pollCount := s.pollCount + |replies|, statusRequests := s.statusRequests + |replies|), |replies|)
    decreases |replies|
  {
    if replies != [] {
      var t := PollTick(s, replies[0]).0;
      assert t == s.(pollCount := s.pollCount + 1, statusRequests := s.statusRequests + 1);
      NonTerminalTicksKeepPolling(t, replies[1..]);
    }
  }

  /**
   * A server that never finishes, whatever mix of transport failures and
   * non-terminal statuses it gives: the tick after the 200th request stops the
   * timer and shows the timeout message, without a request of its own.
   */
  lemma NeverFinishingTimesOut(s: State, replies: seq<StatusReply>)
    requires Inv(s) && s.pollTimer.Some? && Truthy(s.session)
    requires |replies| == MaxPolls + 1 - s.pollCount
    requires forall i :: 0 <= i < |replies| ==> NonTerminal(replies[i])
    ensures var (t, n) := Ticks(s, replies);
      && n == MaxPolls - s.pollCount
      && t.pollTimer.None? && t.liveTimers == {}
      && t.panels == s.panels.(step1 := false, step2 := false, step3 := true, success := false, error := true,
                               errorMsg := TimeoutMessage)
      && t.session == s.session
  {
    var k := MaxPolls - s.pollCount;
    assert replies == replies[..k] + [replies[k]];
    TicksAppend(s, replies[..k], [replies[k]]);
    NonTerminalTicksKeepPolling(s, replies[..k]);
  }

  /** After any number of transient failures or pending replies within budget, `done` ends in success. */
  lemma NonTerminalThenDone(s: State, replies: seq<StatusReply>, email: Option<string>, err: Option<string>)
    requires Inv(s) && s.pollTimer.Some? && Truthy(s.session)
    requires forall i :: 0 <= i < |replies| ==> NonTerminal(replies[i])
    requires s.pollCount + |replies| < MaxPolls
    ensures var (t, n) := Ticks(s, replies + [Status("done", email, err)]);
      && n == |replies| + 1
      && t.pollTimer.None? && t.liveTimers == {}
      && t.panels == s.panels.(step2 := false, step3 := true, success := true, email := OrElse(email, UnknownEmail))
      && t.session == s.session
      && t.successTimeouts == s.successTimeouts + 1
  {
    TicksAppend(s, replies, [Status("done", email, err)]);
    NonTerminalTicksKeepPolling(s, replies);
  }

  /** After any number of transient failures or pending replies within budget, `error` shows the server's message. */
  lemma NonTerminalThenError(s: State, replies: seq<StatusReply>, email: Option<string>, err: Option<string>)
    requires Inv(s) && s.pollTimer.Some? && Truthy(s.session)
    requires forall i :: 0 <= i < |replies| ==> NonTerminal(replies[i])
    requires s.pollCount + |replies| < MaxPolls
    ensures var (t, n) := Ticks(s, replies + [Status("error", email, err)]);
      && n == |replies| + 1
      && t.pollTimer.None? && t.liveTimers == {}
      && t.panels == s.panels.(step1 := false, step2 := false, step3 := true, success := false, error := true,
                               errorMsg := OrElse(err, AuthFailedMessage))
      && t.session == s.session
  {
    TicksAppend(s, replies, [Status("error", email, err)]);
    NonTerminalTicksKeepPolling(s, replies);
  }

  /** A tick without a session stops the timer and issues no request. */
  lemma TickWithoutSessionStops(s: State, r: StatusReply)
    requires Inv(s) && s.pollTimer.Some? && !Truthy(s.session)
    ensures PollTick(s, r).1.None?
    ensures PollTick(s, r).0.pollTimer.None? && PollTick(s, r).0.liveTimers == {}
    ensures PollTick(s, r).0.session == s.session
  {
  }

  // ----- the handlers -----

  /**
   * Whatever the start request returns, the button is usable again; a failure
   * shows the error panel and records no session, a success records the
   * session, moves to step 2 and starts one fresh polling run.
   */
  lemma StartSettledOutcomes(s: State, reply: StartReply)
    requires Inv(s) && !s.startEnabled
    ensures var t := StartSettled(s, reply);
      && Inv(t)
      && t.startEnabled && t.startLabel == StartIdleLabel
      && (reply.Started? ==>
            && t.session == reply.sessionId
            && !t.panels.step1 && t.panels.step2
            && t.panels.verificationUrl == reply.verificationUrl && t.panels.userCode == reply.userCode
            && t.pollTimer.Some? && t.liveTimers == {t.pollTimer.value}
            && t.pollCount == 0 && t.statusRequests == 0)
      && (!reply.Started? ==>
            && t.session == s.session && t.pollTimer == s.pollTimer
            && t.panels.error && t.panels.step3 && !t.panels.step1 && !t.panels.step2 && !t.panels.success)
      && (reply.Refused? ==> t.panels.errorMsg == "Error: " + OrElse(reply.error, StartFailedMessage))
      && (reply.StartUnreachable? ==> t.panels.errorMsg == reply.message)
  {
    if reply.Started? {
      StartPollingLeavesOneTimer(s.(session := reply.sessionId,
        panels := s.panels.(verificationUrl := reply.verificationUrl, userCode := reply.userCode, step1 := false, step2 := true)));
    }
  }

  /**
   * Cancel stops polling before any request goes out, asks the server to drop
   * the session only when there is one, and ends with no session, no timer and
   * only step 1 showing, whatever became of the cancel request.
   */
  lemma CancelResetsCard(s: State)
    requires Inv(s)
    ensures var (t, req) := CancelClicked(s);
      && t.pollTimer.None? && t.liveTimers == {}
      && (req.Some? <==> Truthy(s.session))
      && (req.Some? ==> req.value == s.session.value && t.cancelsInFlight == s.cancelsInFlight + 1)
    ensures var (t, req) := CancelClicked(s);
      var u := if req.Some? then CancelSettled(t) else t;
      && u.session.None? && u.pollTimer.None? && u.liveTimers == {}
      && u.panels.card && OnlyStep1(u.panels) && u.panels.providerName == DefaultProviderName
      && u.cancelsInFlight == s.cancelsInFlight
  {
  }

  /**
   * However many events came between the click and the settling of its cancel
   * request, the settled cancel leaves no session, no timer and only step 1.
   */
  lemma CancelSettledResets(s: State)
    requires Inv(s) && s.cancelsInFlight > 0
    ensures var u := CancelSettled(s);
      && u.session.None? && u.pollTimer.None? && u.liveTimers == {}
      && u.panels.card && OnlyStep1(u.panels) && u.panels.providerName == DefaultProviderName
      && u.cancelsInFlight == s.cancelsInFlight - 1
  {
  }

  /** Retry forgets the session and shows step 1 alone. */
  lemma RetryClearsSession(s: State)
    ensures RetryClicked(s).session.None?
    ensures var p := RetryClicked(s).panels; p.step1 && !p.step2 && !p.step3
    ensures RetryClicked(s).pollTimer == s.pollTimer
  {
  }

  /** A timer still running after retry stops on its next tick without a request. */
  lemma RetryThenTickStops(s: State, r: StatusReply)
    requires Inv(s) && s.pollTimer.Some?
    ensures PollTick(RetryClicked(s), r).1.None?
    ensures PollTick(RetryClicked(s), r).0.pollTimer.None?
  {
  }

  /** Choosing another provider hides the card, stops polling and forgets the session. */
  lemma OtherProviderStops(s: State, selected: string, providerLabel: string)
    requires Inv(s) && !IsDeviceAuthProvider(selected)
    ensures var t := ChoiceChanged(s, selected, providerLabel);
      !t.panels.card && t.pollTimer.None? && t.liveTimers == {} && t.session.None?
  {
  }

  /** Choosing a device-auth provider shows step 1 under the option's text but keeps a running flow going. */
  lemma DeviceProviderShowsStep1(s: State, selected: string, providerLabel: string)
    requires IsDeviceAuthProvider(selected)
    ensures var t := ChoiceChanged(s, selected, providerLabel);
      && t.panels.card && OnlyStep1(t.panels)
      && t.panels.providerName == (if providerLabel == "" then DefaultProviderName else providerLabel)
      && t.session == s.session && t.pollTimer == s.pollTimer
  {
  }

  /**
   * Retry hides step 3 but not the error element inside it, and a success
   * does not hide that element either: after fail, retry, start and `done`,
   * the card shows the success and the old error together.
   */
  lemma RetryThenSuccessShowsStaleError(s: State, url: string, code: string, email: Option<string>)
    requires Inv(s) && !s.startEnabled
    ensures
      var t1 := RetryClicked(StartSettled(s, Refused(None)));
      var t2 := StartSettled(StartClicked(t1), Started(Some("session"), url, code));
      var t3 := PollTick(t2, Status("done", email, None)).0;
      t3.panels.step3 && t3.panels.success && t3.panels.error && t3.panels.errorMsg == "Error: " + StartFailedMessage
  {
    var t1 := RetryClicked(StartSettled(s, Refused(None)));
    StartSettledOutcomes(StartClicked(t1), Started(Some("session"), url, code));
  }

  // ----- scenarios of whole flows -----

  /** Start, then `pending`, `pending`, `done` with an e-mail: success with that e-mail after three requests. */
  lemma PendingPendingDoneScenario(s: State, url: string, code: string)
    requires Inv(s) && !s.startEnabled
    ensures
      var t := StartSettled(s, Started(Some("sess-1"), url, code));
      var (u, n) := Ticks(t, [Status("pending", None, None), Status("pending", None, None),
                              Status("done", Some("a@b.com"), None)]);
      && n == 3 && u.panels.success && u.panels.step3 && u.panels.email == "a@b.com"
      && u.pollTimer.None? && u.startEnabled
  {
    var t := StartSettled(s, Started(Some("sess-1"), url, code));
    StartSettledOutcomes(s, Started(Some("sess-1"), url, code));
    var pending := Status("pending", None, None);
    assert [pending, pending, Status("done", Some("a@b.com"), None)] == [pending, pending] + [Status("done", Some("a@b.com"), None)];
    NonTerminalThenDone(t, [pending, pending], Some("a@b.com"), None);
  }

  /** A transport failure in the middle of a run shows nothing and the run still reaches success. */
  lemma TransientFailureScenario(s: State, url: string, code: string)
    requires Inv(s) && !s.startEnabled
    ensures
      var t := StartSettled(s, Started(Some("sess-1"), url, code));
      var early := [StatusUnreachable, Status("pending", None, None)];
      && Ticks(t, early).0.panels == t.panels
      && Ticks(t, early).0.pollTimer == t.pollTimer
      && var (u, n) := Ticks(t, early + [Status("done", Some("a@b.com"), None)]);
         n == 3 && u.panels.success && u.panels.email == "a@b.com"
  {
    var t := StartSettled(s, Started(Some("sess-1"), url, code));
    StartSettledOutcomes(s, Started(Some("sess-1"), url, code));
    var early := [StatusUnreachable, Status("pending", None, None)];
    NonTerminalTicksKeepPolling(t, early);
    NonTerminalThenDone(t, early, Some("a@b.com"), None);
  }

  /** A server that answers `pending` forever: 200 requests, then the timeout message. */
  lemma AlwaysPendingScenario(s: State, url: string, code: string)
    requires Inv(s) && !s.startEnabled
    ensures
      var t := StartSettled(s, Started(Some("sess-1"), url, code));
      var (u, n) := Ticks(t, seq(MaxPolls + 1, _ => Status("pending", None, None)));
      && n == MaxPolls
      && u.pollTimer.None? && u.panels.error && u.panels.errorMsg == TimeoutMessage
  {
    var t := StartSettled(s, Started(Some("sess-1"), url, code));
    StartSettledOutcomes(s, Started(Some("sess-1"), url, code));
    NeverFinishingTimesOut(t, seq(MaxPolls + 1, _ => Status("pending", None, None)));
  }

  /** A refused start shows the server's reason, prefixed as an error's string form is, and records no session. */
  lemma RateLimitedScenario(s: State)
    requires Inv(s) && !s.startEnabled
    ensures var t := StartSettled(s, Refused(Some("rate_limited")));
      && t.panels.error && t.panels.errorMsg == "Error: rate_limited"
      && t.session == s.session && t.pollTimer == s.pollTimer && t.startEnabled
  {
    StartSettledOutcomes(s, Refused(Some("rate_limited")));
  }

  // ----- the device-auth providers and the auth-choice filter -----

  /** Both device-auth providers count as interactive ("codex" occurs in each). */
  lemma DeviceAuthProvidersAreInteractive(p: string)
    requires IsDeviceAuthProvider(p)
    ensures AuthOptions.IsInteractive(p)
  {
    var lower := Text.Lower(p);
    if p == "openai-codex" {
      assert lower == p;
      assert "codex" <= lower[7..];
    } else {
      assert lower == p;
      assert "codex" <= lower[0..];
    }
    assert "codex" in AuthOptions.InteractiveMarkers;
  }

  /** So until "show all" is on, no device-auth provider appears in the auth-choice list. */
  lemma DeviceChoicesNeedShowAll(opts: seq<AuthOptions.AuthOption>)
    ensures var r := AuthOptions.RenderedChoices(opts, false);
      forall i :: 0 <= i < |r| ==> !IsDeviceAuthProvider(r[i].value)
  {
    var r := AuthOptions.RenderedChoices(opts, false);
    var kept := AuthOptions.Kept(opts, false);
    forall i | 0 <= i < |r| ensures !IsDeviceAuthProvider(r[i].value) {
      if i < |kept| {
        AuthOptions.KeptMembership(opts, false, kept[i]);
        if IsDeviceAuthProvider(kept[i].value) {
          DeviceAuthProvidersAreInteractive(kept[i].value);
        }
      }
    }
  }
}
