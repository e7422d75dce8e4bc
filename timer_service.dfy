/**
 * The work-session timer (Services/TimerService.cs). The one-second
 * DispatcherTimer becomes a `timer` value (absent, enabled or disabled) and a
 * `Tick` method that the host calls when that timer fires; messages sent through
 * the window messenger and the TimerTick event are recorded in logs. The clock
 * reading (`DateTime.Now`), the session's fresh id and the current project's
 * name (read from the project service) are parameters.
 */
module Timer {
  import opened Wrappers
  import opened WorkSessions

  datatype TimerHandle = NoTimer | Ticking(enabled: bool)

  /** The messages the timer sends through the window messenger. */
  datatype Message =
    | TimerStarted(projectName: string, startTime: int)
    | TimerStopped(duration: int, formatted: string)
    | TimerPaused
    | TimerResumed
    | TimerTicked(duration: int, formatted: string)

  /** The arguments of the TimerTick event. */
  datatype TickEvent = TickEvent(durationSeconds: int, formattedDuration: string)

  const DefaultProjectName: string := "默认项目"

  /** The project name a new session records: the one asked for unless it is
      missing or empty, else the current project's, else the default. */
  function SessionProjectName(requested: Option<string>, currentProjectName: Option<string>): (name: string)
    ensures requested.Some? && requested.value != "" ==> name == requested.value
    ensures (requested.None? || requested.value == "") && currentProjectName.Some? ==> name == currentProjectName.value
    ensures (requested.None? || requested.value == "") && currentProjectName.None? ==> name == "默认项目"
  {
    if requested.None? || requested.value == "" then currentProjectName.GetOr(DefaultProjectName)
    else requested.value
  }

  class TimerService {
    var timer: TimerHandle
    var currentSession: Option<WorkSession>
    var messages: seq<Message>
    var tickEvents: seq<TickEvent>

    /** A timer exists exactly while a session is open, and an open session is
        active, unfinished and has a non-negative duration. */
    ghost predicate Valid()
      reads this
    {
      && (timer.Ticking? <==> currentSession.Some?)
      && (currentSession.Some? ==>
            currentSession.value.isActive && currentSession.value.endTime.None?
            && currentSession.value.durationSeconds >= 0)
    }

    constructor ()
      ensures Valid()
      ensures timer == NoTimer && currentSession == None && messages == [] && tickEvents == []
    {
      timer := NoTimer;
      currentSession := None;
      messages := [];
      tickEvents := [];
    }

    /** `IsRunning`: a timer exists and is enabled. */
    predicate IsRunning()
      reads this
    {
      timer == Ticking(true)
    }

    /** Starts a new session. A running timer is stopped first (its session
        closed and reported); a paused one is simply replaced, so its session
        is dropped without a TIMER_STOPPED message. */
    method Start(projectName: Option<string>, currentProjectName: Option<string>, now: int, sessionId: string)
      requires Valid()
      modifies this
      ensures Valid()
      ensures IsRunning()
      ensures currentSession == Some(WorkSession(sessionId, SessionProjectName(projectName, currentProjectName),
                                                 now, None, 0, true, ""))
      ensures tickEvents == old(tickEvents)
      ensures old(IsRunning()) ==>
        messages == old(messages)
          + [TimerStopped(old(currentSession).value.durationSeconds,
                          FormattedDuration(old(currentSession).value.durationSeconds)),
             TimerStarted(SessionProjectName(projectName, currentProjectName), now)]
      ensures !old(IsRunning()) ==>
        messages == old(messages) + [TimerStarted(SessionProjectName(projectName, currentProjectName), now)]
    {
      if IsRunning() {
        var _ := Stop(now);
      }
      var name := SessionProjectName(projectName, currentProjectName);
      var session := NewSession(sessionId, now);
      currentSession := Some(session.(projectName := name, isActive := true, durationSeconds := 0));
      timer := Ticking(true);
      messages := messages + [TimerStarted(name, now)];
    }

    /** Stops the timer and closes the open session, if any, returning it. */
    method Stop(now: int) returns (closed: Option<WorkSession>)
      requires Valid()
      modifies this
      ensures Valid()
      ensures timer == NoTimer && !IsRunning() && currentSession == None
      ensures tickEvents == old(tickEvents)
      ensures old(currentSession).None? ==> closed == None && messages == old(messages)
      ensures old(currentSession).Some? ==>
        && closed == Some(old(currentSession).value.(endTime := Some(now), isActive := false))
        && messages == old(messages)
             + [TimerStopped(old(currentSession).value.durationSeconds,
                             FormattedDuration(old(currentSession).value.durationSeconds))]
    {
      timer := NoTimer;
      closed := None;
      if currentSession.Some? {
        var session := currentSession.value.(endTime := Some(now), isActive := false);
        messages := messages + [TimerStopped(session.durationSeconds, FormattedDuration(session.durationSeconds))];
        currentSession := None;
        closed := Some(session);
      }
    }

    /** Disables a running timer; otherwise does nothing. */
    method Pause()
      requires Valid()
      modifies this
      ensures Valid()
      ensures old(IsRunning()) ==> timer == Ticking(false) && messages == old(messages) + [TimerPaused]
      ensures !old(IsRunning()) ==> timer == old(timer) && messages == old(messages)
      ensures !IsRunning()
      ensures currentSession == old(currentSession) && tickEvents == old(tickEvents)
    {
      if timer.Ticking? && timer.enabled {
        timer := Ticking(false);
        messages := messages + [TimerPaused];
      }
    }

    /** Re-enables a paused timer that still has a session; otherwise does nothing. */
    method Resume()
      requires Valid()
      modifies this
      ensures Valid()
      ensures old(timer) == Ticking(false) && old(currentSession).Some? ==>
        timer == Ticking(true) && messages == old(messages) + [TimerResumed]
      ensures !(old(timer) == Ticking(false) && old(currentSession).Some?) ==>
        timer == old(timer) && messages == old(messages)
      ensures currentSession == old(currentSession) && tickEvents == old(tickEvents)
    {
      if timer.Ticking? && !timer.enabled && currentSession.Some? {
        timer := Ticking(true);
        messages := messages + [TimerResumed];
      }
    }

    /** One firing of the one-second timer (`Timer_Tick`); a disabled or absent
        timer does not fire. The open session's duration grows by exactly one
        second and the new value is published. */
    method Tick()
      requires Valid()
      modifies this
      ensures Valid()
      ensures timer == old(timer)
      ensures old(IsRunning()) ==>
        var d := old(currentSession).value.durationSeconds + 1;
        && currentSession == Some(old(currentSession).value.(durationSeconds := d))
        && tickEvents == old(tickEvents) + [TickEvent(d, FormattedDuration(d))]
        && messages == old(messages) + [TimerTicked(d, FormattedDuration(d))]
      ensures !old(IsRunning()) ==>
        currentSession == old(currentSession) && tickEvents == old(tickEvents) && messages == old(messages)
    {
      if IsRunning() && currentSession.Some? {
        var d := currentSession.value.durationSeconds + 1;
        currentSession := Some(currentSession.value.(durationSeconds := d));
        tickEvents := tickEvents + [TickEvent(d, FormattedDuration(d))];
        messages := messages + [TimerTicked(d, FormattedDuration(d))];
      }
    }
  }
}
