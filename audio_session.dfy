// VoiceInk-ios/AudioSessionManager.swift: keeping the recording session
// active between recordings and deactivating it after a countdown. The
// repeating one-second timer is the explicit `Tick`; the OS answers to
// activation and deactivation are boolean arguments; the configured timeout
// in seconds is an argument.
module AudioSession {
  /** The observable state: whether the session is active, the seconds left,
      and whether a deactivation timer is pending. */
  datatype SessionState = SessionState(active: bool, remaining: int, timer: bool)

  /** A timer is pending exactly while seconds remain. */
  predicate Consistent(s: SessionState) {
    s.remaining >= 0 && (s.timer <==> s.remaining > 0)
  }

  /** `cancelScheduledDeactivation`. */
  function Cancelled(s: SessionState): (r: SessionState)
    ensures !r.timer && r.remaining == 0 && r.active == s.active
  {
    s.(timer := false, remaining := 0)
  }

  /** `activateSessionForRecording`: on success active, with no timer. */
  function Activated(s: SessionState, osOk: bool): (r: SessionState)
    ensures osOk ==> r == SessionState(true, 0, false)
    ensures !osOk ==> r == s
  {
    if osOk then Cancelled(s.(active := true)) else s
  }

  /** `deactivateSession`: the timer goes whatever happens; an active
      session ends only when the OS agrees. */
  function Deactivated(s: SessionState, osOk: bool): (r: SessionState)
    ensures !r.timer && r.remaining == 0
    ensures r.active <==> s.active && !osOk
  {
    var c := Cancelled(s);
    if !c.active then c
    else if osOk then c.(active := false, remaining := 0)
    else c
  }

  /** `forceDeactivate`: as deactivation, but without asking whether the
      session is active. */
  function Forced(s: SessionState, osOk: bool): (r: SessionState)
    ensures !r.timer && r.remaining == 0
    ensures r.active <==> s.active && !osOk
  {
    var c := Cancelled(s);
    if osOk then c.(active := false, remaining := 0) else c
  }

  /** `scheduleDeactivation`: the old timer is always cancelled first; a
      timeout of zero or less deactivates at once, any other arms one timer. */
  function Scheduled(s: SessionState, timeout: int, osOk: bool): (r: SessionState)
    ensures timeout <= 0 ==> r == Deactivated(s, osOk)
    ensures timeout > 0 ==> r == SessionState(s.active, timeout, true)
  {
    var c := Cancelled(s);
    if timeout <= 0 then Deactivated(c, osOk) else c.(remaining := timeout, timer := true)
  }

  /** `extendTimeout`: a rescheduling, only for an active session. */
  function Extended(s: SessionState, timeout: int, osOk: bool): (r: SessionState)
    ensures !s.active ==> r == s
    ensures s.active ==> r == Scheduled(s, timeout, osOk)
  {
    if !s.active then s else Scheduled(s, timeout, osOk)
  }

  /** One firing of the timer: a second less, and deactivation when none is
      left. Without a timer nothing fires. */
  function Ticked(s: SessionState, osOk: bool): (r: SessionState)
    ensures !s.timer ==> r == s
    ensures s.timer && s.remaining > 1 ==> r == s.(remaining := s.remaining - 1)
    ensures s.timer && s.remaining <= 1 ==> r == Deactivated(s, osOk)
  {
    if !s.timer then s
    else
      var d := s.(remaining := s.remaining - 1);
      if d.remaining <= 0 then Deactivated(d, osOk) else d
  }

  function Ticks(s: SessionState, n: nat, osOk: bool): SessionState {
    if n == 0 then s else Ticked(Ticks(s, n - 1, osOk), osOk)
  }

  /** Every operation keeps a pending timer and the seconds left in step. */
  lemma OperationsKeepConsistent(s: SessionState, timeout: int, osOk: bool)
    requires Consistent(s)
    ensures Consistent(Activated(s, osOk)) && Consistent(Deactivated(s, osOk))
    ensures Consistent(Forced(s, osOk)) && Consistent(Scheduled(s, timeout, osOk))
    ensures Consistent(Extended(s, timeout, osOk)) && Consistent(Ticked(s, osOk))
  {
  }

  /** Before the last second the countdown only counts down. */
  lemma {:induction false} Countdown(s: SessionState, j: nat, osOk: bool)
    requires s.timer && j < s.remaining
    ensures Ticks(s, j, osOk) == s.(remaining := s.remaining - j)
  {
    if j > 0 {
      Countdown(s, j - 1, osOk);
    }
  }

  /** A timeout of k > 0 seconds deactivates on the k-th tick and not before;
      before that the seconds left go down by one per tick. */
  lemma DeactivatesOnKthTick(s: SessionState, k: int, osOk: bool)
    requires k > 0
    ensures var armed := Scheduled(s, k, osOk);
      && (forall j: nat :: j < k ==> Ticks(armed, j, osOk) == SessionState(s.active, k - j, true))
      && Ticks(armed, k, osOk) == Deactivated(armed, osOk)
  {
    var armed := Scheduled(s, k, osOk);
    forall j: nat | j < k
      ensures Ticks(armed, j, osOk) == SessionState(s.active, k - j, true)
    {
      Countdown(armed, j, osOk);
    }
    Countdown(armed, k - 1, osOk);
  }

  /** Scheduling ignores whatever timer was pending before. */
  lemma SchedulingReplacesTimer(s: SessionState, remaining: int, timer: bool, timeout: int, osOk: bool)
    ensures Scheduled(s.(remaining := remaining, timer := timer), timeout, osOk) == Scheduled(s, timeout, osOk)
  {
  }

  /** `AudioSessionManager`. */
  class AudioSessionManager {
    var isSessionActive: bool
    var timeoutRemaining: int
    var hasDeactivationTimer: bool

    function State(): SessionState
      reads this
    {
      SessionState(isSessionActive, timeoutRemaining, hasDeactivationTimer)
    }

    constructor()
      ensures State() == SessionState(false, 0, false)
    {
      isSessionActive := false;
      timeoutRemaining := 0;
      hasDeactivationTimer := false;
    }

    method CancelScheduledDeactivation()
      modifies this
      ensures State() == Cancelled(old(State()))
    {
      hasDeactivationTimer := false;
      timeoutRemaining := 0;
    }

    /** `categoryOk` and `activeOk` are the answers to setting the category
        and activating; either failure is rethrown with the state untouched. */
    method ActivateSessionForRecording(categoryOk: bool, activeOk: bool) returns (failed: bool)
      modifies this
      ensures failed <==> !(categoryOk && activeOk)
      ensures State() == Activated(old(State()), categoryOk && activeOk)
    {
      if !categoryOk || !activeOk {
        return true;
      }
      isSessionActive := true;
      CancelScheduledDeactivation();
      failed := false;
    }

    method ScheduleDeactivation(timeoutSeconds: int, osOk: bool)
      modifies this
      ensures State() == Scheduled(old(State()), timeoutSeconds, osOk)
    {
      CancelScheduledDeactivation();
      if !(timeoutSeconds > 0) {
        DeactivateSession(osOk);
        return;
      }
      timeoutRemaining := timeoutSeconds;
      hasDeactivationTimer := true;
    }

    /** The timer's firing. */
    method Tick(osOk: bool)
      modifies this
      ensures State() == Ticked(old(State()), osOk)
    {
      if !hasDeactivationTimer {
        return;
      }
      timeoutRemaining := timeoutRemaining - 1;
      if timeoutRemaining <= 0 {
        DeactivateSession(osOk);
      }
    }

    method ExtendTimeout(timeoutSeconds: int, osOk: bool)
      modifies this
      ensures State() == Extended(old(State()), timeoutSeconds, osOk)
    {
      if !isSessionActive {
        return;
      }
      ScheduleDeactivation(timeoutSeconds, osOk);
    }

    method DeactivateSession(osOk: bool)
      modifies this
      ensures State() == Deactivated(old(State()), osOk)
    {
      CancelScheduledDeactivation();
      if !isSessionActive {
        return;
      }
      if osOk {
        isSessionActive := false;
        timeoutRemaining := 0;
      }
    }

    method ForceDeactivate(osOk: bool)
      modifies this
      ensures State() == Forced(old(State()), osOk)
    {
      CancelScheduledDeactivation();
      if osOk {
        isSessionActive := false;
        timeoutRemaining := 0;
      }
    }

    /** `handleAppWillTerminate`. */
    method HandleAppWillTerminate(osOk: bool)
      modifies this
      ensures State() == Forced(old(State()), osOk)
    {
      ForceDeactivate(osOk);
    }
  }
}
