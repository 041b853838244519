/**
 * Timeouts: which timer tasks may still act, and when an idle device dims and turns off.
 */
module Timeouts {
  import opened PowerTypes
  import opened FfrtTimer
  import opened StateEngine
  import opened RequestLaws
  import opened PreBrightProtocol

  // ---------------------------------------------------------------------------------------
  // A timer task that was superseded while it waited for its turn

  /**
   * A task is armed for timer `id`; `later` is everything that any thread then does to the
   * timers, until the task's request is looked at. The request passes iff `later` neither
   * sets nor cancels `id` and `id` is the timer for that state (or, in the charging-type
   * build, the auto-sleep timer). Otherwise it changes nothing at all.
   */
  lemma StaleTimeoutIsHarmless(
      b: Build, m: Machine, earlier: seq<TimerOp>, id: TimerId, delay: int, later: seq<TimerOp>,
      target: PowerState, reason: Reason, force: bool, env: Env)
    requires IsTimeoutReason(reason)
    requires m.timers == ApplyAll(Arm(ApplyAll(NO_TIMERS, earlier), id, delay), later)
    requires env.task == Some(NextHandle(ApplyAll(NO_TIMERS, earlier), id, delay))
    ensures var current :=
        Undisturbed(later, id) && (id == TimerOf(target) || (b.chargingType && id == TIMER_ID_AUTO_SLEEP));
      && (current <==> TaskAvailable(b, m.timers, target, reason, env.task))
      && (current <==> !SetState(b, m, target, reason, force, env).verdict.StaleTask?)
      && (!current ==> SetState(b, m, target, reason, force, env) == Answer(m, StaleTask))
  {
    hide TransitTo, NextHandle, Arm, ApplyAll, Undisturbed, Stored;
    LatestTask(earlier, id, delay, later, TimerOf(target));
    LatestTask(earlier, id, delay, later, TIMER_ID_AUTO_SLEEP);
  }

  // ---------------------------------------------------------------------------------------
  // Time until DIM and until the screen is turned off

  /** How long the screen stays fully on without activity. */
  function ActiveTime(b: Build, displayOffTime: int): int {
    displayOffTime - DimTime(b, displayOffTime)
  }

  /** A longer screen-off time never shortens the active time; a long dim caps it. */
  lemma ActiveTimeMonotone(b: Build, x: int, y: int)
    requires 0 <= x <= y
    ensures 0 <= DimTime(b, x) <= x
    ensures ActiveTime(b, x) <= ActiveTime(b, y)
    ensures b.longTimeDim && b.activeBeforeDim >= DEFAULT_ACTIVE_TIME_MS ==> ActiveTime(b, y) <= b.activeBeforeDim
    ensures !b.longTimeDim ==> ActiveTime(b, y) >= y - MAX_DIM_TIME_MS
  {
    assert x / 5 <= y / 5 && (y / 5) - (x / 5) <= y - x;
  }

  /** Time passes until the task of `id` is due, and the task starts. */
  function AtDue(m: Machine, id: TimerId): Machine
    requires id in m.timers.stored && m.timers.now <= m.timers.stored[id].due
  {
    var h := m.timers.stored[id];
    m.(timers := Fire(Tick(m.timers, h.due - m.timers.now), h))
  }

  lemma CancelRefines(v: TimerView)
    requires Coherent(v)
    ensures Coherent(CancelActivityTimers(v))
    ensures Pending(CancelActivityTimers(v)) ==
            Pending(v) - {TIMER_ID_USER_ACTIVITY_TIMEOUT} - {TIMER_ID_USER_ACTIVITY_OFF}
    ensures CancelActivityTimers(v).now == v.now
  {
    hide Coherent, Pending;
    DisarmRefines(v, TIMER_ID_USER_ACTIVITY_TIMEOUT);
    DisarmRefines(Disarm(v, TIMER_ID_USER_ACTIVITY_TIMEOUT), TIMER_ID_USER_ACTIVITY_OFF);
  }

  /** Only `armed` of the two activity timers is pending, due at `due`, in a coherent queue. */
  ghost predicate OnlyPending(v: TimerView, armed: TimerId, other: TimerId, due: int) {
    && Coherent(v)
    && Armed(v, armed) && v.stored[armed].due == due && v.now <= due
    && !Armed(v, other)
  }

  lemma ArmedOnly(v: TimerView, armed: TimerId, other: TimerId, delay: int)
    requires Coherent(v) && armed != other && 0 <= delay < 0x1_0000_0000
    requires {armed, other} == {TIMER_ID_USER_ACTIVITY_TIMEOUT, TIMER_ID_USER_ACTIVITY_OFF}
    ensures OnlyPending(Arm(CancelActivityTimers(v), armed, delay), armed, other, v.now + delay)
  {
    var t := CancelActivityTimers(v);
    CancelRefines(v);
    ArmRefines(t, armed, delay);
    assert other !in Pending(t);
    assert other !in Pending(Arm(t, armed, delay));
  }

  /** Activity at time t0 arms the inactivity timer for the end of the active time. */
  lemma ResetArms(b: Build, m: Machine)
    requires Coherent(m.timers) && 0 <= m.off.effective < 0x1_0000_0000
    ensures OnlyPending(ResetInactiveTimer(b, m).timers, TIMER_ID_USER_ACTIVITY_TIMEOUT, TIMER_ID_USER_ACTIVITY_OFF,
                        m.timers.now + ActiveTime(b, m.off.effective))
  {
    hide Coherent, Armed, DimTime, OnlyPending, Arm, CancelActivityTimers;
    ActiveTimeMonotone(b, m.off.effective, m.off.effective);
    ArmedOnly(m.timers, TIMER_ID_USER_ACTIVITY_TIMEOUT, TIMER_ID_USER_ACTIVITY_OFF, ActiveTime(b, m.off.effective));
  }

  /** An idle, fully lit device that no running lock keeps on. */
  ghost predicate Idle(m: Machine) {
    && Coherent(m.timers) && 0 <= m.off.effective < 0x1_0000_0000
    && m.current in {Awake, Dim} && !m.preBright.Started?
    && m.display in {DisplayOn, DisplayDim}
    && (m.locks.screen == 0 || m.forceTimingOut)
  }

  /** The answers of the surroundings, given that task `h` asks and no refresh interferes. */
  function ByTask(env: Env, h: Handle): Env { env.(task := Some(h), hit := false) }

  /** Nothing turns away a timeout request of an idle device's own timer task. */
  lemma IdleAdmits(b: Build, m: Machine, target: PowerState, env: Env)
    requires Idle(m) && ((target == Dim && m.current == Awake) || target == Inactive)
    ensures Matched(m, target) == m
    ensures Admit(b, m, target, Timeout, IgnoresLocks(m, Timeout, false), env) == Step(m.(preBright := Unstarted), Success)
  {
    hide Coherent;
  }

  lemma DimTurnsDown(b: Build, m: Machine, env: Env)
    requires Idle(m) && m.flag == Setting(Dim) && !env.hit
    ensures var s := DimAction(b, m, Timeout, env);
      && s.result == (if env.displayOk then Success else OtherErr)
      && Idle(s.m) && s.m.current == m.current && s.m.off == m.off
      && OnlyPending(s.m.timers, TIMER_ID_USER_ACTIVITY_OFF, TIMER_ID_USER_ACTIVITY_TIMEOUT,
                     m.timers.now + DimTime(b, m.off.effective))
  {
    hide Coherent, Armed, DimTime, Arm, CancelActivityTimers, ResetInactiveTimer;
    ActiveTimeMonotone(b, m.off.effective, m.off.effective);
    ArmedOnly(m.timers, TIMER_ID_USER_ACTIVITY_OFF, TIMER_ID_USER_ACTIVITY_TIMEOUT, DimTime(b, m.off.effective));
  }

  /** The DIM request of the inactivity timer's task, made when it is due. */
  lemma DimRequest(b: Build, m: Machine, env: Env)
    requires Idle(m) && m.current == Awake && TIMER_ID_USER_ACTIVITY_TIMEOUT in m.timers.stored
    ensures var a := SetState(b, m, Dim, Timeout, false, ByTask(env, m.timers.stored[TIMER_ID_USER_ACTIVITY_TIMEOUT]));
      && a.verdict == Done(if env.displayOk then Success else OtherErr)
      && Idle(a.m) && a.m.off == m.off
      && OnlyPending(a.m.timers, TIMER_ID_USER_ACTIVITY_OFF, TIMER_ID_USER_ACTIVITY_TIMEOUT,
                     m.timers.now + DimTime(b, m.off.effective))
  {
    hide Coherent, DimTime, OnlyPending, Admit, DimAction, NeedNotify, Matched, IgnoresLocks;
    var e := ByTask(env, m.timers.stored[TIMER_ID_USER_ACTIVITY_TIMEOUT]);
    var m1 := m.(flag := Setting(Dim));
    IdleAdmits(b, m1, Dim, e);
    assert IgnoresLocks(m1, Timeout, false) == IgnoresLocks(m, Timeout, false) by { SameIgnores(m, m1); }
    DimTurnsDown(b, m1.(preBright := Unstarted), e);
  }

  lemma SameIgnores(m: Machine, n: Machine)
    requires n.forceTimingOut == m.forceTimingOut
    ensures IgnoresLocks(m, Timeout, false) == IgnoresLocks(n, Timeout, false)
  {
  }

  /** The INACTIVE request of the screen-off timer's task, made when it is due. */
  lemma OffRequest(b: Build, m: Machine, env: Env)
    requires Idle(m) && TIMER_ID_USER_ACTIVITY_OFF in m.timers.stored
    ensures var a := SetState(b, m, Inactive, Timeout, false, ByTask(env, m.timers.stored[TIMER_ID_USER_ACTIVITY_OFF]));
      && a.verdict == Done(if env.displayOk then Success else DisplayOffErr)
      && (env.displayOk ==> a.m.current == Inactive && a.m.display in {DisplayOff, DisplayDoze})
  {
    hide Coherent, Admit, NeedNotify, Matched, IgnoresLocks, CancelActivityTimers;
    var e := ByTask(env, m.timers.stored[TIMER_ID_USER_ACTIVITY_OFF]);
    var m1 := m.(flag := Setting(Inactive));
    IdleAdmits(b, m1, Inactive, e);
    assert IgnoresLocks(m1, Timeout, false) == IgnoresLocks(m, Timeout, false) by { SameIgnores(m, m1); }
  }

  lemma DueKeepsIdle(m: Machine, id: TimerId)
    requires Idle(m) && id in m.timers.stored && m.timers.now <= m.timers.stored[id].due
    ensures Idle(AtDue(m, id)) && AtDue(m, id).timers.stored == m.timers.stored
    ensures AtDue(m, id).timers.now == m.timers.stored[id].due
  {
  }

  /**
   * A device is fully on at time t0 and nobody touches it. Its task asks for DIM at the end
   * of the active time, and its other task asks for INACTIVE at exactly t0 plus the
   * screen-off time, even when the display call of the DIM fails; if the display obeys
   * then, the device is INACTIVE with the screen off.
   */
  lemma IdleDeviceTurnsOffOnTime(b: Build, m: Machine, env1: Env, env2: Env)
    requires Idle(m) && m.current == Awake
    ensures var off := m.off.effective;
      var m1 := ResetInactiveTimer(b, m);
      && Armed(m1.timers, TIMER_ID_USER_ACTIVITY_TIMEOUT) && !Armed(m1.timers, TIMER_ID_USER_ACTIVITY_OFF)
      && m1.timers.stored[TIMER_ID_USER_ACTIVITY_TIMEOUT].due == m.timers.now + off - DimTime(b, off) >= m1.timers.now
      && var m2 := AtDue(m1, TIMER_ID_USER_ACTIVITY_TIMEOUT);
         var a2 := SetState(b, m2, Dim, Timeout, false, ByTask(env1, m2.timers.stored[TIMER_ID_USER_ACTIVITY_TIMEOUT]));
         && a2.verdict == Done(if env1.displayOk then Success else OtherErr)
         && Armed(a2.m.timers, TIMER_ID_USER_ACTIVITY_OFF) && !Armed(a2.m.timers, TIMER_ID_USER_ACTIVITY_TIMEOUT)
         && a2.m.timers.stored[TIMER_ID_USER_ACTIVITY_OFF].due == m.timers.now + off >= a2.m.timers.now
         && var m3 := AtDue(a2.m, TIMER_ID_USER_ACTIVITY_OFF);
            var a3 := SetState(b, m3, Inactive, Timeout, false, ByTask(env2, m3.timers.stored[TIMER_ID_USER_ACTIVITY_OFF]));
            && a3.verdict == Done(if env2.displayOk then Success else DisplayOffErr)
            && (env2.displayOk ==> a3.m.current == Inactive && a3.m.display in {DisplayOff, DisplayDoze})
  {
    hide Coherent, Idle, SetState, ResetInactiveTimer, AtDue, DimTime;
    var m1 := ResetInactiveTimer(b, m);
    assert Idle(m1) && m1.timers.now == m.timers.now && m1.off == m.off && m1.current == m.current by { ResetKeepsIdle(b, m); }
    assert 0 <= DimTime(b, m.off.effective) <= m.off.effective by { DimTimeInRange(b, m); }
    assert OnlyPending(m1.timers, TIMER_ID_USER_ACTIVITY_TIMEOUT, TIMER_ID_USER_ACTIVITY_OFF,
                       m.timers.now + ActiveTime(b, m.off.effective)) by { IdleReset(b, m); }
    DueKeepsIdle(m1, TIMER_ID_USER_ACTIVITY_TIMEOUT);
    var m2 := AtDue(m1, TIMER_ID_USER_ACTIVITY_TIMEOUT);
    DueKeepsRest(m1, TIMER_ID_USER_ACTIVITY_TIMEOUT);
    DimRequest(b, m2, env1);
    var a2 := SetState(b, m2, Dim, Timeout, false, ByTask(env1, m2.timers.stored[TIMER_ID_USER_ACTIVITY_TIMEOUT]));
    DueKeepsIdle(a2.m, TIMER_ID_USER_ACTIVITY_OFF);
    OffRequest(b, AtDue(a2.m, TIMER_ID_USER_ACTIVITY_OFF), env2);
  }

  lemma DueKeepsRest(m: Machine, id: TimerId)
    requires id in m.timers.stored && m.timers.now <= m.timers.stored[id].due
    ensures AtDue(m, id).off == m.off && AtDue(m, id).current == m.current
  {
  }

  lemma DimTimeInRange(b: Build, m: Machine)
    requires Idle(m)
    ensures 0 <= DimTime(b, m.off.effective) <= m.off.effective
  {
    ActiveTimeMonotone(b, m.off.effective, m.off.effective);
  }

  lemma IdleReset(b: Build, m: Machine)
    requires Idle(m)
    ensures OnlyPending(ResetInactiveTimer(b, m).timers, TIMER_ID_USER_ACTIVITY_TIMEOUT, TIMER_ID_USER_ACTIVITY_OFF,
                        m.timers.now + ActiveTime(b, m.off.effective))
  {
    ResetArms(b, m);
  }

  lemma ResetKeepsIdle(b: Build, m: Machine)
    requires Idle(m)
    ensures var n := ResetInactiveTimer(b, m);
      Idle(n) && n.timers.now == m.timers.now && n.off == m.off && n.current == m.current
  {
    hide Coherent, DimTime, Arm, CancelActivityTimers, OnlyPending;
    assert Coherent(ResetInactiveTimer(b, m).timers) by { IdleReset(b, m); PendingCoherent(b, m); }
    ResetClock(b, m);
  }

  lemma PendingCoherent(b: Build, m: Machine)
    requires OnlyPending(ResetInactiveTimer(b, m).timers, TIMER_ID_USER_ACTIVITY_TIMEOUT, TIMER_ID_USER_ACTIVITY_OFF,
                         m.timers.now + ActiveTime(b, m.off.effective))
    ensures Coherent(ResetInactiveTimer(b, m).timers)
  {
  }

  lemma ResetClock(b: Build, m: Machine)
    ensures ResetInactiveTimer(b, m).timers.now == m.timers.now
  {
  }

  // ---------------------------------------------------------------------------------------
  // Which activity timer runs in which state

  /** What each state's action, when it succeeds, leaves of the activity timers. */
  ghost predicate TimersFit(
    b: Build, off: int, now: int, before: TimerView, target: PowerState, reason: Reason, v: TimerView)
  {
    match target
    case Awake =>
      if reason.PreBright? then v == before
      else OnlyPending(v, TIMER_ID_USER_ACTIVITY_TIMEOUT, TIMER_ID_USER_ACTIVITY_OFF, now + ActiveTime(b, off))
    case Inactive => Coherent(v) && !Armed(v, TIMER_ID_USER_ACTIVITY_TIMEOUT) && !Armed(v, TIMER_ID_USER_ACTIVITY_OFF)
    case Dim =>
      OnlyPending(v, TIMER_ID_USER_ACTIVITY_OFF, TIMER_ID_USER_ACTIVITY_TIMEOUT,
                  now + if reason.Coordination? then COORDINATED_STATE_SCREEN_OFF_TIME_MS else DimTime(b, off))
    case _ => v == before
  }

  lemma ActionTimers(b: Build, m: Machine, target: PowerState, reason: Reason, env: Env)
    requires Coherent(m.timers) && 0 <= m.off.effective < 0x1_0000_0000
    ensures var s := Action(b, m, target, reason, env);
      s.result.Success? ==> TimersFit(b, m.off.effective, m.timers.now, m.timers, target, reason, s.m.timers)
  {
    hide Coherent, Armed, DimTime, Arm, CancelActivityTimers, ResetInactiveTimer, OnlyPending;
    match target
    case Awake =>
      forall n: Machine | n.timers == m.timers && n.off == m.off
        ensures OnlyPending(ResetInactiveTimer(b, n).timers, TIMER_ID_USER_ACTIVITY_TIMEOUT, TIMER_ID_USER_ACTIVITY_OFF,
                            m.timers.now + ActiveTime(b, m.off.effective))
      {
        ResetArms(b, n);
      }
    case Inactive => CancelLeavesNone(m.timers);
    case Dim =>
      ActiveTimeMonotone(b, m.off.effective, m.off.effective);
      ArmedOnly(m.timers, TIMER_ID_USER_ACTIVITY_OFF, TIMER_ID_USER_ACTIVITY_TIMEOUT, DimTimeFor(b, m, reason));
    case _ =>
  }

  lemma CancelLeavesNone(v: TimerView)
    requires Coherent(v)
    ensures var w := CancelActivityTimers(v);
      Coherent(w) && !Armed(w, TIMER_ID_USER_ACTIVITY_TIMEOUT) && !Armed(w, TIMER_ID_USER_ACTIVITY_OFF)
  {
    hide Coherent;
    CancelRefines(v);
    assert TIMER_ID_USER_ACTIVITY_TIMEOUT !in Pending(CancelActivityTimers(v));
    assert TIMER_ID_USER_ACTIVITY_OFF !in Pending(CancelActivityTimers(v));
  }

  lemma GateClock(m: Machine, target: PowerState, reason: Reason)
    ensures HandlePreBright(m, target, reason).m.timers.now == m.timers.now
    ensures HandlePreBright(m, target, reason).m.off == m.off
  {
  }

  /**
   * After a committed request the activity timers fit the new state: AWAKE has the inactivity
   * timer for the end of the active time, DIM the screen-off timer, INACTIVE neither; any
   * other state, and a pre-bright wakeup, leaves them to what they were.
   */
  lemma CommittedTimersFit(b: Build, m: Machine, target: PowerState, reason: Reason, force: bool, env: Env)
    requires Coherent(m.timers) && 0 <= m.off.effective < 0x1_0000_0000
    requires Committed(SetState(b, m, target, reason, force, env))
    ensures var gated := HandlePreBright(m, target, reason).m.timers;
      TimersFit(b, m.off.effective, m.timers.now, gated, target, reason,
                SetState(b, m, target, reason, force, env).m.timers)
  {
    hide Coherent, TaskAvailable, SetState, Check, MatchState, HandlePreBright, Action, TimersFit, IgnoresLocks, FlagFor;
    Passage(b, m, target, reason, force, env);
    var checked := Checked(b, m, target, reason, force, env).m;
    CheckOutline(b, Matched(m.(flag := FlagFor(target, reason)), target), target, reason,
                 IgnoresLocks(m, reason, force), env);
    SameGate(m, checked, target, reason);
    GateCoherent(checked, target, reason);
    GateClock(checked, target, reason);
    ActionTimers(b, HandlePreBright(checked, target, reason).m, target, reason, env);
  }

  lemma SameGate(m: Machine, n: Machine, target: PowerState, reason: Reason)
    requires SameTimers(m, n)
    ensures HandlePreBright(n, target, reason).m.timers == HandlePreBright(m, target, reason).m.timers
  {
    hide Arm, Disarm;
  }
}
