/**
 * What one request can and cannot do: when it commits, what it leaves on the display, and
 * that display and power state agree afterwards.
 */
module RequestLaws {
  import opened PowerTypes
  import opened FfrtTimer
  import opened StateEngine

  // ---------------------------------------------------------------------------------------
  // One request

  predicate Committed(a: Answer) { a.verdict == Done(Success) }

  /** A running lock is held that keeps the device from entering `target`. */
  predicate Blocked(locks: Locks, target: PowerState) {
    (locks.screen > 0 && (target == Inactive || target == Dim)) || (locks.coordination > 0 && target == Sleep)
  }

  /** The state a request starts from: the current state, reconciled with the display. */
  function From(m: Machine, target: PowerState): PowerState {
    MatchState(target, m.current, m.display)
  }

  /** What holds whenever a request commits. */
  ghost predicate MayCommit(b: Build, m: Machine, target: PowerState, reason: Reason, force: bool) {
    var from := From(m, target);
    && CheckState(b, target, from)
    && (reason.Init? || (!Forbidden(b, from, target) && AllowedByReason(reason, from, target)))
    && (IgnoresLocks(m, reason, force) || LocksAllow(m.locks, target))
  }

  /** What neither checks nor actions change. */
  ghost predicate SameGivens(m: Machine, n: Machine) {
    && n.current == m.current && n.locks == m.locks && n.forceTimingOut == m.forceTimingOut && n.off == m.off
    && n.dozeEnabled == m.dozeEnabled && n.hibernating == m.hibernating && n.notices == m.notices
  }

  lemma GateOutline(m: Machine, target: PowerState, reason: Reason)
    ensures var n := HandlePreBright(m, target, reason).m;
      SameGivens(m, n) && n.display == m.display && n.flag == m.flag
  {
  }

  lemma CheckOutline(b: Build, m: Machine, target: PowerState, reason: Reason, ignoreLock: bool, env: Env)
    ensures var s := Check(b, m, target, reason, ignoreLock, env);
      && (s.m == m || s.m == m.(sleepStarts := m.sleepStarts + 1))
      && (s.result.Success? ==>
            && CheckState(b, target, m.current)
            && (reason.Init? || (!Forbidden(b, m.current, target) && AllowedByReason(reason, m.current, target)))
            && (ignoreLock || LocksAllow(m.locks, target)))
  {
    hide CheckState, Forbidden, AllowedByReason, WakeBlockedBySensor, ProximityTaskInvalid, LocksAllow;
  }

  lemma AdmitOutline(b: Build, m: Machine, target: PowerState, reason: Reason, ignoreLock: bool, env: Env)
    ensures var s := Admit(b, m, target, reason, ignoreLock, env);
      && SameGivens(m, s.m) && s.m.display == m.display && s.m.flag == m.flag
      && (s.result.Success? ==>
            && CheckState(b, target, m.current)
            && (reason.Init? || (!Forbidden(b, m.current, target) && AllowedByReason(reason, m.current, target)))
            && (ignoreLock || LocksAllow(m.locks, target)))
  {
    hide Check, HandlePreBright, CheckState, Forbidden, AllowedByReason, LocksAllow;
    CheckOutline(b, m, target, reason, ignoreLock, env);
    GateOutline(Check(b, m, target, reason, ignoreLock, env).m, target, reason);
  }

  lemma ResetOutline(b: Build, m: Machine)
    ensures SameGivens(m, ResetInactiveTimer(b, m)) && ResetInactiveTimer(b, m).display == m.display
  {
    hide Arm, CancelActivityTimers, DimTime, Interrupt;
  }

  lemma ActionOutline(b: Build, m: Machine, target: PowerState, reason: Reason, env: Env)
    ensures SameGivens(m, Action(b, m, target, reason, env).m)
  {
    match target
    case Awake =>
      hide ResetInactiveTimer;
      forall n: Machine ensures SameGivens(n, ResetInactiveTimer(b, n)) { ResetOutline(b, n); }
    case Inactive =>
    case Dim => DimOutline(b, m, reason, env);
    case _ =>
  }

  lemma DimOutline(b: Build, m: Machine, reason: Reason, env: Env)
    ensures SameGivens(m, DimAction(b, m, reason, env).m)
  {
    hide ResetInactiveTimer, DimTimeFor, CancelActivityTimers, Arm;
    ResetOutline(b, SetDisplay(DimFirstHalf(b, m, reason, env), DisplayOn, env.restoreOk));
  }

  /** A request commits its target, or leaves the reconciled state, or (stale) leaves everything. */
  lemma RequestOutline(b: Build, m: Machine, target: PowerState, reason: Reason, force: bool, env: Env)
    ensures var a := SetState(b, m, target, reason, force, env);
      && (Committed(a) ==> a.m.current == target && MayCommit(b, m, target, reason, force))
      && (!Committed(a) ==> a.m.current == if a.verdict.StaleTask? then m.current else From(m, target))
      && (a.verdict.StaleTask? ==> a.m == m)
      && (!a.verdict.StaleTask? ==> a.m.flag == NoSetting)
      && a.m.locks == m.locks && a.m.forceTimingOut == m.forceTimingOut && a.m.off == m.off
      && a.m.dozeEnabled == m.dozeEnabled && a.m.hibernating == m.hibernating
  {
    hide TaskAvailable, MatchState, Admit, Action, CheckState, Forbidden, AllowedByReason, LocksAllow, IgnoresLocks,
      FlagFor, NeedNotify;
    var m1 := Matched(m.(flag := FlagFor(target, reason)), target);
    var admitted := Admit(b, m1, target, reason, IgnoresLocks(m, reason, force), env);
    AdmitOutline(b, m1, target, reason, IgnoresLocks(m, reason, force), env);
    ActionOutline(b, admitted.m, target, reason, env);
  }

  // ---------------------------------------------------------------------------------------
  // Power state and display

  /** AWAKE never goes with a display that is off, nor INACTIVE with one that is on or dimmed. */
  predicate DisplayAgrees(state: PowerState, display: DisplayState) {
    !(state == Awake && display == DisplayOff) && !(state == Inactive && ScreenOn(display))
  }

  /** Reconciling once is enough, and repairs every disagreement it is not told to skip. */
  lemma MatchStateSettles(target: PowerState, current: PowerState, display: DisplayState)
    ensures var s := MatchState(target, current, display);
      && MatchState(target, s, display) == s
      && (!SkipsMatch(target, current) ==> DisplayAgrees(s, display))
      && (DisplayAgrees(current, display) && current !in {Freeze, StandBy, Doze} ==> s == current)
  {
  }

  /** What an action leaves on the display. */
  ghost predicate DisplayAfter(m: Machine, target: PowerState, reason: Reason, s: Step) {
    match target
    case Awake =>
      s.m.display == if !s.result.Success? then m.display else if !reason.AuthFailScreenOff? then DisplayOn
                     else if m.dozeEnabled then DisplayDoze else DisplayOff
    case Inactive =>
      if s.result.Success? then s.m.display in {DisplayOff, DisplayDoze} else s.m.display == m.display
    case Dim => if s.result.Success? then s.m.display == DisplayDim else s.m.display == m.display || ScreenOn(s.m.display)
    case _ => s.m.display == m.display
  }

  lemma ActionDisplay(b: Build, m: Machine, target: PowerState, reason: Reason, env: Env)
    ensures DisplayAfter(m, target, reason, Action(b, m, target, reason, env))
  {
    hide ResetInactiveTimer, DimTimeFor, CancelActivityTimers, Arm, Interrupt;
    forall n: Machine ensures ResetInactiveTimer(b, n).display == n.display { ResetOutline(b, n); }
  }

  /** The display after a request: what the action leaves, or what it was. */
  lemma RequestDisplay(b: Build, m: Machine, target: PowerState, reason: Reason, force: bool, env: Env)
    ensures var a := SetState(b, m, target, reason, force, env);
      && (!MayCommit(b, m, target, reason, force) ==> a.m.display == m.display)
      && (!a.verdict.StaleTask? ==> DisplayAfter(m, target, reason, Step(a.m, a.verdict.result)))
  {
    hide TaskAvailable, MatchState, Admit, Action, CheckState, Forbidden, AllowedByReason, LocksAllow, IgnoresLocks,
      FlagFor, NeedNotify;
    var m1 := Matched(m.(flag := FlagFor(target, reason)), target);
    var admitted := Admit(b, m1, target, reason, IgnoresLocks(m, reason, force), env);
    AdmitOutline(b, m1, target, reason, IgnoresLocks(m, reason, force), env);
    ActionDisplay(b, admitted.m, target, reason, env);
  }

  /** The requests that the service makes. */
  predicate Requestable(target: PowerState, reason: Reason) {
    && target in {Awake, Inactive, Dim, Sleep, Hibernate}
    && (reason.Init? ==> target in {Awake, Inactive})
  }

  /**
   * From any power state and any display, a request to AWAKE, INACTIVE or DIM that is not
   * turned away as stale leaves display and power state in agreement, whether it commits,
   * is refused, fails or is interrupted. The one exception is exactly a committed failure
   * of pre-bright authentication that turns the screen off.
   */
  lemma RequestsRestoreAgreement(b: Build, m: Machine, target: PowerState, reason: Reason, force: bool, env: Env)
    requires target in {Awake, Inactive, Dim} && Requestable(target, reason)
    ensures var a := SetState(b, m, target, reason, force, env);
      !a.verdict.StaleTask? ==>
        (DisplayAgrees(a.m.current, a.m.display) <==>
         !(Committed(a) && target == Awake && reason.AuthFailScreenOff? && !m.dozeEnabled))
  {
    hide SetState, MatchState, CheckState, AllowedByReason, IgnoresLocks, LocksAllow;
    RequestOutline(b, m, target, reason, force, env);
    RequestDisplay(b, m, target, reason, force, env);
    MatchStateSettles(target, m.current, m.display);
    if SkipsMatch(target, m.current) {
      assert From(m, target) == m.current by { SkippedMatch(target, m.current, m.display); }
    }
  }

  lemma SkippedMatch(target: PowerState, current: PowerState, display: DisplayState)
    requires SkipsMatch(target, current)
    ensures MatchState(target, current, display) == current
  {
  }

  /** Once in agreement, only that one request can break it. */
  lemma AgreementKept(b: Build, m: Machine, target: PowerState, reason: Reason, force: bool, env: Env)
    requires Requestable(target, reason) && DisplayAgrees(m.current, m.display)
    requires m.current !in {Freeze, StandBy, Doze}
    requires target == Awake && reason.AuthFailScreenOff? ==> m.dozeEnabled
    ensures var a := SetState(b, m, target, reason, force, env);
      DisplayAgrees(a.m.current, a.m.display) && a.m.current !in {Freeze, StandBy, Doze}
  {
    hide SetState, MatchState, CheckState, AllowedByReason, IgnoresLocks, LocksAllow, Forbidden;
    RequestOutline(b, m, target, reason, force, env);
    RequestDisplay(b, m, target, reason, force, env);
    MatchStateSettles(target, m.current, m.display);
    if target in {Awake, Inactive, Dim} {
      RequestsRestoreAgreement(b, m, target, reason, force, env);
    }
  }

  /** Being told that the machine is in the state already means that it is. */
  lemma AlreadyThere(b: Build, m: Machine, target: PowerState, reason: Reason, ignoreLock: bool, env: Env)
    ensures TransitTo(b, m, target, reason, ignoreLock, env).result == AlreadyInState ==>
              From(m, target) == target
  {
    hide MatchState, CanTransitTo, LocksAllow, Refuse, ResetInactiveTimer, CancelActivityTimers, DimFirstHalf,
      HandlePreBright, Commit;
  }

  /**
   * What a caller can rely on: a stale timer task changes nothing and is told so; after any
   * other request the flag is clear and, with the one known exception, display and power state
   * agree; and who is answered yes finds the machine in the state that was asked for.
   */
  lemma CallersView(b: Build, m: Machine, target: PowerState, reason: Reason, force: bool, env: Env)
    ensures var a := SetState(b, m, target, reason, force, env);
      && (!TaskAvailable(b, m.timers, target, reason, env.task) ==> a == Answer(m, StaleTask))
      && (TaskAvailable(b, m.timers, target, reason, env.task) ==> a.m.flag == NoSetting)
      && (TaskAvailable(b, m.timers, target, reason, env.task) && target in {Awake, Inactive, Dim} &&
          Requestable(target, reason) && !(target == Awake && reason.AuthFailScreenOff?) ==>
            DisplayAgrees(a.m.current, a.m.display))
      && (Accepted(a.verdict) ==> a.m.current == target)
  {
    hide TaskAvailable, TransitTo, IgnoresLocks, FlagFor, DisplayAgrees, MatchState, MayCommit;
    RequestOutline(b, m, target, reason, force, env);
    AlreadyThere(b, m.(flag := FlagFor(target, reason)), target, reason, IgnoresLocks(m, reason, force), env);
    if target in {Awake, Inactive, Dim} && Requestable(target, reason) {
      RequestsRestoreAgreement(b, m, target, reason, force, env);
    }
  }
}
