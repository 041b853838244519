/**
 * What one request answers and does, said in plain terms: pairs of power states, counts of
 * locks, stored task handles, displays, pending timers.
 */
module RequestAnswers {
  import opened PowerTypes
  import opened FfrtTimer
  import opened StateEngine
  import opened RequestLaws

  /** The power states of a device in use. */
  predicate InUse(s: PowerState) { s in {Awake, Inactive, Dim, Sleep, Hibernate} }

  // ---------------------------------------------------------------------------------------
  // Where a request starts

  /** Reconciliation, state by state: only a display that is off, dimmed or on corrects, and only awake states. */
  lemma StartsFrom(m: Machine, target: PowerState)
    requires InUse(m.current) && InUse(target)
    ensures From(m, target) ==
            if target in {Sleep, Hibernate} then m.current
            else if m.current == Awake && m.display == DisplayOff then Inactive
            else if m.current == Inactive && m.display == DisplayDim then Dim
            else if m.current == Inactive && m.display == DisplayOn then Awake
            else m.current
  {
  }

  // ---------------------------------------------------------------------------------------
  // The answer

  /** A move between two different states, or within one, that the tables leave open. */
  datatype Move = Move(from: PowerState, to: PowerState)

  const TIMEOUT_MOVES: set<Move> :=
    {Move(Awake, Dim), Move(Awake, Inactive), Move(Dim, Inactive), Move(Inactive, Sleep)}
  const NO_SCREEN_LOCK_MOVES: set<Move> := {Move(Awake, Inactive), Move(Dim, Inactive)}
  const REFRESH_MOVES: set<Move> := {Move(Awake, Awake), Move(Dim, Awake)}
  const ROLLBACK_MOVES: set<Move> := {Move(Awake, Inactive), Move(Inactive, Sleep), Move(Hibernate, Inactive)}
  const NEVER_MOVES: set<Move> := {Move(Awake, Sleep), Move(Dim, Sleep), Move(Inactive, Dim), Move(Sleep, Dim)}

  predicate OpenMove(b: Build, reason: Reason, v: Move) {
    match reason
    case Init => true
    case Timeout => v in TIMEOUT_MOVES
    case TimeoutNoScreenLock => v in NO_SCREEN_LOCK_MOVES
    case Refresh => v in REFRESH_MOVES
    case RollbackReason => v in ROLLBACK_MOVES
    case _ => v !in NEVER_MOVES && v != (if b.s4 then Move(Hibernate, Sleep) else Move(Awake, Hibernate))
  }

  /** Sensors that keep the screen dark: proximity, lid (for a pickup), movement (not for a plug). */
  predicate Darkened(target: PowerState, reason: Reason, env: Env) {
    && target == Awake
    && match reason
       case DoubleClick => env.proximityClose || env.movementOn
       case Pickup => env.proximityClose || env.lidMode || env.movementOn
       case PlugChange => env.proximityClose
       case _ => false
  }

  predicate ProximityGone(m: Machine, target: PowerState, reason: Reason) {
    reason.Proximity? && target == Inactive && m.locks.proximity == 0
  }

  /** The device is where the request wants it, and need not be told again. */
  predicate Already(b: Build, from: PowerState, target: PowerState) {
    from == target && (target in {Inactive, Hibernate} || (target == Sleep && !b.forceSleepBroadcast))
  }

  /** The request comes from a timer task that is not, or no longer, the stored one. */
  predicate FromStaleTask(b: Build, m: Machine, target: PowerState, reason: Reason, task: Option<Handle>) {
    && (reason == Timeout || reason == TimeoutNoScreenLock)
    && task.Some?
    && Stored(m.timers, if target == Dim then TIMER_ID_USER_ACTIVITY_TIMEOUT
                        else if target == Inactive then TIMER_ID_USER_ACTIVITY_OFF else TIMER_ID_SLEEP) != task
    && !(b.chargingType && Stored(m.timers, TIMER_ID_AUTO_SLEEP) == task)
  }

  predicate HeldByLock(m: Machine, target: PowerState, reason: Reason, force: bool) {
    && Blocked(m.locks, target)
    && !force && !(m.forceTimingOut && (reason == Timeout || reason == TimeoutNoScreenLock))
  }

  predicate IsResult(reason: Reason) { reason in {AuthSuccess, AuthFailScreenOn, AuthFailScreenOff} }

  /** What the action of the target state answers. */
  function Acted(b: Build, m: Machine, target: PowerState, reason: Reason, env: Env): TransitResult {
    match target
    case Awake => if env.displayOk then Success else DisplayOnErr
    case Inactive => if env.displayOk then Success else DisplayOffErr
    case Dim =>
      if m.off.effective < 0 && !b.neverSleepDim then OtherErr
      else if env.hit && reason != Coordination then OtherErr
      else if env.displayOk then Success else OtherErr
    case _ => Success
  }

  /** The answer to any request, in any state of a device in use. */
  function Expected(b: Build, m: Machine, target: PowerState, reason: Reason, force: bool, env: Env): Verdict {
    var from := From(m, target);
    if FromStaleTask(b, m, target, reason, env.task) then StaleTask
    else if Already(b, from, target) then Done(AlreadyInState)
    else if !OpenMove(b, reason, Move(from, target)) then Done(ForbidTransit)
    else if !reason.Init? && (Darkened(target, reason, env) || ProximityGone(m, target, reason)) then Done(ForbidTransit)
    else if HeldByLock(m, target, reason, force) then Done(Locking)
    else if IsResult(reason) && !m.preBright.Started? then Done(PreBrightErr)
    else Done(Acted(b, m, target, reason, env))
  }

  lemma TablesAre(b: Build, from: PowerState, target: PowerState, reason: Reason)
    requires InUse(from) && InUse(target)
    ensures OpenMove(b, reason, Move(from, target)) <==>
            reason.Init? || (!Forbidden(b, from, target) && AllowedByReason(reason, from, target))
  {
  }

  lemma DarkenedIs(target: PowerState, reason: Reason, env: Env)
    ensures Darkened(target, reason, env) <==> WakeBlockedBySensor(target, reason, env)
  {
  }

  lemma MovesAreOpen(b: Build, m: Machine, target: PowerState, reason: Reason, env: Env)
    requires InUse(m.current) && InUse(target)
    ensures reason.Init? || CanTransitTo(b, m, target, reason, env) <==>
            OpenMove(b, reason, Move(m.current, target)) &&
            (reason.Init? || !(Darkened(target, reason, env) || ProximityGone(m, target, reason)))
  {
    hide Forbidden, AllowedByReason, OpenMove, Darkened, WakeBlockedBySensor, InUse;
    TablesAre(b, m.current, target, reason);
    DarkenedIs(target, reason, env);
  }

  lemma AlreadyIs(b: Build, from: PowerState, target: PowerState)
    requires InUse(from) && InUse(target)
    ensures Already(b, from, target) <==> !CheckState(b, target, from)
  {
  }

  lemma StaleIs(b: Build, m: Machine, target: PowerState, reason: Reason, task: Option<Handle>)
    requires InUse(target)
    ensures FromStaleTask(b, m, target, reason, task) <==> !TaskAvailable(b, m.timers, target, reason, task)
  {
    hide Stored;
  }

  lemma ActedIs(b: Build, m: Machine, target: PowerState, reason: Reason, env: Env)
    requires InUse(target) && m.flag == FlagFor(target, reason)
    ensures Action(b, m, target, reason, env).result == Acted(b, m, target, reason, env)
  {
    hide ResetInactiveTimer, CancelActivityTimers, Arm, DimTimeFor;
  }

  /** What the checks before the protocol's gate answer. */
  function ExpectedCheck(b: Build, m: Machine, target: PowerState, reason: Reason, force: bool, env: Env): TransitResult {
    if Already(b, m.current, target) then AlreadyInState
    else if !OpenMove(b, reason, Move(m.current, target)) then ForbidTransit
    else if !reason.Init? && (Darkened(target, reason, env) || ProximityGone(m, target, reason)) then ForbidTransit
    else if HeldByLock(m, target, reason, force) then Locking
    else Success
  }

  lemma CheckedAsExpected(b: Build, m: Machine, target: PowerState, reason: Reason, force: bool, env: Env)
    requires InUse(m.current) && InUse(target)
    ensures Check(b, m, target, reason, IgnoresLocks(m, reason, force), env).result ==
            ExpectedCheck(b, m, target, reason, force, env)
  {
    hide CheckState, CanTransitTo, OpenMove, Darkened, ProximityGone, Already, Refuse, InUse, LocksAllow, Blocked,
      IgnoresLocks;
    AlreadyIs(b, m.current, target);
    MovesAreOpen(b, m, target, reason, env);
    LocksAre(m, target, reason, force);
  }

  lemma LocksAre(m: Machine, target: PowerState, reason: Reason, force: bool)
    ensures HeldByLock(m, target, reason, force) <==> !IgnoresLocks(m, reason, force) && !LocksAllow(m.locks, target)
  {
  }

  /** What gate and action answer once the checks have passed. */
  lemma GatedAsExpected(b: Build, m: Machine, target: PowerState, reason: Reason, env: Env)
    requires InUse(target) && m.flag == FlagFor(target, reason)
    ensures var gate := HandlePreBright(m, target, reason);
      && (gate.go <==> !(IsResult(reason) && !m.preBright.Started?))
      && Action(b, gate.m, target, reason, env).result == Acted(b, m, target, reason, env)
  {
    hide InUse, Action, Acted, FlagFor, Arm, Disarm;
    var gate := HandlePreBright(m, target, reason);
    GateOutline(m, target, reason);
    ActedIs(b, gate.m, target, reason, env);
    SameAct(b, m, gate.m, target, reason, env);
  }

  lemma TransitAnswer(b: Build, m: Machine, target: PowerState, reason: Reason, ignoreLock: bool, env: Env)
    ensures var c := Check(b, Matched(m, target), target, reason, ignoreLock, env);
      var gate := HandlePreBright(c.m, target, reason);
      TransitTo(b, m, target, reason, ignoreLock, env).result ==
      if !c.result.Success? then c.result
      else if gate.go then Action(b, gate.m, target, reason, env).result else PreBrightErr
  {
    hide Check, HandlePreBright, Action, Commit, MatchState;
  }

  /** What the request answers unless it comes from a stale task; `m` is the reconciled machine. */
  function ExpectedTransit(b: Build, m: Machine, target: PowerState, reason: Reason, force: bool, env: Env): TransitResult {
    var checked := ExpectedCheck(b, m, target, reason, force, env);
    if !checked.Success? then checked
    else if IsResult(reason) && !m.preBright.Started? then PreBrightErr
    else Acted(b, m, target, reason, env)
  }

  lemma TransitAsExpected(b: Build, m: Machine, target: PowerState, reason: Reason, force: bool, env: Env)
    requires InUse(m.current) && InUse(target) && m.flag == FlagFor(target, reason)
    ensures TransitTo(b, m, target, reason, IgnoresLocks(m, reason, force), env).result ==
            ExpectedTransit(b, Matched(m, target), target, reason, force, env)
  {
    hide MatchState, Check, Action, Acted, InUse, HandlePreBright, IsResult, IgnoresLocks, TransitTo, ExpectedCheck,
      CheckState, Forbidden, AllowedByReason, LocksAllow, FlagFor;
    var m1 := Matched(m, target);
    var ignore := IgnoresLocks(m, reason, force);
    assert IgnoresLocks(m1, reason, force) == ignore by { SameIgnored(m, m1, target, reason, force); }
    StartsInUse(m, target);
    TransitAnswer(b, m, target, reason, ignore, env);
    CheckedAsExpected(b, m1, target, reason, force, env);
    var c := Check(b, m1, target, reason, ignore, env).m;
    CheckedSame(b, m1, target, reason, ignore, env);
    GatedAsExpected(b, c, target, reason, env);
    SameAct(b, m1, c, target, reason, env);
  }

  lemma CheckedSame(b: Build, m: Machine, target: PowerState, reason: Reason, ignoreLock: bool, env: Env)
    ensures var c := Check(b, m, target, reason, ignoreLock, env).m;
      c.preBright == m.preBright && c.flag == m.flag && c.off == m.off && c.timers == m.timers
  {
    CheckOutline(b, m, target, reason, ignoreLock, env);
  }

  /** The flag does not matter to what is expected. */
  lemma ExpectedIs(b: Build, m: Machine, m1: Machine, target: PowerState, reason: Reason, force: bool, env: Env)
    requires m1 == m.(flag := m1.flag, current := From(m, target))
    ensures Expected(b, m, target, reason, force, env) ==
            if FromStaleTask(b, m, target, reason, env.task) then StaleTask
            else Done(ExpectedTransit(b, m1, target, reason, force, env))
  {
    hide FromStaleTask, OpenMove, Darkened, Already, IsResult, HeldByLock, ProximityGone, Acted, From;
    SameIgnored(m, m1, target, reason, force);
    SameAct(b, m, m1, target, reason, env);
  }

  /** Every request is answered as expected, and accepted iff that is a success or being there already. */
  lemma AnsweredAsExpected(b: Build, m: Machine, target: PowerState, reason: Reason, force: bool, env: Env)
    requires InUse(m.current) && InUse(target)
    ensures SetState(b, m, target, reason, force, env).verdict == Expected(b, m, target, reason, force, env)
    ensures Accepted(SetState(b, m, target, reason, force, env).verdict) <==>
            Expected(b, m, target, reason, force, env) in {Done(Success), Done(AlreadyInState)}
  {
    hide TaskAvailable, FromStaleTask, MatchState, FlagFor, InUse, IgnoresLocks, TransitTo, Expected, ExpectedTransit;
    var m0 := m.(flag := FlagFor(target, reason));
    StaleIs(b, m, target, reason, env.task);
    assert IgnoresLocks(m0, reason, force) == IgnoresLocks(m, reason, force) by { SameIgnored(m, m0, target, reason, force); }
    TransitAsExpected(b, m0, target, reason, force, env);
    ExpectedIs(b, m, Matched(m0, target), target, reason, force, env);
  }

  lemma SameIgnored(m: Machine, n: Machine, target: PowerState, reason: Reason, force: bool)
    requires n.locks == m.locks && n.forceTimingOut == m.forceTimingOut
    ensures IgnoresLocks(n, reason, force) == IgnoresLocks(m, reason, force)
    ensures HeldByLock(n, target, reason, force) == HeldByLock(m, target, reason, force)
    ensures ProximityGone(n, target, reason) == ProximityGone(m, target, reason)
  {
  }

  lemma StartsInUse(m: Machine, target: PowerState)
    requires InUse(m.current) && InUse(target)
    ensures InUse(From(m, target))
  {
    StartsFrom(m, target);
  }

  lemma SameAct(b: Build, m: Machine, n: Machine, target: PowerState, reason: Reason, env: Env)
    requires n.off == m.off
    ensures Acted(b, n, target, reason, env) == Acted(b, m, target, reason, env)
  {
  }

  // ---------------------------------------------------------------------------------------
  // What an answered request has done

  /** How long the screen is dimmed: a fifth of the screen-off time, at most 7.5 s; or the rest of a long time. */
  lemma DimTimeTable(b: Build, off: int)
    ensures DimTime(b, off) ==
            if off < 0 then 0
            else if b.longTimeDim && b.activeBeforeDim >= 600000 && off > b.activeBeforeDim then off - b.activeBeforeDim
            else if off / 5 > 7500 then 7500 else off / 5
  {
  }

  /** What the action of the target state leaves on the display. */
  function DisplayLeft(b: Build, m: Machine, target: PowerState, reason: Reason, env: Env): DisplayState {
    match target
    case Awake =>
      if !env.displayOk then m.display
      else if reason != AuthFailScreenOff then DisplayOn
      else if m.dozeEnabled then DisplayDoze else DisplayOff
    case Inactive =>
      if !env.displayOk then m.display
      else if m.dozeEnabled && reason != SwitchSensorhub then DisplayDoze else DisplayOff
    case Dim =>
      if m.off.effective < 0 && !b.neverSleepDim then m.display
      else if env.hit && reason != Coordination && env.restoreOk then DisplayOn
      else if env.displayOk then DisplayDim else m.display
    case _ => m.display
  }

  type Pendings = map<TimerId, nat>

  function WithoutActivityTimers(p: Pendings): Pendings {
    p - {TIMER_ID_USER_ACTIVITY_TIMEOUT, TIMER_ID_USER_ACTIVITY_OFF}
  }

  /** Activity: only the inactivity timer of the two runs, for the time that the screen stays fully on. */
  function Reactivated(b: Build, p: Pendings, now: nat, off: int): Pendings {
    if off >= 0 then
      WithoutActivityTimers(p)[TIMER_ID_USER_ACTIVITY_TIMEOUT := now + Delay32(off - DimTime(b, off))]
    else if b.neverSleepDim then
      WithoutActivityTimers(p)[TIMER_ID_USER_ACTIVITY_TIMEOUT :=
                               now + Delay32(if b.activeBeforeDim == -1 then 600000 else b.activeBeforeDim)]
    else WithoutActivityTimers(p)
  }

  /** The pending timers after the action of the target state. */
  function PendingLeft(b: Build, p: Pendings, now: nat, off: int, target: PowerState, reason: Reason, env: Env): Pendings {
    match target
    case Awake => if env.displayOk && reason != PreBright then Reactivated(b, p, now, off) else p
    case Inactive => if env.displayOk then WithoutActivityTimers(p) else p
    case Dim =>
      if off < 0 && !b.neverSleepDim then p
      else if env.hit && reason != Coordination then Reactivated(b, p, now, off)
      else if off < 0 then WithoutActivityTimers(p)
      else WithoutActivityTimers(p)[TIMER_ID_USER_ACTIVITY_OFF :=
                                    now + Delay32(if reason == Coordination then 10000 else DimTime(b, off))]
    case _ => p
  }

  /** The pending timers after the protocol's gate. */
  function PendingGated(p: Pendings, now: nat, started: bool, target: PowerState, reason: Reason): Pendings {
    if reason == PreBright then p[TIMER_ID_PRE_BRIGHT_AUTH := now + 3000]
    else if IsResult(reason) || target == Sleep || !started then p
    else p - {TIMER_ID_PRE_BRIGHT_AUTH}
  }

  function ProtocolLeft(m: Machine, target: PowerState, reason: Reason): PreBrightState {
    if reason == PreBright then Started
    else if IsResult(reason) then if m.preBright.Started? then Finished else m.preBright
    else if target == Sleep then m.preBright else Unstarted
  }

  lemma CancelPends(v: TimerView)
    requires Coherent(v)
    ensures var w := CancelActivityTimers(v);
      Coherent(w) && Pending(w) == WithoutActivityTimers(Pending(v)) && w.now == v.now
  {
    hide Coherent, Pending;
    DisarmRefines(v, TIMER_ID_USER_ACTIVITY_TIMEOUT);
    DisarmRefines(Disarm(v, TIMER_ID_USER_ACTIVITY_TIMEOUT), TIMER_ID_USER_ACTIVITY_OFF);
  }

  lemma ResetPends(b: Build, m: Machine)
    requires Coherent(m.timers)
    ensures var n := ResetInactiveTimer(b, m);
      Coherent(n.timers) && Pending(n.timers) == Reactivated(b, Pending(m.timers), m.timers.now, m.off.effective)
  {
    hide Coherent, Pending, Arm, CancelActivityTimers, DimTime, Interrupt, Delay32, WithoutActivityTimers;
    CancelPends(m.timers);
    var t := CancelActivityTimers(m.timers);
    ArmRefines(t, TIMER_ID_USER_ACTIVITY_TIMEOUT, m.off.effective - DimTime(b, m.off.effective));
    ArmRefines(t, TIMER_ID_USER_ACTIVITY_TIMEOUT,
               if b.activeBeforeDim == UNDEFINED_ACTIVE_TIME then DEFAULT_ACTIVE_TIME_MS else b.activeBeforeDim);
  }

  /** Starting the inactivity time anew interrupts a DIM that is being set, but not one for coordination. */
  lemma ResetInterrupts(b: Build, m: Machine)
    ensures ResetInactiveTimer(b, m).flag ==
            if m.flag == Setting(Dim) then SettingDimInterrupted else m.flag
    ensures m.flag == ForceSettingDim ==> ResetInactiveTimer(b, m).flag == ForceSettingDim
  {
    hide Arm, CancelActivityTimers, DimTime;
  }

  /** Protocol and sleep timers, which no action touches. */
  predicate SameRest(m: Machine, n: Machine) { n.preBright == m.preBright && n.sleepStarts == m.sleepStarts }

  lemma ResetKeeps(b: Build, m: Machine)
    ensures SameRest(m, ResetInactiveTimer(b, m))
  {
    hide Arm, CancelActivityTimers, DimTime;
  }

  lemma AwakeKeeps(b: Build, m: Machine, reason: Reason, env: Env)
    ensures SameRest(m, AwakeAction(b, m, reason, env).m)
  {
    hide ResetInactiveTimer;
    ResetKeeps(b, SetDisplay(m, DisplayOn, env.displayOk));
    ResetKeeps(b, SetDisplay(m, DisplayOff, env.displayOk));
    ResetKeeps(b, SetDisplay(m, DisplayDoze, env.displayOk));
  }

  lemma DimKeeps(b: Build, m: Machine, reason: Reason, env: Env)
    ensures SameRest(m, DimAction(b, m, reason, env).m)
  {
    hide ResetInactiveTimer, DimFirstHalf;
    assert SameRest(m, DimFirstHalf(b, m, reason, env)) by { FirstHalfKeeps(b, m, reason, env); }
    ResetKeeps(b, SetDisplay(DimFirstHalf(b, m, reason, env), DisplayOn, env.restoreOk));
  }

  lemma FirstHalfKeeps(b: Build, m: Machine, reason: Reason, env: Env)
    ensures SameRest(m, DimFirstHalf(b, m, reason, env))
  {
    hide Arm, CancelActivityTimers, DimTimeFor;
  }

  /** What an action leaves alone. */
  lemma ActionKeeps(b: Build, m: Machine, target: PowerState, reason: Reason, env: Env)
    ensures var n := Action(b, m, target, reason, env).m; SameGivens(m, n) && SameRest(m, n)
  {
    hide CancelActivityTimers, AwakeAction, DimAction, SameGivens;
    ActionOutline(b, m, target, reason, env);
    AwakeKeeps(b, m, reason, env);
    DimKeeps(b, m, reason, env);
  }

  lemma ActionDisplays(b: Build, m: Machine, target: PowerState, reason: Reason, env: Env)
    requires m.flag == FlagFor(target, reason)
    ensures Action(b, m, target, reason, env).m.display == DisplayLeft(b, m, target, reason, env)
  {
    hide CancelActivityTimers, Arm, DimTimeFor, ResetInactiveTimer;
    forall n: Machine ensures ResetInactiveTimer(b, n).display == n.display { ResetOutline(b, n); }
  }

  lemma ActionPends(b: Build, m: Machine, target: PowerState, reason: Reason, env: Env)
    requires Coherent(m.timers) && m.flag == FlagFor(target, reason)
    ensures Pending(Action(b, m, target, reason, env).m.timers) ==
            PendingLeft(b, Pending(m.timers), m.timers.now, m.off.effective, target, reason, env)
  {
    match target
    case Awake =>
      hide Coherent, Pending, ResetInactiveTimer, Reactivated;
      ResetPends(b, SetDisplay(m, DisplayOn, true));
      ResetPends(b, SetDisplay(m, DisplayOff, true));
      ResetPends(b, SetDisplay(m, DisplayDoze, true));
    case Inactive =>
      hide Coherent, Pending, CancelActivityTimers, WithoutActivityTimers;
      CancelPends(m.timers);
    case Dim => DimPends(b, m, reason, env);
    case _ =>
  }

  lemma FirstHalfPends(b: Build, m: Machine, reason: Reason, env: Env)
    requires Coherent(m.timers)
    ensures var n := DimFirstHalf(b, m, reason, env);
      var p := WithoutActivityTimers(Pending(m.timers));
      && Coherent(n.timers) && n.timers.now == m.timers.now && n.off == m.off
      && Pending(n.timers) ==
         if m.off.effective < 0 then p
         else p[TIMER_ID_USER_ACTIVITY_OFF := m.timers.now + Delay32(DimTimeFor(b, m, reason))]
  {
    hide Coherent, Pending, CancelActivityTimers, Arm, DimTimeFor, WithoutActivityTimers, Delay32, Interrupt;
    CancelPends(m.timers);
    ArmRefines(CancelActivityTimers(m.timers), TIMER_ID_USER_ACTIVITY_OFF, DimTimeFor(b, m, reason));
    ArmKeepsClock(CancelActivityTimers(m.timers), TIMER_ID_USER_ACTIVITY_OFF, DimTimeFor(b, m, reason));
  }

  lemma ArmKeepsClock(v: TimerView, id: TimerId, delay: int)
    ensures Arm(v, id, delay).now == v.now
  {
  }

  lemma DimPends(b: Build, m: Machine, reason: Reason, env: Env)
    requires Coherent(m.timers) && m.flag == FlagFor(Dim, reason)
    ensures Pending(DimAction(b, m, reason, env).m.timers) ==
            PendingLeft(b, Pending(m.timers), m.timers.now, m.off.effective, Dim, reason, env)
  {
    hide Coherent, Pending, DimTime, Reactivated, ResetInactiveTimer, Delay32, CancelActivityTimers, Arm,
      WithoutActivityTimers, DimTimeFor;
    assert DimTimeFor(b, m, reason) == if reason == Coordination then 10000 else DimTime(b, m.off.effective) by {
      DimTimeForIs(b, m, reason);
    }
    FirstHalfPends(b, m, reason, env);
    ResetPends(b, SetDisplay(DimFirstHalf(b, m, reason, env), DisplayOn, env.restoreOk));
    ReactivatedForgets(b, Pending(m.timers), DimTimeFor(b, m, reason), m.timers.now, m.off.effective);
  }

  lemma DimTimeForIs(b: Build, m: Machine, reason: Reason)
    ensures DimTimeFor(b, m, reason) == if reason == Coordination then 10000 else DimTime(b, m.off.effective)
  {
    hide DimTime;
  }

  lemma ReactivatedForgets(b: Build, p: Pendings, delay: int, now: nat, off: int)
    ensures Reactivated(b, WithoutActivityTimers(p)[TIMER_ID_USER_ACTIVITY_OFF := now + Delay32(delay)], now, off) ==
            Reactivated(b, p, now, off)
    ensures Reactivated(b, WithoutActivityTimers(p), now, off) == Reactivated(b, p, now, off)
  {
    hide Delay32, DimTime;
    assert WithoutActivityTimers(WithoutActivityTimers(p)[TIMER_ID_USER_ACTIVITY_OFF := now + Delay32(delay)]) ==
           WithoutActivityTimers(p);
    assert WithoutActivityTimers(WithoutActivityTimers(p)) == WithoutActivityTimers(p);
  }

  /** What the gate does to the timers. */
  lemma GatePends(m: Machine, target: PowerState, reason: Reason)
    requires Coherent(m.timers)
    ensures var t := HandlePreBright(m, target, reason).m.timers;
      && Coherent(t)
      && Pending(t) == PendingGated(Pending(m.timers), m.timers.now, m.preBright.Started?, target, reason)
  {
    hide Coherent, Pending, BeginPreBright, Disarm;
    BeginPends(m);
    DisarmRefines(m.timers, TIMER_ID_PRE_BRIGHT_AUTH);
  }

  lemma BeginPends(m: Machine)
    requires Coherent(m.timers)
    ensures var t := BeginPreBright(m).m.timers;
      Coherent(t) && Pending(t) == Pending(m.timers)[TIMER_ID_PRE_BRIGHT_AUTH := m.timers.now + 3000]
  {
    hide Coherent, Pending, Arm, Disarm;
    DisarmRefines(m.timers, TIMER_ID_PRE_BRIGHT_AUTH);
    ArmRefines(m.timers, TIMER_ID_PRE_BRIGHT_AUTH, 3000);
    ArmRefines(Disarm(m.timers, TIMER_ID_PRE_BRIGHT_AUTH), TIMER_ID_PRE_BRIGHT_AUTH, 3000);
    DisarmKeepsClock(m.timers, TIMER_ID_PRE_BRIGHT_AUTH);
    var p := Pending(m.timers);
    assert (p - {TIMER_ID_PRE_BRIGHT_AUTH})[TIMER_ID_PRE_BRIGHT_AUTH := m.timers.now + 3000] ==
           p[TIMER_ID_PRE_BRIGHT_AUTH := m.timers.now + 3000];
  }

  lemma DisarmKeepsClock(v: TimerView, id: TimerId)
    ensures Disarm(v, id).now == v.now
  {
  }

  /** What the gate does to the protocol, and what it leaves alone. */
  lemma GateDoes(m: Machine, target: PowerState, reason: Reason)
    ensures var g := HandlePreBright(m, target, reason).m;
      && g.timers.now == m.timers.now
      && g.preBright == ProtocolLeft(m, target, reason)
      && g.sleepStarts == m.sleepStarts + if IsResult(reason) && !m.preBright.Started? then 1 else 0
  {
    hide BeginPreBright, Disarm;
    BeginDoes(m);
    DisarmKeepsClock(m.timers, TIMER_ID_PRE_BRIGHT_AUTH);
  }

  lemma BeginDoes(m: Machine)
    ensures var g := BeginPreBright(m).m;
      g.timers.now == m.timers.now && g.preBright == Started && g.sleepStarts == m.sleepStarts
  {
    hide Arm, Disarm;
    ArmKeepsClock(m.timers, TIMER_ID_PRE_BRIGHT_AUTH, 3000);
    ArmKeepsClock(Disarm(m.timers, TIMER_ID_PRE_BRIGHT_AUTH), TIMER_ID_PRE_BRIGHT_AUTH, 3000);
    DisarmKeepsClock(m.timers, TIMER_ID_PRE_BRIGHT_AUTH);
  }

  /** The machine after a request whose checks have passed, and whose gate has. */
  function AfterAction(b: Build, act: Step, target: PowerState, env: Env): Machine {
    (if act.result.Success? then Commit(b, act.m, target, env) else act.m).(flag := NoSetting)
  }

  lemma StepsOfTransit(b: Build, m: Machine, target: PowerState, reason: Reason, ignoreLock: bool, env: Env)
    ensures var c := Check(b, Matched(m, target), target, reason, ignoreLock, env);
      var gate := HandlePreBright(c.m, target, reason);
      TransitTo(b, m, target, reason, ignoreLock, env).m.(flag := NoSetting) ==
      if !c.result.Success? then c.m.(flag := NoSetting)
      else if !gate.go then gate.m.(flag := NoSetting)
      else AfterAction(b, Action(b, gate.m, target, reason, env), target, env)
  {
    hide Check, HandlePreBright, Action, Commit, MatchState, Matched;
  }

  lemma StepsOfRequest(b: Build, m: Machine, target: PowerState, reason: Reason, force: bool, env: Env)
    ensures var m1 := Matched(m.(flag := FlagFor(target, reason)), target);
      var c := Check(b, m1, target, reason, IgnoresLocks(m, reason, force), env);
      var gate := HandlePreBright(c.m, target, reason);
      var a := SetState(b, m, target, reason, force, env);
      a.m ==
      if !TaskAvailable(b, m.timers, target, reason, env.task) then m
      else if !c.result.Success? then c.m.(flag := NoSetting)
      else if !gate.go then gate.m.(flag := NoSetting)
      else AfterAction(b, Action(b, gate.m, target, reason, env), target, env)
  {
    hide TaskAvailable, Matched, Check, HandlePreBright, Action, AfterAction, IgnoresLocks, FlagFor, TransitTo;
    StepsOfTransit(b, m.(flag := FlagFor(target, reason)), target, reason, IgnoresLocks(m, reason, force), env);
  }

  /** A request that the sensors refuse puts a sleeping device back on its way to sleep. */
  function RestartsSleep(m: Machine, target: PowerState, reason: Reason, env: Env): nat {
    if From(m, target) == Sleep && Darkened(target, reason, env) then 1 else 0
  }

  lemma CheckDoes(b: Build, m: Machine, target: PowerState, reason: Reason, force: bool, env: Env)
    requires InUse(m.current) && InUse(target)
    ensures var c := Check(b, m, target, reason, IgnoresLocks(m, reason, force), env);
      c.m == m.(sleepStarts := m.sleepStarts + if m.current == Sleep && Darkened(target, reason, env) then 1 else 0)
    ensures var c := Check(b, m, target, reason, IgnoresLocks(m, reason, force), env);
      m.current == Sleep && Darkened(target, reason, env) ==> c.result == ForbidTransit
  {
    hide IgnoresLocks, LocksAllow, Blocked, AllowedByReason, ProximityTaskInvalid, WakeBlockedBySensor;
    DarkenedIs(target, reason, env);
    DarkenedWakes(target, reason, env);
    hide Darkened;
  }

  lemma DarkenedWakes(target: PowerState, reason: Reason, env: Env)
    ensures Darkened(target, reason, env) ==> target == Awake && !reason.Init? && !IsTimeoutReason(reason) && !IsResult(reason)
  {
  }

  predicate StoppedByChecks(v: Verdict) { v in {Done(AlreadyInState), Done(ForbidTransit), Done(Locking)} }

  /** Who is told of a committed state: everybody, if it is a new one, except when DIM brightens up again. */
  function Told(b: Build, from: PowerState, target: PowerState, env: Env): seq<PowerState> {
    if from == Dim && target == Awake then []
    else if from != target then [target]
    else if target == Sleep && b.forceSleepBroadcast && env.forceSleeping then [Sleep]
    else []
  }

  /** The machine after a request that has gone through to the action of its target state. */
  ghost predicate ActedUpon(b: Build, m: Machine, target: PowerState, reason: Reason, env: Env, n: Machine) {
    var success := Acted(b, m, target, reason, env).Success?;
    var from := From(m, target);
    && n.current == (if success then target else from)
    && n.notices == m.notices + (if success then Told(b, from, target, env) else [])
    && n.display == DisplayLeft(b, m, target, reason, env)
    && n.preBright == ProtocolLeft(m, target, reason)
    && Pending(n.timers) ==
       PendingLeft(b, PendingGated(Pending(m.timers), m.timers.now, m.preBright.Started?, target, reason),
                   m.timers.now, m.off.effective, target, reason, env)
    && n.flag == NoSetting && n.sleepStarts == m.sleepStarts
    && n.off == m.off && n.locks == m.locks && n.forceTimingOut == m.forceTimingOut && n.dozeEnabled == m.dozeEnabled
    && n.hibernating == m.hibernating
  }

  lemma CommitDoes(b: Build, act: Step, target: PowerState, env: Env)
    requires InUse(act.m.current) && InUse(target)
    ensures var n := AfterAction(b, act, target, env);
      && n == act.m.(flag := NoSetting, current := n.current, notices := n.notices)
      && n.current == (if act.result.Success? then target else act.m.current)
      && n.notices == act.m.notices + (if act.result.Success? then Told(b, act.m.current, target, env) else [])
  {
  }

  /** From the machine whose checks have passed to the end of the request. */
  lemma ActionDoes(b: Build, m: Machine, c: Machine, target: PowerState, reason: Reason, env: Env)
    requires InUse(m.current) && InUse(target) && Coherent(m.timers)
    requires c == m.(flag := FlagFor(target, reason), current := From(m, target))
    requires HandlePreBright(c, target, reason).go
    ensures ActedUpon(b, m, target, reason, env,
                      AfterAction(b, Action(b, HandlePreBright(c, target, reason).m, target, reason, env), target, env))
  {
    hide InUse, Action, Acted, FlagFor, HandlePreBright, AfterAction, From, Told, DisplayLeft, PendingLeft, PendingGated,
      ProtocolLeft, Coherent, Pending;
    var g := HandlePreBright(c, target, reason).m;
    StartsInUse(m, target);
    GateOutline(c, target, reason);
    GateDoes(c, target, reason);
    GateGoes(c, target, reason);
    GatePends(c, target, reason);
    ActedIs(b, g, target, reason, env);
    SameAct(b, m, g, target, reason, env);
    ActionKeeps(b, g, target, reason, env);
    ActionDisplays(b, g, target, reason, env);
    SameDisplay(b, m, g, target, reason, env);
    ActionPends(b, g, target, reason, env);
    SameProtocol(m, c, target, reason);
    CommitDoes(b, Action(b, g, target, reason, env), target, env);
  }

  lemma GateGoes(m: Machine, target: PowerState, reason: Reason)
    ensures HandlePreBright(m, target, reason).go <==> !(IsResult(reason) && !m.preBright.Started?)
  {
    hide Arm, Disarm;
  }

  lemma SameDisplay(b: Build, m: Machine, n: Machine, target: PowerState, reason: Reason, env: Env)
    requires n.off == m.off && n.dozeEnabled == m.dozeEnabled && n.display == m.display
    ensures DisplayLeft(b, n, target, reason, env) == DisplayLeft(b, m, target, reason, env)
  {
  }

  lemma SameProtocol(m: Machine, n: Machine, target: PowerState, reason: Reason)
    requires n.preBright == m.preBright
    ensures ProtocolLeft(n, target, reason) == ProtocolLeft(m, target, reason)
  {
  }

  /**
   * Every request does as expected. A stale task changes nothing. A request that the checks or
   * the protocol stop leaves the reconciled state and a clear flag; it starts a sleep timer if
   * a sensor has kept a sleeping device dark, or a result has come without a start. Any other
   * request has acted upon the machine as the tables above say.
   */
  lemma DoneAsExpected(b: Build, m: Machine, target: PowerState, reason: Reason, force: bool, env: Env)
    requires InUse(m.current) && InUse(target) && Coherent(m.timers)
    ensures var n := SetState(b, m, target, reason, force, env).m;
      var v := Expected(b, m, target, reason, force, env);
      if v == StaleTask then n == m
      else if StoppedByChecks(v) then
        n == m.(current := From(m, target), flag := NoSetting,
                sleepStarts := m.sleepStarts + RestartsSleep(m, target, reason, env))
      else if v == Done(PreBrightErr) then
        n == m.(current := From(m, target), flag := NoSetting, sleepStarts := m.sleepStarts + 1)
      else ActedUpon(b, m, target, reason, env, n)
  {
    hide TaskAvailable, FromStaleTask, FlagFor, InUse, Expected, Check, HandlePreBright, Action, ActedUpon, AfterAction,
      Coherent, StoppedByChecks, RestartsSleep, From, Matched;
    var m1 := Matched(m.(flag := FlagFor(target, reason)), target);
    StaleIs(b, m, target, reason, env.task);
    StepsOfRequest(b, m, target, reason, force, env);
    if !FromStaleTask(b, m, target, reason, env.task) {
      StagesAsExpected(b, m, target, reason, force, env);
      var c := Check(b, m1, target, reason, IgnoresLocks(m, reason, force), env);
      if c.result.Success? && HandlePreBright(c.m, target, reason).go {
        ActionDoes(b, m, c.m, target, reason, env);
      }
    } else {
      ExpectedStale(b, m, target, reason, force, env);
    }
  }

  lemma ExpectedStale(b: Build, m: Machine, target: PowerState, reason: Reason, force: bool, env: Env)
    requires FromStaleTask(b, m, target, reason, env.task)
    ensures Expected(b, m, target, reason, force, env) == StaleTask
  {
  }

  /** Where a request that is not stale stops, and the machine that it leaves there. */
  lemma StagesAsExpected(b: Build, m: Machine, target: PowerState, reason: Reason, force: bool, env: Env)
    requires InUse(m.current) && InUse(target) && !FromStaleTask(b, m, target, reason, env.task)
    ensures var m1 := Matched(m.(flag := FlagFor(target, reason)), target);
      var c := Check(b, m1, target, reason, IgnoresLocks(m, reason, force), env);
      var gate := HandlePreBright(c.m, target, reason);
      var v := Expected(b, m, target, reason, force, env);
      && v != StaleTask
      && (!c.result.Success? <==> StoppedByChecks(v))
      && (!c.result.Success? ==>
            c.m.(flag := NoSetting) == m.(current := From(m, target), flag := NoSetting,
                                          sleepStarts := m.sleepStarts + RestartsSleep(m, target, reason, env)))
      && (c.result.Success? ==>
            && c.m == m.(flag := FlagFor(target, reason), current := From(m, target))
            && (v == Done(PreBrightErr) <==> !gate.go)
            && (!gate.go ==> gate.m == c.m.(sleepStarts := c.m.sleepStarts + 1)))
  {
    hide FromStaleTask, FlagFor, InUse, IgnoresLocks, Expected, ExpectedTransit, Check, HandlePreBright, Darkened,
      IsResult, ExpectedCheck, MatchState;
    var m1 := Matched(m.(flag := FlagFor(target, reason)), target);
    StartsInUse(m, target);
    ExpectedIs(b, m, m1, target, reason, force, env);
    assert IgnoresLocks(m1, reason, force) == IgnoresLocks(m, reason, force) by { SameIgnored(m, m1, target, reason, force); }
    CheckedAsExpected(b, m1, target, reason, force, env);
    CheckDoes(b, m1, target, reason, force, env);
    ExpectedStages(b, m1, target, reason, force, env);
    var c := Check(b, m1, target, reason, IgnoresLocks(m, reason, force), env);
    GateGoes(c.m, target, reason);
    if !HandlePreBright(c.m, target, reason).go {
      GateStops(c.m, target, reason);
    }
  }

  lemma GateStops(m: Machine, target: PowerState, reason: Reason)
    requires !HandlePreBright(m, target, reason).go
    ensures HandlePreBright(m, target, reason).m == m.(sleepStarts := m.sleepStarts + 1)
  {
    hide Arm, Disarm;
  }

  /** Which answers belong to which stage. */
  lemma ExpectedStages(b: Build, m: Machine, target: PowerState, reason: Reason, force: bool, env: Env)
    ensures var checked := ExpectedCheck(b, m, target, reason, force, env);
      var v := ExpectedTransit(b, m, target, reason, force, env);
      && (!checked.Success? <==> StoppedByChecks(Done(v)))
      && (checked.Success? ==> (v == PreBrightErr <==> IsResult(reason) && !m.preBright.Started?))
  {
    hide Already, OpenMove, Darkened, ProximityGone, HeldByLock, IsResult;
  }

  // ---------------------------------------------------------------------------------------
  // The ordinary life of a device

  /**
   * An INACTIVE device goes to sleep when the system or its sleep timer's current task asks
   * for it, unless a coordination lock is held; a forced request does not mind the lock.
   */
  lemma InactiveDeviceSleeps(b: Build, m: Machine, reason: Reason, force: bool, env: Env)
    requires m.current == Inactive && Coherent(m.timers) && (reason == System || reason == Timeout)
    requires env.task == None || env.task == Stored(m.timers, TIMER_ID_SLEEP)
    requires m.locks.coordination == 0 || force
    ensures var a := SetState(b, m, Sleep, reason, force, env);
      && a.verdict == Done(Success) && a.m.current == Sleep && a.m.notices == m.notices + [Sleep]
      && a.m.display == m.display && a.m.preBright == m.preBright && Pending(a.m.timers) == Pending(m.timers)
  {
    hide SetState, Coherent, Pending, Stored;
    StartsFrom(m, Sleep);
    AnsweredAsExpected(b, m, Sleep, reason, force, env);
    DoneAsExpected(b, m, Sleep, reason, force, env);
  }

  const SYSTEM_MOVES: set<Move> := {
    Move(Awake, Inactive), Move(Dim, Inactive), Move(Sleep, Inactive), Move(Hibernate, Inactive),
    Move(Awake, Awake), Move(Inactive, Awake), Move(Dim, Awake), Move(Sleep, Awake), Move(Hibernate, Awake),
    Move(Awake, Dim), Move(Inactive, Sleep), Move(Dim, Hibernate), Move(Inactive, Hibernate), Move(Sleep, Hibernate)}

  /**
   * From display and state in agreement, a forced request of the system makes every one of
   * these moves, if the display obeys and, for DIM, no refresh interrupts it.
   */
  lemma SystemMoves(b: Build, m: Machine, target: PowerState, env: Env)
    requires Move(m.current, target) in SYSTEM_MOVES && DisplayAgrees(m.current, m.display) && Coherent(m.timers)
    requires env.displayOk && (target == Dim ==> !env.hit && m.off.effective >= 0)
    ensures var a := SetState(b, m, target, System, true, env);
      && a.verdict == Done(Success) && a.m.current == target
      && (target == Awake ==> a.m.display == DisplayOn)
      && (target == Inactive ==> a.m.display == if m.dozeEnabled then DisplayDoze else DisplayOff)
      && (target == Dim ==> a.m.display == DisplayDim)
  {
    hide SetState, Coherent, Pending, PendingLeft, PendingGated, Told, ProtocolLeft, From, Expected;
    SystemIsExpected(b, m, target, env);
    AnsweredAsExpected(b, m, target, System, true, env);
    DoneAsExpected(b, m, target, System, true, env);
  }

  lemma SystemIsExpected(b: Build, m: Machine, target: PowerState, env: Env)
    requires Move(m.current, target) in SYSTEM_MOVES && DisplayAgrees(m.current, m.display)
    requires env.displayOk && (target == Dim ==> !env.hit && m.off.effective >= 0)
    ensures Expected(b, m, target, System, true, env) == Done(Success)
    ensures Acted(b, m, target, System, env) == Success && InUse(m.current) && InUse(target)
  {
    hide Stored;
    assert From(m, target) == m.current by { StartsFrom(m, target); }
    hide From;
  }

  /** The timers that are pending when a screen has just been touched. */
  function Touched(b: Build, m: Machine): Pendings { Reactivated(b, Pending(m.timers), m.timers.now, m.off.effective) }

  /** Touching a dimmed screen lights it up again and starts the inactivity time anew. */
  lemma ActivityLightsUp(b: Build, m: Machine, env: Env)
    requires m.current == Dim && m.display == DisplayDim && m.flag == NoSetting && env.displayOk && Coherent(m.timers)
    requires !m.preBright.Started?
    ensures var n := RefreshActivity(b, m, env);
      && n.current == Awake && n.display == DisplayOn && n.flag == NoSetting && n.notices == m.notices
      && Pending(n.timers) == Touched(b, m)
  {
    hide SetState, Coherent, Pending, Reactivated;
    StartsFrom(m, Awake);
    AnsweredAsExpected(b, m, Awake, Refresh, true, env);
    DoneAsExpected(b, m, Awake, Refresh, true, env);
  }

  /** Touching a screen that is on starts the inactivity time anew and changes nothing else. */
  lemma ActivityRearms(b: Build, m: Machine, env: Env)
    requires m.current == Awake && m.display == DisplayOn && m.flag == NoSetting && Coherent(m.timers)
    ensures var n := RefreshActivity(b, m, env);
      n == m.(timers := n.timers) && Pending(n.timers) == Touched(b, m)
  {
    hide SetState, Coherent, Pending, Reactivated, Arm, CancelActivityTimers, DimTime;
    ResetPends(b, m);
  }

  /** Touching the screen while it is being dimmed asks for AWAKE. */
  lemma ActivityWhileDimming(b: Build, m: Machine, env: Env)
    requires m.current in {Awake, Dim} && ScreenOn(m.display) && m.flag in {Setting(Dim), ForceSettingDim}
    requires env.displayOk && Coherent(m.timers)
    ensures var n := RefreshActivity(b, m, env);
      n.current == Awake && n.display == DisplayOn && n.flag == NoSetting
  {
    hide SetState, Coherent, Pending;
    StartsFrom(m, Awake);
    AnsweredAsExpected(b, m, Awake, Refresh, true, env);
    DoneAsExpected(b, m, Awake, Refresh, true, env);
  }

  /** A dark screen, and one that is being turned off, cannot be touched. */
  lemma ActivityIgnored(b: Build, m: Machine, env: Env)
    requires m.display !in {DisplayOn, DisplayDim} || m.flag == Setting(Inactive)
    ensures RefreshActivity(b, m, env) == m
  {
    hide SetState, ResetInactiveTimer;
  }

  /**
   * A pre-bright wakeup first stops the sleep timers, and the authentication timer if a client
   * brings a result; then it is a forced request for AWAKE; and if the result is a failure with
   * the screen off, the device is put back on its way to sleep.
   */
  lemma WakeDoesAsExpected(b: Build, m: Machine, reason: Reason, timeoutTriggered: bool, env: Env)
    requires InUse(m.current) && Coherent(m.timers)
    ensures var w := BeforeWake(b, m, reason, timeoutTriggered);
      && w == m.(timers := w.timers) && Coherent(w.timers) && w.timers.now == m.timers.now
      && Pending(w.timers) ==
         Pending(m.timers) - {TIMER_ID_SLEEP} - (if b.chargingType then {TIMER_ID_AUTO_SLEEP} else {}) -
         (if IsResult(reason) && !timeoutTriggered then {TIMER_ID_PRE_BRIGHT_AUTH} else {})
      && TIMER_ID_SLEEP !in w.timers.stored && (b.chargingType ==> TIMER_ID_AUTO_SLEEP !in w.timers.stored)
    ensures var a := PreBrightWakeUp(b, m, reason, timeoutTriggered, env);
      var s := SetState(b, BeforeWake(b, m, reason, timeoutTriggered), Awake, reason, true, env);
      && a.verdict == s.verdict
      && a.m == s.m.(sleepStarts := s.m.sleepStarts + if reason == AuthFailScreenOff then 1 else 0)
  {
    hide SetState, BeforeWake, Coherent, Pending;
    WakeStored(b, m, reason, timeoutTriggered);
    WakePends(b, m, reason, timeoutTriggered);
  }

  lemma WakePends(b: Build, m: Machine, reason: Reason, timeoutTriggered: bool)
    requires Coherent(m.timers)
    ensures var w := BeforeWake(b, m, reason, timeoutTriggered);
      && Coherent(w.timers) && w.timers.now == m.timers.now
      && Pending(w.timers) ==
         Pending(m.timers) - {TIMER_ID_SLEEP} - (if b.chargingType then {TIMER_ID_AUTO_SLEEP} else {}) -
         (if IsResult(reason) && !timeoutTriggered then {TIMER_ID_PRE_BRIGHT_AUTH} else {})
  {
    hide Coherent, Pending, Disarm, StopSleep;
    var u := StopSleep(b, m).timers;
    StopPends(b, m);
    DisarmRefines(u, TIMER_ID_PRE_BRIGHT_AUTH);
    DisarmKeepsClock(u, TIMER_ID_PRE_BRIGHT_AUTH);
  }

  lemma StopPends(b: Build, m: Machine)
    requires Coherent(m.timers)
    ensures var u := StopSleep(b, m).timers;
      && Coherent(u) && u.now == m.timers.now
      && Pending(u) == Pending(m.timers) - {TIMER_ID_SLEEP} - (if b.chargingType then {TIMER_ID_AUTO_SLEEP} else {})
  {
    hide Coherent, Pending, Disarm;
    var t := Disarm(m.timers, TIMER_ID_SLEEP);
    DisarmRefines(m.timers, TIMER_ID_SLEEP);
    DisarmRefines(t, TIMER_ID_AUTO_SLEEP);
    DisarmKeepsClock(m.timers, TIMER_ID_SLEEP);
    DisarmKeepsClock(t, TIMER_ID_AUTO_SLEEP);
  }

  lemma WakeStored(b: Build, m: Machine, reason: Reason, timeoutTriggered: bool)
    ensures var w := BeforeWake(b, m, reason, timeoutTriggered);
      && w == m.(timers := w.timers)
      && TIMER_ID_SLEEP !in w.timers.stored && (b.chargingType ==> TIMER_ID_AUTO_SLEEP !in w.timers.stored)
  {
  }
}
