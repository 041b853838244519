/**
 * The state transition engine as functions on values: what one request does to the power
 * state, the display, the pre-bright protocol and the timers.
 */
module StateEngine {
  import opened PowerTypes
  import opened FfrtTimer

  /**
   * Build flags and product parameters. Screen decoupling, takeover of suspend and the
   * external screen are off in every build considered here.
   */
  datatype Build = Build(
    s4: bool,                   // POWER_MANAGER_POWER_ENABLE_S4
    forceSleepBroadcast: bool,  // POWER_MANAGER_ENABLE_FORCE_SLEEP_BROADCAST
    chargingType: bool,         // POWER_MANAGER_ENABLE_CHARGING_TYPE_SETTING
    longTimeDim: bool,          // POWER_MANAGER_ENABLE_LONG_TIME_DIM
    neverSleepDim: bool,        // product parameter: dim although auto display-off is disabled
    activeBeforeDim: int)       // product parameter: active time before a long dim, -1 if undefined

  datatype PreBrightState = Unstarted | Started | Finished

  /** The atomic flag that says which state is being set, so that other threads can interfere. */
  datatype SettingFlag = NoSetting | Setting(state: PowerState) | ForceSettingDim | SettingDimInterrupted

  /** Number of valid running locks of each type that the engine asks for. */
  datatype Locks = Locks(screen: nat, coordination: nat, proximity: nat)

  /** The effective screen-off time, whether it is an override, and the time to go back to. */
  datatype OffTime = OffTime(effective: int, overridden: bool, before: int)

  datatype Machine = Machine(
    current: PowerState,
    display: DisplayState,
    preBright: PreBrightState,
    flag: SettingFlag,
    timers: TimerView,
    off: OffTime,
    locks: Locks,
    forceTimingOut: bool,
    dozeEnabled: bool,
    hibernating: bool,
    sleepStarts: nat,           // calls of SuspendController::StartSleepTimer
    notices: seq<PowerState>)   // states the listeners were told about

  /**
   * What the surroundings answer during one request: whether each display call succeeds,
   * whether a refresh runs its compare-exchange while a DIM is being set, which timer task
   * is running the request, and the sensors.
   */
  datatype Env = Env(
    displayOk: bool, restoreOk: bool, hit: bool, task: Option<Handle>,
    proximityClose: bool, lidMode: bool, movementOn: bool, forceSleeping: bool)

  const MAX_DIM_TIME_MS: int := 7500
  const DEFAULT_ACTIVE_TIME_MS: int := 600000
  const COORDINATED_STATE_SCREEN_OFF_TIME_MS: int := 10000
  const PRE_BRIGHT_AUTH_TIMER_DELAY_MS: int := 3000
  const OFF_TIMEOUT_FACTOR: int := 5
  const UNDEFINED_ACTIVE_TIME: int := -1

  // ---------------------------------------------------------------------------------------
  // Reconciliation of power state and display

  predicate SkipsMatch(target: PowerState, current: PowerState) {
    target in {Sleep, Hibernate, Shutdown} || current in {Sleep, Hibernate, Shutdown}
  }

  function MatchState(target: PowerState, current: PowerState, display: DisplayState): PowerState {
    if SkipsMatch(target, current) then current
    else match display
      case DisplayOff => if current in {Awake, Freeze} then Inactive else current
      case DisplayDim => if current in {Inactive, StandBy, Doze} then Dim else current
      case DisplayOn => if current in {Inactive, StandBy, Doze} then Awake else current
      case _ => current
  }

  /** False when the machine already is in the requested state and the request may be skipped. */
  predicate CheckState(b: Build, target: PowerState, current: PowerState) {
    target == Dim || (b.forceSleepBroadcast && target == Sleep) || target == Awake || target != current
  }

  // ---------------------------------------------------------------------------------------
  // Transition tables

  predicate Forbidden(b: Build, from: PowerState, to: PowerState) {
    match from
    case Awake => to == Sleep || (!b.s4 && to == Hibernate)
    case Inactive => to == Dim
    case Dim => to == Sleep
    case Sleep => to == Dim
    case Hibernate => b.s4 && to == Sleep
    case _ => false
  }

  predicate AllowedByReason(reason: Reason, from: PowerState, to: PowerState) {
    match reason
    case Refresh => from in {Dim, Awake} && to == Awake
    case Timeout =>
      (from == Awake && to in {Dim, Inactive}) || (from == Dim && to == Inactive) || (from == Inactive && to == Sleep)
    case TimeoutNoScreenLock => from in {Dim, Awake} && to == Inactive
    case RollbackReason =>
      (from == Awake && to == Inactive) || (from == Inactive && to == Sleep) || (from == Hibernate && to == Inactive)
    case _ => true
  }

  /** A sensor keeps double-click, pickup and plug changes from lighting the screen. */
  predicate WakeBlockedBySensor(to: PowerState, reason: Reason, env: Env) {
    && to == Awake
    && (reason.DoubleClick? || reason.Pickup? || reason.PlugChange?)
    && (env.proximityClose || (env.lidMode && reason.Pickup?) || (env.movementOn && !reason.PlugChange?))
  }

  predicate ProximityTaskInvalid(locks: Locks, to: PowerState, reason: Reason) {
    reason.Proximity? && to == Inactive && locks.proximity == 0
  }

  predicate CanTransitTo(b: Build, m: Machine, to: PowerState, reason: Reason, env: Env) {
    && !Forbidden(b, m.current, to)
    && !WakeBlockedBySensor(to, reason, env)
    && !ProximityTaskInvalid(m.locks, to, reason)
    && AllowedByReason(reason, m.current, to)
  }

  /** Refusing a wakeup because of a sensor puts a sleeping device back on its way to sleep. */
  function Refuse(b: Build, m: Machine, to: PowerState, reason: Reason, env: Env): Machine {
    if !Forbidden(b, m.current, to) && WakeBlockedBySensor(to, reason, env) && m.current == Sleep
    then m.(sleepStarts := m.sleepStarts + 1) else m
  }

  /** The three ways the tables and sensors can decide. */
  lemma TransitCases(b: Build, m: Machine, to: PowerState, reason: Reason, env: Env)
    ensures CanTransitTo(b, m, to, reason, env) <==>
            if Forbidden(b, m.current, to) || WakeBlockedBySensor(to, reason, env) then false
            else !ProximityTaskInvalid(m.locks, to, reason) && AllowedByReason(reason, m.current, to)
  {
    hide Forbidden, WakeBlockedBySensor, ProximityTaskInvalid, AllowedByReason;
  }

  predicate LocksAllow(locks: Locks, target: PowerState) {
    match target
    case Inactive => locks.screen == 0
    case Dim => locks.screen == 0
    case Sleep => locks.coordination == 0
    case _ => true
  }

  // ---------------------------------------------------------------------------------------
  // Pre-bright protocol

  /** The machine and whether the transition may go on. */
  datatype Gate = Gate(m: Machine, go: bool)

  /** A pre-bright start arms the authentication timer, anew if it is running. */
  function BeginPreBright(m: Machine): Gate {
    Gate(m.(preBright := Started,
            timers := Arm(if m.preBright.Started? then Disarm(m.timers, TIMER_ID_PRE_BRIGHT_AUTH) else m.timers,
                          TIMER_ID_PRE_BRIGHT_AUTH, PRE_BRIGHT_AUTH_TIMER_DELAY_MS)), true)
  }

  /** An authentication result counts only after a start. */
  function EndPreBright(m: Machine): Gate {
    if m.preBright.Started? then Gate(m.(preBright := Finished), true)
    else Gate(m.(sleepStarts := m.sleepStarts + 1), false)
  }

  /** Any other request abandons the protocol, except one to SLEEP, which leaves it alone. */
  function AbandonPreBright(m: Machine, target: PowerState): Gate {
    if target == Sleep then Gate(m, true)
    else
      Gate(m.(preBright := Unstarted,
              timers := if m.preBright.Started? then Disarm(m.timers, TIMER_ID_PRE_BRIGHT_AUTH) else m.timers), true)
  }

  function HandlePreBright(m: Machine, target: PowerState, reason: Reason): Gate {
    if reason.PreBright? then BeginPreBright(m)
    else if IsPreBrightAuthReason(reason) then EndPreBright(m)
    else AbandonPreBright(m, target)
  }

  // ---------------------------------------------------------------------------------------
  // Timing

  /** Division of 64-bit numbers, towards zero. */
  function TruncDiv(x: int, y: int): int
    requires y > 0
  {
    if x >= 0 then x / y else -((-x) / y)
  }

  function Clamp(x: int, lo: int, hi: int): int {
    if x < lo then lo else if hi < x then hi else x
  }

  function DimTime(b: Build, displayOffTime: int): int {
    if b.longTimeDim && displayOffTime > 0 && b.activeBeforeDim >= DEFAULT_ACTIVE_TIME_MS &&
       displayOffTime > b.activeBeforeDim
    then Clamp(displayOffTime - b.activeBeforeDim, 0, displayOffTime)
    else Clamp(TruncDiv(displayOffTime, OFF_TIMEOUT_FACTOR), 0, MAX_DIM_TIME_MS)
  }

  function CancelActivityTimers(v: TimerView): TimerView {
    Disarm(Disarm(v, TIMER_ID_USER_ACTIVITY_TIMEOUT), TIMER_ID_USER_ACTIVITY_OFF)
  }

  /** Compare-exchange of the setting flag from "setting DIM" to "interrupted". */
  function Interrupt(flag: SettingFlag): SettingFlag {
    if flag == Setting(Dim) then SettingDimInterrupted else flag
  }

  function ResetInactiveTimer(b: Build, m: Machine): Machine {
    var t := CancelActivityTimers(m.timers);
    m.(flag := Interrupt(m.flag),
       timers :=
         if m.off.effective >= 0 then
           Arm(t, TIMER_ID_USER_ACTIVITY_TIMEOUT, m.off.effective - DimTime(b, m.off.effective))
         else if b.neverSleepDim then
           Arm(t, TIMER_ID_USER_ACTIVITY_TIMEOUT,
               if b.activeBeforeDim == UNDEFINED_ACTIVE_TIME then DEFAULT_ACTIVE_TIME_MS else b.activeBeforeDim)
         else t)
  }

  // ---------------------------------------------------------------------------------------
  // Actions of the state controllers

  /** The machine after an action or a transition, and its result. */
  datatype Step = Step(m: Machine, result: TransitResult)

  function SetDisplay(m: Machine, d: DisplayState, ok: bool): Machine {
    if ok then m.(display := d) else m
  }

  function AwakeAction(b: Build, m: Machine, reason: Reason, env: Env): Step {
    var d := if !reason.AuthFailScreenOff? then DisplayOn else if m.dozeEnabled then DisplayDoze else DisplayOff;
    var m1 := SetDisplay(m, d, env.displayOk);
    if !env.displayOk then Step(m1, DisplayOnErr)
    else Step(if reason.PreBright? then m1 else ResetInactiveTimer(b, m1), Success)
  }

  function InactiveAction(m: Machine, reason: Reason, env: Env): Step {
    var d := if !reason.SwitchSensorhub? && m.dozeEnabled then DisplayDoze else DisplayOff;
    var m1 := SetDisplay(m, d, env.displayOk);
    if !env.displayOk then Step(m1, DisplayOffErr)
    else Step(m1.(timers := CancelActivityTimers(m1.timers)), Success)
  }

  function DimTimeFor(b: Build, m: Machine, reason: Reason): int {
    if reason.Coordination? then COORDINATED_STATE_SCREEN_OFF_TIME_MS else DimTime(b, m.off.effective)
  }

  function ArmScreenOff(m: Machine, dimTime: int): Machine {
    var t := CancelActivityTimers(m.timers);
    m.(timers := if m.off.effective < 0 then t else Arm(t, TIMER_ID_USER_ACTIVITY_OFF, dimTime))
  }

  /** Everything the DIM action does before it looks whether it was interrupted. */
  function DimFirstHalf(b: Build, m: Machine, reason: Reason, env: Env): Machine {
    var m1 := ArmScreenOff(SetDisplay(m, DisplayDim, env.displayOk), DimTimeFor(b, m, reason));
    if env.hit then m1.(flag := Interrupt(m1.flag)) else m1
  }

  function DimAction(b: Build, m: Machine, reason: Reason, env: Env): Step {
    if !b.neverSleepDim && m.off.effective < 0 then Step(m, OtherErr)
    else
      var m1 := DimFirstHalf(b, m, reason, env);
      if m1.flag == SettingDimInterrupted then
        Step(ResetInactiveTimer(b, SetDisplay(m1, DisplayOn, env.restoreOk)), OtherErr)
      else Step(m1, if env.displayOk then Success else OtherErr)
  }

  function Action(b: Build, m: Machine, target: PowerState, reason: Reason, env: Env): Step {
    match target
    case Awake => AwakeAction(b, m, reason, env)
    case Inactive => InactiveAction(m, reason, env)
    case Dim => DimAction(b, m, reason, env)
    case _ => Step(m, Success)
  }

  // ---------------------------------------------------------------------------------------
  // One transition and one request

  predicate NeedNotify(b: Build, target: PowerState, current: PowerState, env: Env) {
    if b.forceSleepBroadcast && current == Sleep && target == Sleep && env.forceSleeping then true
    else current != target && !(current == Dim && target == Awake)
  }

  function Commit(b: Build, m: Machine, target: PowerState, env: Env): Machine {
    m.(current := target,
       notices := if NeedNotify(b, target, m.current, env) then m.notices + [target] else m.notices)
  }

  /** The machine after display and power state have been reconciled for a request. */
  function Matched(m: Machine, target: PowerState): Machine {
    m.(current := MatchState(target, m.current, m.display))
  }

  /** The checks that read tables and locks; `Success` means that none objects. */
  function Check(b: Build, m: Machine, target: PowerState, reason: Reason, ignoreLock: bool, env: Env): Step {
    if !CheckState(b, target, m.current) then Step(m, AlreadyInState)
    else if !reason.Init? && !CanTransitTo(b, m, target, reason, env) then
      Step(Refuse(b, m, target, reason, env), ForbidTransit)
    else if !ignoreLock && !LocksAllow(m.locks, target) then Step(m, Locking)
    else Step(m, Success)
  }

  /** All checks of a transition, the pre-bright protocol last; `Success` means that the action may run. */
  function Admit(b: Build, m: Machine, target: PowerState, reason: Reason, ignoreLock: bool, env: Env): Step {
    var checked := Check(b, m, target, reason, ignoreLock, env);
    if !checked.result.Success? then checked
    else
      var gate := HandlePreBright(checked.m, target, reason);
      Step(gate.m, if gate.go then Success else PreBrightErr)
  }

  function TransitTo(b: Build, m: Machine, target: PowerState, reason: Reason, ignoreLock: bool, env: Env): Step {
    var admitted := Admit(b, Matched(m, target), target, reason, ignoreLock, env);
    if !admitted.result.Success? then admitted
    else Finish(b, Action(b, admitted.m, target, reason, env), target, env)
  }

  /** Commit the target state if the action succeeded. */
  function Finish(b: Build, step: Step, target: PowerState, env: Env): Step {
    if step.result.Success? then Step(Commit(b, step.m, target, env), Success) else step
  }

  /** The timer whose task may request `target` with a timeout reason. */
  function TimerOf(target: PowerState): TimerId {
    match target
    case Dim => TIMER_ID_USER_ACTIVITY_TIMEOUT
    case Inactive => TIMER_ID_USER_ACTIVITY_OFF
    case _ => TIMER_ID_SLEEP
  }

  /** A timeout task may still act only while it is the stored task of its timer. */
  predicate TaskAvailable(b: Build, v: TimerView, target: PowerState, reason: Reason, task: Option<Handle>) {
    || !IsTimeoutReason(reason)
    || task == None
    || (b.chargingType && task == Stored(v, TIMER_ID_AUTO_SLEEP))
    || task == Stored(v, TimerOf(target))
  }

  function FlagFor(target: PowerState, reason: Reason): SettingFlag {
    if target == Dim && reason.Coordination? then ForceSettingDim else Setting(target)
  }

  /** Forced requests ignore running locks, and so do timeouts while timing out is forced. */
  predicate IgnoresLocks(m: Machine, reason: Reason, force: bool) {
    force || (IsTimeoutReason(reason) && m.forceTimingOut)
  }

  /** The answer to a request: turned away as a stale timer task, or the result of the transition. */
  datatype Verdict = StaleTask | Done(result: TransitResult)

  predicate Accepted(v: Verdict) { v == Done(Success) || v == Done(AlreadyInState) }

  /** The machine after a request, and the answer. */
  datatype Answer = Answer(m: Machine, verdict: Verdict)

  function SetState(b: Build, m: Machine, target: PowerState, reason: Reason, force: bool, env: Env): Answer {
    if !TaskAvailable(b, m.timers, target, reason, env.task) then Answer(m, StaleTask)
    else
      var step :=
        TransitTo(b, m.(flag := FlagFor(target, reason)), target, reason, IgnoresLocks(m, reason, force), env);
      Answer(step.m.(flag := NoSetting), Done(step.result))
  }

  predicate ScreenOn(d: DisplayState) { d.DisplayOn? || d.DisplayDim? }

  predicate IsSetting(flag: SettingFlag, state: PowerState) {
    flag == Setting(state) || (state == Dim && flag.ForceSettingDim?)
  }

  /** User activity: leave DIM through a request, or just start the inactivity time anew. */
  function RefreshActivity(b: Build, m: Machine, env: Env): Machine {
    if !ScreenOn(m.display) || IsSetting(m.flag, Inactive) then m
    else if m.current == Dim || IsSetting(m.flag, Dim) then SetState(b, m, Awake, Refresh, true, env).m
    else ResetInactiveTimer(b, m)
  }

  /** SuspendController::StopSleep: no timer will put the device to sleep any more. */
  function StopSleep(b: Build, m: Machine): Machine {
    var t := Disarm(m.timers, TIMER_ID_SLEEP);
    m.(timers := if b.chargingType then Disarm(t, TIMER_ID_AUTO_SLEEP) else t)
  }

  /** What a pre-bright wakeup does to the timers before it makes its request. */
  function BeforeWake(b: Build, m: Machine, reason: Reason, timeoutTriggered: bool): Machine {
    var m1 := StopSleep(b, m);
    if !timeoutTriggered && IsPreBrightAuthReason(reason)
    then m1.(timers := Disarm(m1.timers, TIMER_ID_PRE_BRIGHT_AUTH)) else m1
  }

  /** A pre-bright wakeup, from a client or (`timeoutTriggered`) from the authentication timer. */
  function PreBrightWakeUp(b: Build, m: Machine, reason: Reason, timeoutTriggered: bool, env: Env): Answer {
    var answer := SetState(b, BeforeWake(b, m, reason, timeoutTriggered), Awake, reason, true, env);
    if reason.AuthFailScreenOff? then answer.(m := answer.m.(sleepStarts := answer.m.sleepStarts + 1)) else answer
  }
}
