/**
 * The state machine object: fields that its methods change in place, each method proved
 * to change them exactly as the function of the same name in StateEngine says.
 */
module PowerStateMachine {
  import opened PowerTypes
  import opened FfrtTimer
  import Engine = StateEngine
  import Hibernation
  import MachineRuns
  import RequestAnswers
  import RequestLaws
  import ScreenOffTime

  class StateMachine {
    const build: Engine.Build
    const ffrtTimer: FFRTTimer
    var currentState: PowerState
    var displayState: DisplayState
    var preBrightState: Engine.PreBrightState
    var settingStateFlag: Engine.SettingFlag
    var displayOffTime: int
    var isScreenOffTimeOverride: bool
    var beforeOverrideTime: int
    var locks: Engine.Locks
    var forceTimingOut: bool
    var isDozeEnabled: bool
    var hibernating: bool
    var sleepStarts: nat
    var notices: seq<PowerState>
    var events: Hibernation.Events

    ghost function Abs(): Engine.Machine
      reads this, ffrtTimer
    {
      Engine.Machine(
        currentState, displayState, preBrightState, settingStateFlag, ffrtTimer.View(),
        Engine.OffTime(displayOffTime, isScreenOffTimeOverride, beforeOverrideTime),
        locks, forceTimingOut, isDozeEnabled, hibernating, sleepStarts, notices)
    }

    constructor (build: Engine.Build, timer: FFRTTimer)
      ensures this.build == build && ffrtTimer == timer
      ensures Abs() == Engine.Machine(
        Unknown, DisplayUnknown, Engine.Unstarted, Engine.NoSetting, timer.View(),
        Engine.OffTime(if build.chargingType then 300000 else 30000, false, -1),
        Engine.Locks(0, 0, 0), false, false, false, 0, [])
    {
      this.build, ffrtTimer := build, timer;
      currentState, displayState, preBrightState := Unknown, DisplayUnknown, Engine.Unstarted;
      settingStateFlag := Engine.NoSetting;
      displayOffTime := if build.chargingType then 300000 else 30000;
      isScreenOffTimeOverride, beforeOverrideTime := false, -1;
      locks := Engine.Locks(0, 0, 0);
      forceTimingOut, isDozeEnabled, hibernating, sleepStarts, notices := false, false, false, 0, [];
      events := Hibernation.Events(0, 0, 0);
    }

    // -------------------------------------------------------------------------------------
    // Devices

    method SetDisplayState(d: DisplayState, ok: bool) returns (success: bool)
      modifies this`displayState
      ensures success == ok
      ensures Abs() == Engine.SetDisplay(old(Abs()), d, ok)
    {
      if ok {
        displayState := d;
      }
      success := ok;
    }

    method CancelActivityTimers()
      modifies ffrtTimer
      ensures Abs() == old(Abs()).(timers := Engine.CancelActivityTimers(old(Abs().timers)))
    {
      ffrtTimer.CancelTimer(TIMER_ID_USER_ACTIVITY_TIMEOUT);
      ffrtTimer.CancelTimer(TIMER_ID_USER_ACTIVITY_OFF);
    }

    method ResetInactiveTimer()
      modifies this`settingStateFlag, ffrtTimer
      ensures Abs() == Engine.ResetInactiveTimer(build, old(Abs()))
    {
      CompareExchangeFlag();
      CancelActivityTimers();
      if displayOffTime < 0 {
        if build.neverSleepDim {
          var activeTime := if build.activeBeforeDim == Engine.UNDEFINED_ACTIVE_TIME
            then Engine.DEFAULT_ACTIVE_TIME_MS else build.activeBeforeDim;
          ffrtTimer.SetTimer(TIMER_ID_USER_ACTIVITY_TIMEOUT, activeTime);
        }
        return;
      }
      ffrtTimer.SetTimer(TIMER_ID_USER_ACTIVITY_TIMEOUT, displayOffTime - Engine.DimTime(build, displayOffTime));
    }

    // -------------------------------------------------------------------------------------
    // Checks and the pre-bright protocol

    method CanTransitTo(to: PowerState, reason: Reason, env: Engine.Env) returns (can: bool)
      modifies this`sleepStarts
      ensures can == Engine.CanTransitTo(build, old(Abs()), to, reason, env)
      ensures can ==> Abs() == old(Abs())
      ensures !can ==> Abs() == Engine.Refuse(build, old(Abs()), to, reason, env)
    {
      hide Abs, Engine.CanTransitTo, Engine.Forbidden, Engine.AllowedByReason,
        Engine.WakeBlockedBySensor, Engine.ProximityTaskInvalid;
      Engine.TransitCases(build, Abs(), to, reason, env);
      var from := GetState();
      if Engine.Forbidden(build, from, to) {
        return false;
      }
      var blocked := WakeBlockedBySensor(to, reason, env);
      if blocked {
        StartSleepTimer(from);
        return false;
      }
      var invalid := IsProximityTaskInvalid(to, reason);
      return !invalid && Engine.AllowedByReason(reason, from, to);
    }

    method IsProximityTaskInvalid(to: PowerState, reason: Reason) returns (invalid: bool)
      ensures invalid == Engine.ProximityTaskInvalid(Abs().locks, to, reason)
    {
      return reason.Proximity? && to.Inactive? && locks.proximity == 0;
    }

    method WakeBlockedBySensor(to: PowerState, reason: Reason, env: Engine.Env) returns (blocked: bool)
      ensures blocked == Engine.WakeBlockedBySensor(to, reason, env)
    {
      if !((reason.DoubleClick? || reason.Pickup? || reason.PlugChange?) && to.Awake?) {
        return false;
      }
      if env.proximityClose {
        return true;
      }
      if env.lidMode && reason.Pickup? {
        return true;
      }
      return env.movementOn && (reason.DoubleClick? || reason.Pickup?);
    }

    method StartSleepTimer(from: PowerState)
      modifies this`sleepStarts
      ensures Abs() == if from == Sleep then old(Abs()).(sleepStarts := old(Abs().sleepStarts) + 1) else old(Abs())
    {
      if from == Sleep {
        sleepStarts := sleepStarts + 1;
      }
    }

    /** Asks the blocking lock types of a state one after the other. */
    method CheckRunningLock(state: PowerState) returns (free: bool)
      ensures free == Engine.LocksAllow(Abs().locks, state)
      ensures free <==> !RequestLaws.Blocked(locks, state)
    {
      var asked := if state == Dim then Inactive else state;
      var blockers := if asked == Inactive then [locks.screen] else if asked == Sleep then [locks.coordination] else [];
      for i := 0 to |blockers|
        invariant forall j | 0 <= j < i :: blockers[j] == 0
      {
        if blockers[i] > 0 {
          return false;
        }
      }
      assert |blockers| > 0 ==> blockers[0] == 0;
      return true;
    }

    method HandlePreBrightState(target: PowerState, reason: Reason) returns (go: bool)
      modifies this`preBrightState, this`sleepStarts, ffrtTimer
      ensures Engine.Gate(Abs(), go) == Engine.HandlePreBright(old(Abs()), target, reason)
    {
      hide Abs;
      if reason == PreBright {
        go := BeginPreBright();
      } else if IsPreBrightAuthReason(reason) {
        go := EndPreBright();
      } else {
        go := AbandonPreBright(target);
      }
    }

    method BeginPreBright() returns (go: bool)
      modifies this`preBrightState, ffrtTimer
      ensures Engine.Gate(Abs(), go) == Engine.BeginPreBright(old(Abs()))
    {
      if preBrightState == Engine.Started {
        ffrtTimer.CancelTimer(TIMER_ID_PRE_BRIGHT_AUTH);
      }
      ffrtTimer.SetTimer(TIMER_ID_PRE_BRIGHT_AUTH, Engine.PRE_BRIGHT_AUTH_TIMER_DELAY_MS);
      preBrightState := Engine.Started;
      return true;
    }

    method EndPreBright() returns (go: bool)
      modifies this`preBrightState, this`sleepStarts
      ensures Engine.Gate(Abs(), go) == Engine.EndPreBright(old(Abs()))
    {
      if preBrightState == Engine.Started {
        preBrightState := Engine.Finished;
        return true;
      }
      sleepStarts := sleepStarts + 1;
      return false;
    }

    method AbandonPreBright(target: PowerState) returns (go: bool)
      modifies this`preBrightState, ffrtTimer
      ensures Engine.Gate(Abs(), go) == Engine.AbandonPreBright(old(Abs()), target)
    {
      if target != Sleep && preBrightState == Engine.Started {
        ffrtTimer.CancelTimer(TIMER_ID_PRE_BRIGHT_AUTH);
      }
      if target != Sleep {
        preBrightState := Engine.Unstarted;
      }
      return true;
    }

    // -------------------------------------------------------------------------------------
    // Actions

    method AwakeAction(reason: Reason, env: Engine.Env) returns (result: TransitResult)
      modifies this`displayState, this`settingStateFlag, ffrtTimer
      ensures Engine.Step(Abs(), result) == Engine.AwakeAction(build, old(Abs()), reason, env)
    {
      var target := DisplayOn;
      if reason == AuthFailScreenOff {
        target := if isDozeEnabled then DisplayDoze else DisplayOff;
      }
      var ok := SetDisplayState(target, env.displayOk);
      if !ok {
        return DisplayOnErr;
      }
      if reason != PreBright {
        ResetInactiveTimer();
      }
      return Success;
    }

    method InactiveAction(reason: Reason, env: Engine.Env) returns (result: TransitResult)
      modifies this`displayState, ffrtTimer
      ensures Engine.Step(Abs(), result) == Engine.InactiveAction(old(Abs()), reason, env)
    {
      var state := DisplayOff;
      if reason != SwitchSensorhub && isDozeEnabled {
        state := DisplayDoze;
      }
      var ok := SetDisplayState(state, env.displayOk);
      if !ok {
        return DisplayOffErr;
      }
      CancelActivityTimers();
      return Success;
    }

    /** The screen-off timer; no timer if automatic display-off is disabled. */
    method ArmScreenOff(dimTime: int)
      modifies ffrtTimer
      ensures Abs() == Engine.ArmScreenOff(old(Abs()), dimTime)
    {
      CancelActivityTimers();
      if displayOffTime >= 0 {
        ffrtTimer.SetTimer(TIMER_ID_USER_ACTIVITY_OFF, dimTime);
      }
    }

    /** The compare-exchange of a refresh, from whichever thread it comes. */
    method CompareExchangeFlag()
      modifies this`settingStateFlag
      ensures Abs() == old(Abs()).(flag := Engine.Interrupt(old(Abs().flag)))
    {
      if settingStateFlag == Engine.Setting(Dim) {
        settingStateFlag := Engine.SettingDimInterrupted;
      }
    }

    method DimTime(reason: Reason) returns (dimTime: int)
      ensures dimTime == Engine.DimTimeFor(build, Abs(), reason)
    {
      dimTime := Engine.DimTime(build, displayOffTime);
      if reason.Coordination? {
        dimTime := Engine.COORDINATED_STATE_SCREEN_OFF_TIME_MS;
      }
    }

    /** The DIM action up to the point where it looks whether it was interrupted. */
    method DimFirstHalf(reason: Reason, env: Engine.Env) returns (ok: bool)
      modifies this`displayState, this`settingStateFlag, ffrtTimer
      ensures ok == env.displayOk
      ensures Abs() == Engine.DimFirstHalf(build, old(Abs()), reason, env)
    {
      hide Abs, Engine.SetDisplay, Engine.ArmScreenOff, Engine.DimTimeFor, Engine.Interrupt;
      var dimTime := DimTime(reason);
      // A failing display call does not end the action: the screen must still be turned off later.
      ok := SetDisplayState(DisplayDim, env.displayOk);
      ArmScreenOff(dimTime);
      if env.hit {
        CompareExchangeFlag();
      }
    }

    /** Undo a DIM that a refresh interrupted. */
    method BackToOn(env: Engine.Env)
      modifies this`displayState, this`settingStateFlag, ffrtTimer
      ensures Abs() == Engine.ResetInactiveTimer(build, Engine.SetDisplay(old(Abs()), DisplayOn, env.restoreOk))
    {
      hide Abs, Engine.SetDisplay, Engine.ResetInactiveTimer;
      var _ := SetDisplayState(DisplayOn, env.restoreOk);
      ResetInactiveTimer();
    }

    method DimAction(reason: Reason, env: Engine.Env) returns (result: TransitResult)
      modifies this`displayState, this`settingStateFlag, ffrtTimer
      ensures Engine.Step(Abs(), result) == Engine.DimAction(build, old(Abs()), reason, env)
    {
      if !build.neverSleepDim && displayOffTime < 0 {
        return OtherErr;
      }
      hide Engine.DimFirstHalf, Engine.ResetInactiveTimer, Engine.SetDisplay;
      var ok := DimFirstHalf(reason, env);
      if settingStateFlag == Engine.SettingDimInterrupted {
        BackToOn(env);
        return OtherErr;
      }
      return if ok then Success else OtherErr;
    }

    method RunAction(target: PowerState, reason: Reason, env: Engine.Env) returns (result: TransitResult)
      modifies this`displayState, this`settingStateFlag, ffrtTimer
      ensures Engine.Step(Abs(), result) == Engine.Action(build, old(Abs()), target, reason, env)
    {
      hide Abs, Engine.AwakeAction, Engine.InactiveAction, Engine.DimAction;
      match target {
        case Awake => result := AwakeAction(reason, env);
        case Inactive => result := InactiveAction(reason, env);
        case Dim => result := DimAction(reason, env);
        case _ => result := Success;
      }
    }

    // -------------------------------------------------------------------------------------
    // Transitions and requests

    method MatchState(target: PowerState)
      modifies this`currentState
      ensures Abs() == Engine.Matched(old(Abs()), target)
    {
      if target in {Sleep, Hibernate, Shutdown} || currentState in {Sleep, Hibernate, Shutdown} {
        return;
      }
      if displayState.DisplayOff? {
        if currentState.Awake? || currentState.Freeze? {
          currentState := Inactive;
        }
      } else if displayState.DisplayDim? {
        if currentState.Inactive? || currentState.StandBy? || currentState.Doze? {
          currentState := Dim;
        }
      } else if displayState.DisplayOn? {
        if currentState.Inactive? || currentState.StandBy? || currentState.Doze? {
          currentState := Awake;
        }
      }
    }

    method CheckState(target: PowerState) returns (differs: bool)
      ensures differs == Engine.CheckState(build, target, Abs().current)
    {
      if target.Dim? || (build.forceSleepBroadcast && target.Sleep?) || target.Awake? {
        return true;
      }
      return target != currentState;
    }

    method Commit(target: PowerState, env: Engine.Env)
      modifies this`currentState, this`notices
      ensures Abs() == Engine.Commit(build, old(Abs()), target, env)
    {
      var needNotify := Engine.NeedNotify(build, target, currentState, env);
      currentState := target;
      if needNotify {
        notices := notices + [currentState];
      }
    }

    /** The checks that read tables and locks; `Success` means that none objects. */
    method Check(target: PowerState, reason: Reason, ignoreLock: bool, env: Engine.Env)
      returns (result: TransitResult)
      modifies this`sleepStarts
      ensures Engine.Step(Abs(), result) == Engine.Check(build, old(Abs()), target, reason, ignoreLock, env)
    {
      hide Abs, Engine.CheckState, Engine.CanTransitTo, Engine.Refuse, Engine.LocksAllow;
      var differs := CheckState(target);
      if !differs {
        return AlreadyInState;
      }
      if !reason.Init? {
        var can := CanTransitTo(target, reason, env);
        if !can {
          return ForbidTransit;
        }
      }
      if !ignoreLock {
        var free := CheckRunningLock(target);
        if !free {
          return Locking;
        }
      }
      return Success;
    }

    /** All checks of a transition, the pre-bright protocol last; `Success` means that the action may run. */
    method Admit(target: PowerState, reason: Reason, ignoreLock: bool, env: Engine.Env)
      returns (result: TransitResult)
      modifies this`sleepStarts, this`preBrightState, ffrtTimer
      ensures Engine.Step(Abs(), result) == Engine.Admit(build, old(Abs()), target, reason, ignoreLock, env)
    {
      hide Abs, Engine.Check, Engine.HandlePreBright;
      result := Check(target, reason, ignoreLock, env);
      if !result.Success? {
        return;
      }
      var go := HandlePreBrightState(target, reason);
      return if go then Success else PreBrightErr;
    }

    method TransitTo(target: PowerState, reason: Reason, ignoreLock: bool, env: Engine.Env)
      returns (result: TransitResult)
      modifies this, ffrtTimer
      ensures Engine.Step(Abs(), result) == Engine.TransitTo(build, old(Abs()), target, reason, ignoreLock, env)
      ensures events == old(events)
    {
      hide Abs, Engine.Matched, Engine.Admit, Engine.Action, Engine.Finish;
      MatchState(target);
      result := Admit(target, reason, ignoreLock, env);
      if !result.Success? {
        return;
      }
      result := RunAction(target, reason, env);
      Finish(result, target, env);
    }

    method Finish(result: TransitResult, target: PowerState, env: Engine.Env)
      modifies this`currentState, this`notices
      ensures Engine.Step(Abs(), result) == Engine.Finish(build, Engine.Step(old(Abs()), result), target, env)
    {
      hide Abs, Engine.Commit;
      if result.Success? {
        Commit(target, env);
      }
    }

    /** The scope object around a transition: it marks the state being set, and unmarks it at the end. */
    method UpdateSettingFlag(flag: Engine.SettingFlag)
      modifies this`settingStateFlag
      ensures Abs() == old(Abs()).(flag := flag)
    {
      settingStateFlag := flag;
    }

    /** Timeouts ignore running locks while timing out is forced. */
    method IgnoresLocks(reason: Reason, force: bool) returns (ignoreLock: bool)
      ensures ignoreLock == Engine.IgnoresLocks(Abs(), reason, force)
    {
      return force || (IsTimeoutReason(reason) && forceTimingOut);
    }

    method SetState(target: PowerState, reason: Reason, force: bool, env: Engine.Env) returns (accepted: bool)
      modifies this, ffrtTimer
      ensures Abs() == Engine.SetState(build, old(Abs()), target, reason, force, env).m
      ensures accepted == Engine.Accepted(Engine.SetState(build, old(Abs()), target, reason, force, env).verdict)
      ensures events == old(events)
      ensures accepted ==> Abs().current == target
      ensures RequestAnswers.InUse(old(Abs()).current) && RequestAnswers.InUse(target) ==>
        (accepted <==> RequestAnswers.Expected(build, old(Abs()), target, reason, force, env)
                       in {Engine.Done(Success), Engine.Done(AlreadyInState)})
      ensures var available := Engine.TaskAvailable(build, old(Abs()).timers, target, reason, env.task);
        if !available then !accepted && Abs() == old(Abs())
        else
          && Abs().flag == Engine.NoSetting
          && (target in {Awake, Inactive, Dim} && RequestLaws.Requestable(target, reason) &&
              !(target == Awake && reason.AuthFailScreenOff?) ==>
                RequestLaws.DisplayAgrees(Abs().current, Abs().display))
    {
      hide Abs, Engine.TaskAvailable, Engine.IgnoresLocks, Engine.FlagFor, Engine.TransitTo, RequestLaws.DisplayAgrees,
        RequestLaws.Requestable, RequestAnswers.Expected;
      if RequestAnswers.InUse(Abs().current) && RequestAnswers.InUse(target) {
        RequestAnswers.AnsweredAsExpected(build, Abs(), target, reason, force, env);
      }
      RequestLaws.CallersView(build, Abs(), target, reason, force, env);
      var available := CheckFFRTTaskAvailability(target, reason, env.task);
      if !available {
        return false;
      }
      var ignoreLock := IgnoresLocks(reason, force);
      UpdateSettingFlag(Engine.FlagFor(target, reason));
      var result := TransitTo(target, reason, ignoreLock, env);
      UpdateSettingFlag(Engine.NoSetting);
      return result.Success? || result.AlreadyInState?;
    }

    method CheckFFRTTaskAvailability(target: PowerState, reason: Reason, task: Option<Handle>)
      returns (available: bool)
      ensures available == Engine.TaskAvailable(build, Abs().timers, target, reason, task)
    {
      hide Abs, Stored, IsTimeoutReason, Engine.TimerOf;
      if !IsTimeoutReason(reason) || task == None {
        return true;
      }
      if build.chargingType {
        var autoSleep := StoredTask(TIMER_ID_AUTO_SLEEP);
        if task == autoSleep {
          return true;
        }
      }
      var pendingTask := StoredTask(Engine.TimerOf(target));
      return task == pendingTask;
    }

    method StoredTask(id: TimerId) returns (h: Option<Handle>)
      ensures h == Stored(Abs().timers, id)
    {
      h := ffrtTimer.GetTaskHandlePtr(id);
    }

    method RefreshActivityInner(env: Engine.Env)
      modifies this, ffrtTimer
      ensures Abs() == Engine.RefreshActivity(build, old(Abs()), env)
      ensures MachineRuns.Dark(old(Abs())) ==> MachineRuns.Dark(Abs())
      ensures Lit(old(Abs()), Dim, DisplayDim) && env.displayOk && !old(preBrightState).Started? ==>
        && currentState == Awake && displayState == DisplayOn && settingStateFlag == Engine.NoSetting
        && Pending(ffrtTimer.View()) == old(RequestAnswers.Touched(build, Abs()))
      ensures Lit(old(Abs()), Awake, DisplayOn) ==>
        && Abs() == old(Abs()).(timers := ffrtTimer.View())
        && Pending(ffrtTimer.View()) == old(RequestAnswers.Touched(build, Abs()))
    {
      hide Engine.SetState, Engine.ResetInactiveTimer, MachineRuns.Dark, Pending, Coherent, RequestAnswers.Touched,
        Engine.RefreshActivity;
      if MachineRuns.Dark(Abs()) {
        MachineRuns.RefreshStep(build, Abs(), MachineRuns.Activity(env));
      }
      if Lit(Abs(), Dim, DisplayDim) && env.displayOk && !preBrightState.Started? {
        RequestAnswers.ActivityLightsUp(build, Abs(), env);
      }
      if Lit(Abs(), Awake, DisplayOn) {
        RequestAnswers.ActivityRearms(build, Abs(), env);
      }
      DoRefreshActivity(env);
    }

    /** The screen shows `display` in power state `state`, and no state is being set. */
    static ghost predicate Lit(m: Engine.Machine, state: PowerState, display: DisplayState) {
      m.current == state && m.display == display && m.flag == Engine.NoSetting && Coherent(m.timers)
    }

    method DoRefreshActivity(env: Engine.Env)
      modifies this, ffrtTimer
      ensures Abs() == Engine.RefreshActivity(build, old(Abs()), env)
    {
      hide Engine.SetState, Engine.ResetInactiveTimer;
      if Engine.ScreenOn(displayState) && !Engine.IsSetting(settingStateFlag, Inactive) {
        if currentState.Dim? || Engine.IsSetting(settingStateFlag, Dim) {
          var _ := SetState(Awake, Refresh, true, env);
        } else {
          ResetInactiveTimer();
        }
      }
    }

    method StopSleep()
      modifies ffrtTimer
      ensures Abs() == Engine.StopSleep(build, old(Abs()))
    {
      ffrtTimer.CancelTimer(TIMER_ID_SLEEP);
      if build.chargingType {
        ffrtTimer.CancelTimer(TIMER_ID_AUTO_SLEEP);
      }
    }

    method CancelAuthTimer()
      modifies ffrtTimer
      ensures Abs() == old(Abs()).(timers := Disarm(old(Abs().timers), TIMER_ID_PRE_BRIGHT_AUTH))
    {
      ffrtTimer.CancelTimer(TIMER_ID_PRE_BRIGHT_AUTH);
    }

    method RestartSleep()
      modifies this`sleepStarts
      ensures Abs() == old(Abs()).(sleepStarts := old(Abs().sleepStarts) + 1)
    {
      sleepStarts := sleepStarts + 1;
    }

    method HandlePreBrightWakeUp(reason: Reason, timeoutTriggered: bool, env: Engine.Env) returns (accepted: bool)
      modifies this, ffrtTimer
      ensures Abs() == Engine.PreBrightWakeUp(build, old(Abs()), reason, timeoutTriggered, env).m
      ensures accepted ==
        Engine.Accepted(Engine.PreBrightWakeUp(build, old(Abs()), reason, timeoutTriggered, env).verdict)
    {
      hide Abs, Engine.SetState, Engine.Accepted;
      StopSleep();
      if !timeoutTriggered && IsPreBrightAuthReason(reason) {
        CancelAuthTimer();
      }
      accepted := SetState(Awake, reason, true, env);
      if reason.AuthFailScreenOff? {
        RestartSleep();
      }
    }

    // -------------------------------------------------------------------------------------
    // Screen-off time

    method AssignOffTime(off: Engine.OffTime)
      modifies this`displayOffTime, this`isScreenOffTimeOverride, this`beforeOverrideTime
      ensures Abs() == old(Abs()).(off := off)
    {
      displayOffTime, isScreenOffTimeOverride, beforeOverrideTime := off.effective, off.overridden, off.before;
    }

    method SetDisplayOffTime(time: int)
      modifies this`displayOffTime, this`isScreenOffTimeOverride, this`beforeOverrideTime, this`settingStateFlag, ffrtTimer
      ensures Abs() == ScreenOffTime.SetDisplayOffTime(build, old(Abs()), time)
    {
      hide Engine.ResetInactiveTimer;
      AssignOffTime(Engine.OffTime(time, isScreenOffTimeOverride, beforeOverrideTime));
      if currentState == Awake {
        ResetInactiveTimer();
      }
    }

    method OverrideScreenOffTimeInner(timeout: int)
      modifies this`displayOffTime, this`isScreenOffTimeOverride, this`beforeOverrideTime, this`settingStateFlag, ffrtTimer
      ensures Abs() == ScreenOffTime.OverrideScreenOffTime(build, old(Abs()), timeout)
    {
      hide ScreenOffTime.SetDisplayOffTime;
      if !isScreenOffTimeOverride {
        AssignOffTime(Engine.OffTime(displayOffTime, true, displayOffTime));
      }
      SetDisplayOffTime(timeout);
    }

    method RestoreScreenOffTimeInner() returns (restored: bool)
      modifies this`displayOffTime, this`isScreenOffTimeOverride, this`beforeOverrideTime, this`settingStateFlag, ffrtTimer
      ensures restored == old(isScreenOffTimeOverride)
      ensures Abs() == ScreenOffTime.RestoreScreenOffTime(build, old(Abs()))
    {
      if !isScreenOffTimeOverride {
        return false;
      }
      hide ScreenOffTime.SetDisplayOffTime;
      SetDisplayOffTime(beforeOverrideTime);
      AssignOffTime(Engine.OffTime(displayOffTime, false, beforeOverrideTime));
      return true;
    }

    method DisplayOffTimeUpdateFunc(setting: int)
      modifies this`displayOffTime, this`isScreenOffTimeOverride, this`beforeOverrideTime, this`settingStateFlag, ffrtTimer
      ensures Abs() == ScreenOffTime.DisplayOffTimeUpdate(build, old(Abs()), setting)
    {
      hide ScreenOffTime.SetDisplayOffTime;
      if build.chargingType && isScreenOffTimeOverride {
        AssignOffTime(Engine.OffTime(displayOffTime, isScreenOffTimeOverride, setting));
        return;
      }
      if setting == displayOffTime {
        return;
      }
      AssignOffTime(Engine.OffTime(displayOffTime, isScreenOffTimeOverride, setting));
      SetDisplayOffTime(setting);
    }

    // -------------------------------------------------------------------------------------
    // Hibernation

    method AssignHibernating(on: bool)
      modifies this`hibernating
      ensures Abs() == old(Abs()).(hibernating := on)
    {
      hibernating := on;
    }

    method PrepareHibernate(clearMemory: bool, o: Hibernation.Outside) returns (ok: bool)
      modifies this, ffrtTimer
      ensures Engine.Gate(Abs(), ok) == Hibernation.PrepareHibernate(build, old(Abs()), clearMemory, o)
      ensures events == old(events)
    {
      hide Abs, Engine.SetState;
      var _ := SetState(Inactive, HibernateReason, true, o.inactive);
      if clearMemory {
        if !o.accountsOk {
          return false;
        }
        if !o.stopServiceOk {
          return false;
        }
      }
      ok := SetState(Hibernate, System, true, o.toHibernate);
    }

    method RestoreHibernate(o: Hibernation.Outside)
      modifies this, ffrtTimer
      ensures Hibernation.Outcome(Abs(), events) == Hibernation.RestoreHibernate(build, old(Abs()), old(events), o)
    {
      hide Abs, Engine.SetState;
      AssignHibernating(false);
      Publish(events.(exited := events.exited + 1));
      var _ := SetState(Awake, System, true, o.back);
    }

    method Publish(ev: Hibernation.Events)
      modifies this`events
      ensures events == ev && Abs() == old(Abs())
    {
      events := ev;
    }

    method RollbackHibernate(originalState: PowerState, needShutdown: bool, o: Hibernation.Outside)
      modifies this, ffrtTimer
      ensures Hibernation.Outcome(Abs(), events) ==
        Hibernation.RollbackHibernate(build, old(Abs()), old(events), originalState, needShutdown, o)
    {
      hide Abs, Engine.SetState;
      AssignHibernating(false);
      if needShutdown {
        Publish(events.(shutdowns := events.shutdowns + 1));
        return;
      }
      Publish(events.(exited := events.exited + 1));
      var _ := SetState(Inactive, RollbackReason, true, o.back);
      if originalState == Sleep {
        RestartSleep();
      }
    }

    method HibernateInner(clearMemory: bool, lowCapacity: bool, o: Hibernation.Outside) returns (handled: bool)
      modifies this, ffrtTimer
      ensures Hibernation.Outcome(Abs(), events) ==
        Hibernation.HibernateInner(build, old(Abs()), old(events), clearMemory, lowCapacity, o)
      ensures handled == (Hibernation.TakenOver(clearMemory, o) || !old(hibernating))
    {
      if clearMemory && o.takenOver {
        return true;
      }
      if hibernating {
        return false;
      }
      HibernateSequence(clearMemory, lowCapacity, o);
      return true;
    }

    method GetState() returns (state: PowerState)
      ensures state == Abs().current
    {
      return currentState;
    }

    method HibernateSequence(clearMemory: bool, lowCapacity: bool, o: Hibernation.Outside)
      modifies this, ffrtTimer
      ensures Hibernation.Outcome(Abs(), events) ==
        Hibernation.Sequence(build, old(Abs()), old(events), clearMemory, lowCapacity, o)
    {
      hide Abs, Hibernation.PrepareHibernate, Hibernation.ComeBack;
      var originalState := GetState();
      AssignHibernating(true);
      var needShutdown := clearMemory || lowCapacity;
      Publish(events.(entered := events.entered + 1));
      var prepared := PrepareHibernate(clearMemory, o);
      ComeBack(prepared && o.hibernateOk, originalState, needShutdown, o);
    }

    method ComeBack(success: bool, originalState: PowerState, needShutdown: bool, o: Hibernation.Outside)
      modifies this, ffrtTimer
      ensures Hibernation.Outcome(Abs(), events) ==
        Hibernation.ComeBack(build, old(Abs()), old(events), success, originalState, needShutdown, o)
    {
      hide Abs, Hibernation.RollbackHibernate, Hibernation.RestoreHibernate;
      if success {
        RestoreHibernate(o);
      } else {
        RollbackHibernate(originalState, needShutdown, o);
      }
    }
  }
}
