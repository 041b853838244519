/** The power-mode object: each method does what the functions on values say. */
module PowerModeService {
  import opened PowerTypes
  import opened RecoverJson
  import opened ModePolicy
  import opened PowerMode

  class PowerModeModule {
    var mode: uint32
    var subMode: int32
    var lastMode: int
    var started: bool
    var observerRegisted: bool
    var announced: seq<Announcement>
    const policy: PowerModePolicy
    const settings: Settings
    const resourceSchedule: bool

    ghost predicate Valid() { policy.settings == settings }

    ghost function Abs(): Service
      reads this, policy, settings
    {
      Service(mode, subMode, lastMode, started, observerRegisted, policy.Maps(), settings.store, announced)
    }

    ghost function TheDevice(): Device { Device(policy.cache, policy.platform, resourceSchedule) }

    constructor (policy: PowerModePolicy, settings: Settings, resourceSchedule: bool)
      requires policy.settings == settings && policy.Maps() == PolicyMaps(map[], map[], map[])
      ensures Valid() && Abs() == Constructed(settings.store)
      ensures this.policy == policy && this.settings == settings && this.resourceSchedule == resourceSchedule
    {
      mode, subMode, lastMode, started, observerRegisted, announced :=
        NORMAL_MODE, SUB_MODE_INVALID, LAST_MODE_FLAG, false, false, [];
      this.policy, this.settings, this.resourceSchedule := policy, settings, resourceSchedule;
    }

    method InitPowerMode()
      requires Valid()
      modifies this, policy, settings
      ensures Abs() == PowerMode.InitPowerMode(TheDevice(), old(Abs()))
    {
      hide UpdatePolicy, PowerMode.RunAction, PowerMode.Announce, Read;
      InitModes();
      Prepare();
      var ok := policy.InitRecoverMap();
      if !ok {
        UpdateModePolicy();
        RunAction(false);
        return;
      }
      if resourceSchedule && IsBootNeedActions() {
        UpdateModePolicy();
        RunAction(true);
      }
    }

    method InitModes()
      modifies this`mode, this`subMode
      ensures mode == SavedMode(settings.store) && subMode == SavedSubMode(settings.store)
    {
      var saveMode := IntOr(settings.store.mode, LAST_MODE_FLAG);
      mode := if saveMode == LAST_MODE_FLAG then NORMAL_MODE else Unsigned(saveMode);
      var saveSubMode := IntOr(settings.store.subMode, SUB_MODE_EMERGENCY);
      if saveSubMode != SUB_MODE_INVALID && saveSubMode != SUB_MODE_SUPER_POWER_SAVE &&
         saveSubMode != SUB_MODE_EMERGENCY {
        saveSubMode := SUB_MODE_EMERGENCY;
      }
      if mode != EXTREME_POWER_SAVE_MODE {
        saveSubMode := SUB_MODE_INVALID;
      }
      subMode := saveSubMode;
    }

    predicate IsBootNeedActions()
      reads this
    {
      lastMode == LAST_MODE_FLAG && mode == PERFORMANCE_MODE
    }

    method SetModeItem(newMode: uint32) returns (e: PowerErrors)
      requires Valid()
      modifies this, policy, settings
      ensures PowerMode.SetModeItem(TheDevice(), old(Abs()), newMode) == Reply(Abs(), e)
    {
      hide PowerMode.EnableMode;
      if mode == newMode {
        return ErrOk;
      }
      if newMode > EXTREME_POWER_SAVE_MODE && newMode < POWER_MODE_MAX {
        return ErrParamInvalid;
      }
      if newMode < POWER_MODE_MIN || newMode > POWER_MODE_MAX {
        return ErrParamInvalid;
      }
      if !CanTransitTo(mode, newMode) {
        return ErrPowerModeTransitFailed;
      }
      UnregisterSaveModeObserver();
      if newMode != EXTREME_POWER_SAVE_MODE && subMode != SUB_MODE_INVALID {
        subMode := SUB_MODE_INVALID;
        settings.SaveSubMode(subMode);
      }
      EnableMode(newMode, false);
      RegisterSaveModeObserver();
      return ErrOk;
    }

    method SetModeAndSubModeItem(newMode: uint32, newSubMode: int32) returns (e: PowerErrors)
      requires Valid()
      modifies this, policy, settings
      ensures PowerMode.SetModeAndSubModeItem(TheDevice(), old(Abs()), newMode, newSubMode) == Reply(Abs(), e)
    {
      hide PowerMode.SetModeItem;
      if newSubMode != SUB_MODE_INVALID && newSubMode != SUB_MODE_SUPER_POWER_SAVE && newSubMode != SUB_MODE_EMERGENCY {
        return ErrParamInvalid;
      }
      var oldSubMode := subMode;
      var sameMode := mode == newMode;
      e := SetModeItem(newMode);
      if !e.ErrOk? {
        return;
      }
      subMode := newSubMode;
      settings.SaveSubMode(subMode);
      if sameMode && oldSubMode != newSubMode {
        PublishPowerModeEvent();
      }
    }

    method UnregisterSaveModeObserver()
      modifies this`observerRegisted
      ensures !observerRegisted
    {
      if observerRegisted {
        observerRegisted := false;
      }
    }

    method RegisterSaveModeObserver()
      modifies this`observerRegisted
      ensures Abs() == PowerMode.Watch(old(Abs()))
    {
      if mode == POWER_SAVE_MODE || mode == EXTREME_POWER_SAVE_MODE {
        observerRegisted := true;
      }
    }

    /** The update function of the observer of setting `id`. */
    method SettingUpdateFunc(id: uint32)
      requires Valid()
      modifies policy`recoverMap, settings
      ensures Abs() == SettingUpdated(old(Abs()), id)
    {
      hide Render;
      var switchVal := policy.GetPowerModeValuePolicy(id);
      var setVal := IntValue(settings.store.values, id, switchVal);
      if setVal == switchVal {
        return;
      }
      policy.RemoveBackupMapSettingSwitch(id);
    }

    method EnableMode(newMode: uint32, isBoot: bool)
      requires Valid()
      modifies this, policy, settings
      ensures Abs() == PowerMode.EnableMode(TheDevice(), old(Abs()), newMode, isBoot)
    {
      hide UpdatePolicy, PowerMode.RunAction, PowerMode.Announce;
      if started {
        return;
      }
      started := true;
      mode := newMode;
      UpdateModePolicy();
      Prepare();
      RunAction(isBoot);
      settings.SaveMode(Wrap32(newMode));
      lastMode := newMode;
      started := false;
    }

    method UpdateModePolicy()
      requires Valid()
      modifies policy, settings
      ensures Abs() == UpdatePolicy(TheDevice(), old(Abs()))
    {
      hide Update, Render;
      policy.UpdatePowerModePolicy(mode);
    }

    /** Tell the mode; the mode callbacks are not part of the model. */
    method Prepare()
      modifies this`announced
      ensures Abs() == Announce(old(Abs()))
    {
      PublishPowerModeEvent();
    }

    method PublishPowerModeEvent()
      modifies this`announced
      ensures Abs() == Announce(old(Abs()))
    {
      if mode == PERFORMANCE_MODE || mode == NORMAL_MODE || mode == POWER_SAVE_MODE ||
         mode == EXTREME_POWER_SAVE_MODE || mode == CUSTOM_POWER_SAVE_MODE {
        announced := announced + [Announcement(mode, if mode == EXTREME_POWER_SAVE_MODE then Some(subMode) else None)];
      }
    }

    method RunAction(isBoot: bool)
      requires Valid()
      modifies settings
      ensures Abs() == PowerMode.RunAction(old(Abs()), isBoot)
    {
      hide RunOne, RunActions;
      ActionsAreIndependent(settings.store.values, policy.switchMap, isBoot);
      SetSwitch(AUTO_ADJUST_BRIGHTNESS, isBoot);
      SetSwitch(INTELL_VOICE, isBoot);
      SetSwitch(AUTO_WINDOW_ROTATION, isBoot);
      SetSwitch(VIBRATORS_STATE, isBoot);
    }

    /** The action of one setting. */
    method SetSwitch(id: uint32, isBoot: bool)
      requires Valid()
      modifies settings
      ensures settings.store ==
              old(settings.store).(values := RunOne(old(settings.store.values), policy.switchMap, isBoot, id))
    {
      if isBoot && id in settings.store.values {
        return;
      }
      var value := policy.GetPowerModeValuePolicy(id);
      if value == INIT_VALUE_FALSE {
        return;
      }
      settings.SetIntValue(id, value);
    }
  }

  /** The service's calls; `denied` is the enterprise policy's answer. */
  class PowerMgrService {
    const powerModeModule: PowerModeModule

    constructor (powerModeModule: PowerModeModule)
      ensures this.powerModeModule == powerModeModule
    {
      this.powerModeModule := powerModeModule;
    }

    method SetDeviceMode(mode: uint32, denied: bool) returns (e: PowerErrors)
      requires powerModeModule.Valid()
      modifies powerModeModule, powerModeModule.policy, powerModeModule.settings
      ensures PowerMode.SetDeviceMode(powerModeModule.TheDevice(), old(powerModeModule.Abs()), mode, denied) ==
              Reply(powerModeModule.Abs(), e)
    {
      hide PowerMode.SetModeItem, PowerMode.SetModeAndSubModeItem;
      if IsSaveMode(mode) && denied {
        return ErrEnterprisePoliciesDenied;
      }
      if mode == EXTREME_POWER_SAVE_MODE {
        e := powerModeModule.SetModeAndSubModeItem(mode, SUB_MODE_EMERGENCY);
      } else {
        e := powerModeModule.SetModeItem(mode);
      }
    }

    method SetDeviceModeAndSubMode(mode: uint32, subMode: int32, denied: bool) returns (e: PowerErrors)
      requires powerModeModule.Valid()
      modifies powerModeModule, powerModeModule.policy, powerModeModule.settings
      ensures PowerMode.SetDeviceModeAndSubMode(
                powerModeModule.TheDevice(), old(powerModeModule.Abs()), mode, subMode, denied) ==
              Reply(powerModeModule.Abs(), e)
    {
      hide PowerMode.SetModeAndSubModeItem;
      if mode != EXTREME_POWER_SAVE_MODE {
        return ErrPowerModeTransitFailed;
      }
      if denied {
        return ErrEnterprisePoliciesDenied;
      }
      if subMode == SUB_MODE_INVALID {
        return ErrPowerModeTransitFailed;
      }
      e := powerModeModule.SetModeAndSubModeItem(mode, subMode);
    }
  }
}
