/**
 * Power modes: the service's calls that set mode and sub-mode, what a mode does to the
 * settings, and starting from saved settings.
 */
module PowerMode {
  import opened PowerTypes
  import opened RecoverJson
  import opened ModePolicy

  const NORMAL_MODE: uint32 := 600
  const POWER_SAVE_MODE: uint32 := 601
  const PERFORMANCE_MODE: uint32 := 602
  const EXTREME_POWER_SAVE_MODE: uint32 := 603
  const CUSTOM_POWER_SAVE_MODE: uint32 := 650
  const POWER_MODE_MIN: uint32 := NORMAL_MODE
  const POWER_MODE_MAX: uint32 := CUSTOM_POWER_SAVE_MODE
  const LAST_MODE_FLAG: int := 0

  const SUB_MODE_INVALID: int32 := -1
  const SUB_MODE_SUPER_POWER_SAVE: int32 := 603001
  const SUB_MODE_EMERGENCY: int32 := 603002

  /** The common event that tells the mode, with the sub-mode in extreme power save. */
  datatype Announcement = Announcement(mode: uint32, subMode: Option<int32>)

  /** What stays the same over reboots: the configuration, the platform, and one build flag. */
  datatype Device = Device(cache: Config, platform: Platform, resourceSchedule: bool)

  datatype Service = Service(
    mode: uint32, subMode: int32, lastMode: int, started: bool, observing: bool,
    maps: PolicyMaps, store: Store, announced: seq<Announcement>)

  /** The service after a call, and the answer. */
  datatype Reply = Reply(s: Service, error: PowerErrors)

  // ---------------------------------------------------------------------------------------
  // On values

  predicate IsSaveMode(mode: uint32) {
    mode == POWER_SAVE_MODE || mode == EXTREME_POWER_SAVE_MODE || mode == CUSTOM_POWER_SAVE_MODE
  }

  predicate CanTransitTo(from: uint32, to: uint32) { !(IsSaveMode(from) && to == PERFORMANCE_MODE) }

  predicate IsMode(mode: uint32) {
    POWER_MODE_MIN <= mode <= EXTREME_POWER_SAVE_MODE || mode == CUSTOM_POWER_SAVE_MODE
  }

  predicate IsSubMode(subMode: int32) {
    subMode == SUB_MODE_INVALID || subMode == SUB_MODE_SUPER_POWER_SAVE || subMode == SUB_MODE_EMERGENCY
  }

  function Announce(s: Service): Service {
    if IsMode(s.mode)
    then s.(announced := s.announced +
                         [Announcement(s.mode, if s.mode == EXTREME_POWER_SAVE_MODE then Some(s.subMode) else None)])
    else s
  }

  /** Does running the actions write this setting? When booting, settings that exist are left alone. */
  predicate Writes(values: SwitchMap, switches: SwitchMap, isBoot: bool, id: uint32) {
    Observed(id) && id in switches && switches[id] != INIT_VALUE_FALSE && !(isBoot && id in values)
  }

  function RunActions(values: SwitchMap, switches: SwitchMap, isBoot: bool): SwitchMap {
    values + (map id | id in switches && Writes(values, switches, isBoot, id) :: switches[id])
  }

  ghost function UpdatePolicy(d: Device, s: Service): Service {
    var maps := Update(d.cache, s.store.values, s.maps, s.mode);
    s.(maps := maps, store := s.store.(recoverText := Container(Render(maps.recover))))
  }

  function RunAction(s: Service, isBoot: bool): Service {
    s.(store := s.store.(values := RunActions(s.store.values, s.maps.switches, isBoot)))
  }

  ghost function EnableMode(d: Device, s: Service, mode: uint32, isBoot: bool): Service {
    if s.started then s
    else
      var s1 := RunAction(Announce(UpdatePolicy(d, s.(mode := mode, started := true))), isBoot);
      s1.(store := s1.store.(mode := Some(Wrap32(mode))), lastMode := mode, started := false)
  }

  function LeaveSubMode(s: Service, mode: uint32): Service {
    if mode != EXTREME_POWER_SAVE_MODE && s.subMode != SUB_MODE_INVALID
    then s.(subMode := SUB_MODE_INVALID, store := s.store.(subMode := Some(SUB_MODE_INVALID)))
    else s
  }

  /** Settings are watched in power save and extreme power save, not in custom power save. */
  function Watch(s: Service): Service {
    if s.mode == POWER_SAVE_MODE || s.mode == EXTREME_POWER_SAVE_MODE then s.(observing := true) else s
  }

  ghost function SetModeItem(d: Device, s: Service, mode: uint32): Reply {
    if s.mode == mode then Reply(s, ErrOk)
    else if !IsMode(mode) then Reply(s, ErrParamInvalid)
    else if !CanTransitTo(s.mode, mode) then Reply(s, ErrPowerModeTransitFailed)
    else Reply(Watch(EnableMode(d, LeaveSubMode(s.(observing := false), mode), mode, false)), ErrOk)
  }

  ghost function SetModeAndSubModeItem(d: Device, s: Service, mode: uint32, subMode: int32): Reply {
    if !IsSubMode(subMode) then Reply(s, ErrParamInvalid)
    else
      var r := SetModeItem(d, s, mode);
      if !r.error.ErrOk? then r
      else
        var s1 := r.s.(subMode := subMode, store := r.s.store.(subMode := Some(subMode)));
        Reply(if s.mode == mode && s.subMode != subMode then Announce(s1) else s1, ErrOk)
  }

  /** `denied` says that the enterprise policy forbids power saving. */
  ghost function SetDeviceMode(d: Device, s: Service, mode: uint32, denied: bool): Reply {
    if IsSaveMode(mode) && denied then Reply(s, ErrEnterprisePoliciesDenied)
    else if mode == EXTREME_POWER_SAVE_MODE then SetModeAndSubModeItem(d, s, mode, SUB_MODE_EMERGENCY)
    else SetModeItem(d, s, mode)
  }

  ghost function SetDeviceModeAndSubMode(d: Device, s: Service, mode: uint32, subMode: int32, denied: bool): Reply {
    if mode != EXTREME_POWER_SAVE_MODE then Reply(s, ErrPowerModeTransitFailed)
    else if denied then Reply(s, ErrEnterprisePoliciesDenied)
    else if subMode == SUB_MODE_INVALID then Reply(s, ErrPowerModeTransitFailed)
    else SetModeAndSubModeItem(d, s, mode, subMode)
  }

  function IntOr(stored: Option<int32>, defaultVal: int32): int32 {
    if stored.Some? then stored.value else defaultVal
  }

  function SavedMode(store: Store): uint32 {
    var saved := IntOr(store.mode, LAST_MODE_FLAG);
    if saved == LAST_MODE_FLAG then NORMAL_MODE else Unsigned(saved)
  }

  function SavedSubMode(store: Store): int32 {
    if SavedMode(store) != EXTREME_POWER_SAVE_MODE then SUB_MODE_INVALID
    else if IsSubMode(IntOr(store.subMode, SUB_MODE_EMERGENCY)) then IntOr(store.subMode, SUB_MODE_EMERGENCY)
    else SUB_MODE_EMERGENCY
  }

  /** A service that has just been constructed. */
  function Constructed(store: Store): Service {
    Service(NORMAL_MODE, SUB_MODE_INVALID, LAST_MODE_FLAG, false, false, PolicyMaps(map[], map[], map[]), store, [])
  }

  ghost function InitPowerMode(d: Device, s: Service): Service {
    var s1 := Announce(s.(mode := SavedMode(s.store), subMode := SavedSubMode(s.store)));
    if !s1.store.recoverText.Container? then RunAction(UpdatePolicy(d, s1), false)
    else
      var s2 := s1.(maps := s1.maps.(recover := Read(d.platform, s1.maps.recover, s1.store.recoverText.members)));
      if d.resourceSchedule && s2.lastMode == LAST_MODE_FLAG && s2.mode == PERFORMANCE_MODE
      then RunAction(UpdatePolicy(d, s2), true) else s2
  }

  /** A restart of the service: only the settings survive. */
  ghost function Restart(d: Device, store: Store): Service { InitPowerMode(d, Constructed(store)) }

  /** Somebody else stores a new value of a setting, and the observer, if any, is told. */
  ghost function ManualChange(s: Service, id: uint32, value: int32): Service {
    var s1 := s.(store := s.store.(values := s.store.values[id := value]));
    if s.observing && Observed(id) then SettingUpdated(s1, id) else s1
  }

  /** The update function of an observer: another value than the mode's is the user's. */
  ghost function SettingUpdated(s: Service, id: uint32): Service {
    var switchVal := IntValue(s.maps.switches, id, INIT_VALUE_FALSE);
    if IntValue(s.store.values, id, switchVal) == switchVal || id !in s.maps.recover then s
    else
      var recover := s.maps.recover - {id};
      s.(maps := s.maps.(recover := recover), store := s.store.(recoverText := Container(Render(recover))))
  }

  /** The action of one setting, on values. */
  function RunOne(values: SwitchMap, switches: SwitchMap, isBoot: bool, id: uint32): SwitchMap {
    if (isBoot && id in values) || IntValue(switches, id, INIT_VALUE_FALSE) == INIT_VALUE_FALSE then values
    else values[id := switches[id]]
  }

  /** The actions of the settings in `ids`. */
  function RunSome(values: SwitchMap, switches: SwitchMap, isBoot: bool, ids: set<uint32>): SwitchMap {
    values + (map id | id in switches && id in ids && switches[id] != INIT_VALUE_FALSE && !(isBoot && id in values) ::
                switches[id])
  }

  lemma RunNext(values: SwitchMap, switches: SwitchMap, isBoot: bool, ids: set<uint32>, id: uint32)
    requires id !in ids
    ensures RunOne(RunSome(values, switches, isBoot, ids), switches, isBoot, id) ==
            RunSome(values, switches, isBoot, ids + {id})
  {
  }

  lemma ActionsAreIndependent(values: SwitchMap, switches: SwitchMap, isBoot: bool)
    ensures var v1 := RunOne(values, switches, isBoot, AUTO_ADJUST_BRIGHTNESS);
      var v2 := RunOne(v1, switches, isBoot, INTELL_VOICE);
      var v3 := RunOne(v2, switches, isBoot, AUTO_WINDOW_ROTATION);
      RunOne(v3, switches, isBoot, VIBRATORS_STATE) == RunActions(values, switches, isBoot)
  {
    var a, c, e := {AUTO_ADJUST_BRIGHTNESS}, {AUTO_ADJUST_BRIGHTNESS, INTELL_VOICE},
      {AUTO_ADJUST_BRIGHTNESS, INTELL_VOICE, AUTO_WINDOW_ROTATION};
    RunNothing(values, switches, isBoot);
    RunAll(values, switches, isBoot);
    hide RunOne, RunSome, RunActions;
    RunNext(values, switches, isBoot, {}, AUTO_ADJUST_BRIGHTNESS);
    assert {} + {AUTO_ADJUST_BRIGHTNESS} == a;
    RunNext(values, switches, isBoot, a, INTELL_VOICE);
    assert a + {INTELL_VOICE} == c;
    RunNext(values, switches, isBoot, c, AUTO_WINDOW_ROTATION);
    assert c + {AUTO_WINDOW_ROTATION} == e;
    RunNext(values, switches, isBoot, e, VIBRATORS_STATE);
    assert e + {VIBRATORS_STATE} == {AUTO_ADJUST_BRIGHTNESS, INTELL_VOICE, AUTO_WINDOW_ROTATION, VIBRATORS_STATE};
  }

  lemma RunNothing(values: SwitchMap, switches: SwitchMap, isBoot: bool)
    ensures RunSome(values, switches, isBoot, {}) == values
  {
  }

  lemma RunAll(values: SwitchMap, switches: SwitchMap, isBoot: bool)
    ensures RunSome(values, switches, isBoot,
                    {AUTO_ADJUST_BRIGHTNESS, INTELL_VOICE, AUTO_WINDOW_ROTATION, VIBRATORS_STATE}) ==
            RunActions(values, switches, isBoot)
  {
  }
}
