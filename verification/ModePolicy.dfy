/**
 * The policy of power modes: which settings a mode switches, and which values are kept so
 * that the settings can be recovered.
 */
module ModePolicy {
  import opened PowerTypes
  import opened RecoverJson

  const INIT_VALUE_FALSE: int32 := -2
  const RECOVER: int := 1

  const DISPLAY_OFFTIME: uint32 := 101
  const AUTO_ADJUST_BRIGHTNESS: uint32 := 103
  const INTELL_VOICE: uint32 := 105
  const AUTO_WINDOW_ROTATION: uint32 := 107
  const VIBRATORS_STATE: uint32 := 120

  /** The settings that an observer watches while a saving mode is on. */
  predicate Observed(id: uint32) {
    id == AUTO_ADJUST_BRIGHTNESS || id == INTELL_VOICE || id == AUTO_WINDOW_ROTATION || id == VIBRATORS_STATE
  }

  /** One line of a mode's configuration. */
  datatype SwitchPolicy = SwitchPolicy(id: uint32, value: int32, flag: int)

  /** The parsed configuration: the lines of each mode. */
  type Config = map<int, seq<SwitchPolicy>>

  function LinesOf(cache: Config, mode: int): seq<SwitchPolicy> { if mode in cache then cache[mode] else [] }

  /** What is stored in the settings: switch values by id, mode, sub-mode, and the saved recover map. */
  datatype Store = Store(values: SwitchMap, mode: Option<int32>, subMode: Option<int32>, recoverText: Json)

  datatype PolicyMaps = PolicyMaps(switches: SwitchMap, recover: SwitchMap, backup: SwitchMap)

  // ---------------------------------------------------------------------------------------
  // On values

  function IntValue(values: SwitchMap, id: uint32, defaultVal: int32): int32 {
    if id in values then values[id] else defaultVal
  }

  /** The stored value of a setting that can be recovered; none if it cannot, or is not valid. */
  function SettingOf(values: SwitchMap, id: uint32): Option<int32> {
    if (Observed(id) || id == DISPLAY_OFFTIME) && IntValue(values, id, INIT_VALUE_FALSE) != INIT_VALUE_FALSE
    then Some(values[id]) else None
  }

  function Switches(lines: seq<SwitchPolicy>): SwitchMap {
    if lines == [] then map[]
    else Switches(lines[..|lines| - 1])[lines[|lines| - 1].id := lines[|lines| - 1].value]
  }

  /** The entry that reading a setting leaves: an invalid setting leaves what was there, or a new zero. */
  function Backed(values: SwitchMap, backup: SwitchMap, id: uint32): SwitchMap {
    backup[id := if SettingOf(values, id).Some? then SettingOf(values, id).value else IntValue(backup, id, 0)]
  }

  function Backups(values: SwitchMap, lines: seq<SwitchPolicy>): SwitchMap {
    if lines == [] then map[]
    else
      var before := Backups(values, lines[..|lines| - 1]);
      if lines[|lines| - 1].flag == RECOVER then Backed(values, before, lines[|lines| - 1].id) else before
  }

  /** Without any configuration the maps of the previous mode stay. */
  function ReadPolicy(cache: Config, values: SwitchMap, p: PolicyMaps, mode: int): PolicyMaps {
    if cache == map[] then p
    else PolicyMaps(Switches(LinesOf(cache, mode)), p.recover, Backups(values, LinesOf(cache, mode)))
  }

  /** A value to recover goes on waiting if the mode switches the setting, and else is switched back to. */
  function Compare(p: PolicyMaps): PolicyMaps {
    var backup := p.backup + (map id | id in p.recover && id in p.switches :: p.recover[id]);
    PolicyMaps(p.recover + p.switches, backup, backup)
  }

  /** The backup map once the values to recover of the ids in `seen` have been looked at. */
  function BackedUp(p: PolicyMaps, seen: set<uint32>): SwitchMap {
    p.backup + (map id | id in p.recover && id in seen && id in p.switches :: p.recover[id])
  }

  /** Likewise the switch map. */
  function SwitchedBack(p: PolicyMaps, seen: set<uint32>): SwitchMap {
    (map id | id in p.recover && id in seen :: p.recover[id]) + p.switches
  }

  lemma CompareBegins(p: PolicyMaps)
    ensures BackedUp(p, {}) == p.backup && SwitchedBack(p, {}) == p.switches
  {
  }

  lemma BackupStep(p: PolicyMaps, seen: set<uint32>, id: uint32)
    requires id in p.recover
    ensures BackedUp(p, seen + {id}) ==
            if id in p.switches then BackedUp(p, seen)[id := p.recover[id]] else BackedUp(p, seen)
  {
  }

  lemma SwitchStep(p: PolicyMaps, seen: set<uint32>, id: uint32)
    requires id in p.recover && id !in seen
    ensures id in SwitchedBack(p, seen) <==> id in p.switches
    ensures SwitchedBack(p, seen + {id}) ==
            if id in p.switches then SwitchedBack(p, seen) else SwitchedBack(p, seen)[id := p.recover[id]]
  {
  }

  lemma CompareEnds(p: PolicyMaps)
    ensures Compare(p) ==
            PolicyMaps(SwitchedBack(p, p.recover.Keys), BackedUp(p, p.recover.Keys), BackedUp(p, p.recover.Keys))
  {
    assert SwitchedBack(p, p.recover.Keys) == p.recover + p.switches;
    assert BackedUp(p, p.recover.Keys) == Compare(p).backup;
  }

  function Update(cache: Config, values: SwitchMap, p: PolicyMaps, mode: int): PolicyMaps {
    Compare(ReadPolicy(cache, values, p, mode))
  }

  // ---------------------------------------------------------------------------------------
  // The objects

  /** The settings data base. */
  class Settings {
    var store: Store

    constructor (store: Store)
      ensures this.store == store
    {
      this.store := store;
    }

    method SetIntValue(id: uint32, value: int32)
      modifies this
      ensures store == old(store).(values := old(store.values)[id := value])
    {
      store := store.(values := store.values[id := value]);
    }

    method SaveMode(mode: int32)
      modifies this
      ensures store == old(store).(mode := Some(mode))
    {
      store := store.(mode := Some(mode));
    }

    method SaveSubMode(subMode: int32)
      modifies this
      ensures store == old(store).(subMode := Some(subMode))
    {
      store := store.(subMode := Some(subMode));
    }

    method SaveRecoverMap(json: Json)
      modifies this
      ensures store == old(store).(recoverText := json)
    {
      store := store.(recoverText := json);
    }
  }

  class PowerModePolicy {
    var switchMap: SwitchMap
    var recoverMap: SwitchMap
    var backupMap: SwitchMap
    const settings: Settings
    const cache: Config
    const platform: Platform

    ghost function Maps(): PolicyMaps
      reads this
    {
      PolicyMaps(switchMap, recoverMap, backupMap)
    }

    constructor (settings: Settings, cache: Config, platform: Platform)
      ensures Maps() == PolicyMaps(map[], map[], map[])
      ensures this.settings == settings && this.cache == cache && this.platform == platform
    {
      switchMap, recoverMap, backupMap := map[], map[], map[];
      this.settings, this.cache, this.platform := settings, cache, platform;
    }

    method GetPowerModeValuePolicy(id: uint32) returns (value: int32)
      ensures value == IntValue(switchMap, id, INIT_VALUE_FALSE)
    {
      value := INIT_VALUE_FALSE;
      if id in switchMap {
        value := switchMap[id];
      }
    }

    method UpdatePowerModePolicy(mode: int)
      modifies this, settings
      ensures Maps() == Update(cache, old(settings.store.values), old(Maps()), mode)
      ensures settings.store == old(settings.store).(recoverText := Container(Render(recoverMap)))
    {
      hide ReadPolicy, Compare;
      ReadPowerModePolicy(mode);
      ComparePowerModePolicy();
    }

    method ReadPowerModePolicy(mode: int)
      modifies this
      ensures Maps() == ReadPolicy(cache, settings.store.values, old(Maps()), mode)
      ensures cache == map[] ==> Maps() == old(Maps())
    {
      if cache == map[] {
        return;
      }
      switchMap := map[];
      backupMap := map[];
      var lines := LinesOf(cache, mode);
      for i := 0 to |lines|
        invariant switchMap == Switches(lines[..i])
        invariant backupMap == Backups(settings.store.values, lines[..i])
        invariant recoverMap == old(recoverMap)
      {
        assert lines[..i + 1][..i] == lines[..i];
        hide Backed;
        ReadLine(lines[i]);
      }
      assert lines[..|lines|] == lines;
    }

    method ReadLine(line: SwitchPolicy)
      modifies this`switchMap, this`backupMap
      ensures switchMap == old(switchMap)[line.id := line.value]
      ensures backupMap == if line.flag == RECOVER then Backed(settings.store.values, old(backupMap), line.id)
                           else old(backupMap)
    {
      hide SettingOf;
      switchMap := switchMap[line.id := line.value];
      if line.flag == RECOVER {
        backupMap := backupMap[line.id := IntValue(backupMap, line.id, 0)];
        var setting := GetSettingSwitchState(line.id);
        if setting.Some? {
          backupMap := backupMap[line.id := setting.value];
        }
      }
    }

    method GetSettingSwitchState(id: uint32) returns (value: Option<int32>)
      ensures value == SettingOf(settings.store.values, id)
      ensures value == if id in {101, 103, 105, 107, 120} && id in settings.store.values &&
                          settings.store.values[id] != -2
                       then Some(settings.store.values[id]) else None
    {
      var v := INIT_VALUE_FALSE;
      if Observed(id) || id == DISPLAY_OFFTIME {
        v := IntValue(settings.store.values, id, v);
      }
      value := if v == INIT_VALUE_FALSE then None else Some(v);
    }

    method ComparePowerModePolicy()
      modifies this, settings
      ensures Maps() == Compare(old(Maps()))
      ensures settings.store == old(settings.store).(recoverText := Container(Render(recoverMap)))
    {
      ghost var p := Maps();
      SwitchBackUnlisted();
      recoverMap := backupMap;
      assert Maps() == Compare(p);
      var json := RecoverJson.SavePowerModeRecoverMap(recoverMap);
      settings.SaveRecoverMap(json);
    }

    /** The loop over the values to recover. */
    method SwitchBackUnlisted()
      modifies this`switchMap, this`backupMap
      ensures switchMap == Compare(old(Maps())).switches && backupMap == Compare(old(Maps())).backup
    {
      hide BackedUp, SwitchedBack, Compare;
      ghost var p := Maps();
      ghost var seen: set<uint32> := {};
      var rest := recoverMap;
      CompareBegins(p);
      while rest != map[]
        invariant rest.Keys !! seen && seen + rest.Keys == p.recover.Keys
        invariant forall k :: k in rest ==> rest[k] == p.recover[k]
        invariant backupMap == BackedUp(p, seen) && switchMap == SwitchedBack(p, seen)
        decreases rest.Keys
      {
        assert rest.Keys != {};
        var id :| id in rest;
        BackupStep(p, seen, id);
        SwitchStep(p, seen, id);
        if id in switchMap {
          backupMap := backupMap[id := rest[id]];
        } else {
          switchMap := switchMap[id := rest[id]];
        }
        rest := rest - {id};
        seen := seen + {id};
      }
      assert seen == p.recover.Keys;
      CompareEnds(p);
    }

    /** The user has changed the setting: there is nothing to recover any more. */
    method RemoveBackupMapSettingSwitch(id: uint32)
      modifies this`recoverMap, settings
      ensures recoverMap == old(recoverMap) - {id}
      ensures settings.store == if id in old(recoverMap)
                                then old(settings.store).(recoverText := Container(Render(recoverMap)))
                                else old(settings.store)
    {
      if id in recoverMap {
        recoverMap := recoverMap - {id};
        var json := RecoverJson.SavePowerModeRecoverMap(recoverMap);
        settings.SaveRecoverMap(json);
      }
    }

    method InitRecoverMap() returns (ok: bool)
      modifies this`recoverMap
      ensures ok <==> settings.store.recoverText.Container?
      ensures recoverMap == if ok then Read(platform, old(recoverMap), settings.store.recoverText.members)
                            else old(recoverMap)
    {
      recoverMap, ok := ParseRecoverJson(platform, recoverMap, settings.store.recoverText);
    }
  }

  // ---------------------------------------------------------------------------------------
  // Laws

  predicate Listed(lines: seq<SwitchPolicy>, id: uint32) { exists i :: 0 <= i < |lines| && lines[i].id == id }

  predicate Flagged(lines: seq<SwitchPolicy>, id: uint32) {
    exists i :: 0 <= i < |lines| && lines[i].id == id && lines[i].flag == RECOVER
  }

  lemma {:induction false} SwitchesAreListed(lines: seq<SwitchPolicy>, id: uint32)
    ensures id in Switches(lines) <==> Listed(lines, id)
    decreases |lines|
  {
    if lines != [] {
      var init := lines[..|lines| - 1];
      SwitchesAreListed(init, id);
      assert lines == init + [lines[|lines| - 1]];
    }
  }

  /** A mode backs up exactly the settings that it flags, with the stored value where that is valid. */
  lemma {:induction false} BackupsAreFlagged(values: SwitchMap, lines: seq<SwitchPolicy>, id: uint32)
    ensures id in Backups(values, lines) <==> Flagged(lines, id)
    ensures id in Backups(values, lines) ==>
              Backups(values, lines)[id] == if SettingOf(values, id).Some? then SettingOf(values, id).value else 0
    decreases |lines|
  {
    hide SettingOf;
    if lines != [] {
      var init := lines[..|lines| - 1];
      BackupsAreFlagged(values, init, id);
      assert lines == init + [lines[|lines| - 1]];
    }
  }

  /**
   * Updating the policy for the same mode again changes nothing in the map of values to
   * recover, whatever has become of the settings in the meantime.
   */
  lemma UpdateIsIdempotentOnRecover(cache: Config, values: SwitchMap, later: SwitchMap, p: PolicyMaps, mode: int)
    ensures var once := Update(cache, values, p, mode);
      Update(cache, later, once, mode).recover == once.recover
  {
    hide Switches, Backups, SettingOf;
    var lines := LinesOf(cache, mode);
    var once := Update(cache, values, p, mode).recover;
    var twice := Update(cache, later, Update(cache, values, p, mode), mode).recover;
    forall id: uint32
      ensures (id in once <==> id in twice) && (id in once ==> once[id] == twice[id])
    {
      SwitchesAreListed(lines, id);
      BackupsAreFlagged(values, lines, id);
      BackupsAreFlagged(later, lines, id);
    }
  }
}
