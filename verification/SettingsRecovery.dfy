/**
 * The user's settings over runs of mode switches, restarts, and changes made by hand: one
 * observed setting `id`, and the value `user` that its user last chose. Nothing is assumed of
 * the configuration.
 */
module SettingsRecovery {
  import opened PowerTypes
  import opened RecoverJson
  import opened ModePolicy
  import opened PowerMode
  import opened ModeRuns

  predicate ValidSetting(values: SwitchMap, id: uint32) { id in values && values[id] != INIT_VALUE_FALSE }

  function Lookup(m: SwitchMap, id: uint32): Option<int32> { if id in m then Some(m[id]) else None }

  /** The user's value waits to be recovered, or is stored. */
  predicate Kept(values: SwitchMap, recover: SwitchMap, id: uint32, user: int32) {
    if id in recover then recover[id] == user else Lookup(values, id) == Some(user)
  }

  predicate HasValue(s: Service, id: uint32, user: int32) { Kept(s.store.values, s.maps.recover, id, user) }

  /** The value to recover that a restart would read. */
  function SavedToRecover(p: Platform, text: Json, id: uint32): Option<int32> {
    if text.Container? then Lookup(Read(p, map[], text.members), id) else None
  }

  // ---------------------------------------------------------------------------------------
  // What one switch does to one setting

  /**
   * Does a switch keep the user's value? `q` holds the mode's switches and backups as they
   * have been read, and what waits to be recovered.
   */
  predicate Spared(q: PolicyMaps, values: SwitchMap, id: uint32, user: int32, isBoot: bool) {
    if id in q.recover && id in q.switches then true
    else if id in q.backup then q.backup[id] == user
    else if isBoot then id !in q.recover || Lookup(values, id) == Some(user)
    else id in q.recover || IntValue(q.switches, id, INIT_VALUE_FALSE) in {INIT_VALUE_FALSE, user}
  }

  lemma ActionsOnOne(values: SwitchMap, switches: SwitchMap, isBoot: bool, id: uint32)
    requires Observed(id)
    ensures Lookup(RunActions(values, switches, isBoot), id) ==
            if Writes(values, switches, isBoot, id) then Some(switches[id]) else Lookup(values, id)
  {
  }

  /** Comparing, and running the actions, keep the user's value iff it is spared. */
  lemma SparedIsKept(q: PolicyMaps, values: SwitchMap, id: uint32, user: int32, isBoot: bool)
    requires Observed(id) && ValidSetting(values, id) && user != INIT_VALUE_FALSE && Kept(values, q.recover, id, user)
    ensures var n := Compare(q);
      Kept(RunActions(values, n.switches, isBoot), n.recover, id, user) <==> Spared(q, values, id, user, isBoot)
  {
    hide RunActions, Observed;
    ActionsOnOne(values, Compare(q).switches, isBoot, id);
  }

  predicate Lists(d: Device, mode: int, id: uint32) { Listed(LinesOf(d.cache, mode), id) }

  predicate Flags(d: Device, mode: int, id: uint32) { Flagged(LinesOf(d.cache, mode), id) }

  /** The value to which a mode switches a setting, if any. */
  function ModeValue(d: Device, mode: int, id: uint32): int32 {
    IntValue(Switches(LinesOf(d.cache, mode)), id, INIT_VALUE_FALSE)
  }

  /**
   * With a configuration, whether a switch keeps the user's value can be seen beforehand from
   * the lines of the mode: unless nothing waits to be recovered, and the mode switches the
   * setting to another value without flagging it.
   */
  lemma SparedByConfiguration(
    d: Device, values: SwitchMap, p: PolicyMaps, mode: int, id: uint32, user: int32, isBoot: bool)
    requires d.cache != map[] && Observed(id) && ValidSetting(values, id) && Kept(values, p.recover, id, user)
    ensures Spared(ReadPolicy(d.cache, values, p, mode), values, id, user, isBoot) <==>
            if isBoot then id !in p.recover || Lists(d, mode, id) || values[id] == user
            else id in p.recover || Flags(d, mode, id) || !Lists(d, mode, id) ||
                 ModeValue(d, mode, id) in {INIT_VALUE_FALSE, user}
    ensures id in ReadPolicy(d.cache, values, p, mode).switches <==> Lists(d, mode, id)
  {
    hide Switches, Backups, LinesOf, Listed, Flagged;
    SwitchesAreListed(LinesOf(d.cache, mode), id);
    BackupsAreFlagged(values, LinesOf(d.cache, mode), id);
    FlaggedIsListed(LinesOf(d.cache, mode), id);
  }

  lemma FlaggedIsListed(lines: seq<SwitchPolicy>, id: uint32)
    ensures Flagged(lines, id) ==> Listed(lines, id)
  {
  }

  /** What is written is read back for an observed setting. */
  lemma SavedIsRead(p: Platform, m: SwitchMap, id: uint32)
    requires Observed(id)
    ensures SavedToRecover(p, Container(Render(m)), id) == Lookup(m, id)
  {
    hide Read, Render;
    RecoverMapRoundTrip(p, m);
  }

  // ---------------------------------------------------------------------------------------
  // What always holds

  /** The mode's switches and backups, read in the service's present state. */
  function Choices(d: Device, s: Service, mode: uint32): PolicyMaps {
    ReadPolicy(d.cache, s.store.values, s.maps, mode)
  }

  /** The stored value is the mode's, unless the mode leaves the setting alone. */
  predicate SwitchedByMode(s: Service, id: uint32) {
    && id in s.maps.switches
    && (s.maps.switches[id] == INIT_VALUE_FALSE || Lookup(s.store.values, id) == Some(s.maps.switches[id]))
  }

  /** Between calls, whatever becomes of the user's value: what is saved is what is in memory. */
  ghost predicate Sound(d: Device, s: Service, id: uint32) {
    && !s.started && SavedMode(s.store) == s.mode && s.store.recoverText.Container?
    && ValidSetting(s.store.values, id)
    && SavedToRecover(d.platform, s.store.recoverText, id) == Lookup(s.maps.recover, id)
    && (id in s.maps.backup ==> id in s.maps.switches)
    && (s.observing && id in s.maps.recover ==> SwitchedByMode(s, id))
  }

  /** What an update and its actions make of one setting, in any configuration. */
  lemma Switch(d: Device, s: Service, id: uint32, isBoot: bool)
    requires Observed(id) && ValidSetting(s.store.values, id) && (id in s.maps.backup ==> id in s.maps.switches)
    ensures var n := RunAction(UpdatePolicy(d, s), isBoot);
      var q := Choices(d, s, s.mode);
      && ValidSetting(n.store.values, id)
      && n.store.recoverText.Container?
      && SavedToRecover(d.platform, n.store.recoverText, id) == Lookup(n.maps.recover, id)
      && (id in n.maps.backup ==> id in n.maps.switches) && (id in n.maps.recover ==> id in q.switches)
      && (!isBoot && id in n.maps.recover ==> SwitchedByMode(n, id))
      && n.maps == Compare(q) && n.store.values == RunActions(s.store.values, n.maps.switches, isBoot)
      && n.mode == s.mode && n.started == s.started && n.observing == s.observing
      && n.store.mode == s.store.mode && n.store.subMode == s.store.subMode
  {
    hide ReadPolicy, RunActions, Render, SavedToRecover, Observed;
    var q := Choices(d, s, s.mode);
    assert id in q.backup ==> id in q.switches by { BackupsAreSwitched(d, s.store.values, s.maps, s.mode, id); }
    ActionsOnOne(s.store.values, Compare(q).switches, isBoot, id);
    SavedIsRead(d.platform, Compare(q).recover, id);
  }

  lemma BackupsAreSwitched(d: Device, values: SwitchMap, p: PolicyMaps, mode: int, id: uint32)
    requires id in p.backup ==> id in p.switches
    ensures var q := ReadPolicy(d.cache, values, p, mode); id in q.backup ==> id in q.switches
  {
    hide Switches, Backups, Listed, Flagged;
    SwitchesAreListed(LinesOf(d.cache, mode), id);
    BackupsAreFlagged(values, LinesOf(d.cache, mode), id);
    FlaggedIsListed(LinesOf(d.cache, mode), id);
  }

  lemma AnnouncingAside(s: Service, isBoot: bool)
    ensures var n := RunAction(Announce(s), isBoot);
      n.(announced := []) == RunAction(s, isBoot).(announced := [])
  {
    hide RunActions;
  }

  // ---------------------------------------------------------------------------------------
  // Mode switches

  predicate ModeChanges(s: Service, mode: uint32) { s.mode != mode && IsMode(mode) && CanTransitTo(s.mode, mode) }

  /** The service when `SetModeItem` updates the policy. */
  function Entering(s: Service, mode: uint32): Service {
    LeaveSubMode(s.(observing := false), mode).(mode := mode, started := true)
  }

  lemma ModeChangeSteps(d: Device, s: Service, mode: uint32)
    requires !s.started && ModeChanges(s, mode)
    ensures var n := SetModeItem(d, s, mode).s;
      var r := RunAction(UpdatePolicy(d, Entering(s, mode)), false);
      && n.mode == mode && !n.started && SavedMode(n.store) == mode
      && n.maps == r.maps && n.store.values == r.store.values && n.store.recoverText == r.store.recoverText
      && Choices(d, Entering(s, mode), mode) == Choices(d, s, mode)
      && Entering(s, mode).mode == mode && Entering(s, mode).store.values == s.store.values && Entering(s, mode).maps == s.maps
  {
    hide Update, RunActions, Render, ReadPolicy;
    var s1 := Entering(s, mode);
    AnnouncingAside(UpdatePolicy(d, s1), false);
    WrapIsInverse(mode);
  }

  /**
   * A change to another mode keeps the user's value iff it is spared. Afterwards the mode's
   * value is stored if the mode has one, and the value that waited, or else the old one, if
   * the mode does not switch the setting.
   */
  lemma ModeChangeKeeps(d: Device, s: Service, mode: uint32, id: uint32, user: int32)
    requires Observed(id) && Sound(d, s, id) && HasValue(s, id, user) && user != INIT_VALUE_FALSE && ModeChanges(s, mode)
    ensures var q := Choices(d, s, mode);
      var n := SetModeItem(d, s, mode).s;
      && n.mode == mode && Sound(d, n, id)
      && (HasValue(n, id, user) <==> Spared(q, s.store.values, id, user, false))
      && Lookup(n.maps.recover, id) == Lookup(Compare(q).recover, id)
      && Lookup(n.maps.switches, id) == Lookup(Compare(q).switches, id)
      && Lookup(n.store.values, id) ==
         (if IntValue(q.switches, id, INIT_VALUE_FALSE) != INIT_VALUE_FALSE then Some(q.switches[id])
          else if id !in q.switches then Some(user) else Lookup(s.store.values, id))
  {
    hide SavedToRecover, SetModeItem, UpdatePolicy, RunAction, ReadPolicy, SavedMode, ModeChanges, Entering;
    ModeChangeSteps(d, s, mode);
    var q := Choices(d, s, mode);
    ChoicesRecover(d, s, mode);
    Switch(d, Entering(s, mode), id, false);
    SparedIsKept(q, s.store.values, id, user, false);
    ActionsOnOne(s.store.values, Compare(q).switches, false, id);
    hide RunActions, Spared;
  }

  lemma ChoicesRecover(d: Device, s: Service, mode: uint32)
    ensures Choices(d, s, mode).recover == s.maps.recover
  {
  }

  /** Whether a call that asks for a mode keeps the user's value. */
  predicate CallSpares(d: Device, s: Service, mode: uint32, id: uint32, user: int32) {
    !ModeChanges(s, mode) || Spared(Choices(d, s, mode), s.store.values, id, user, false)
  }

  lemma CallKeeps(d: Device, s: Service, mode: uint32, id: uint32, user: int32)
    requires Observed(id) && Sound(d, s, id) && HasValue(s, id, user) && user != INIT_VALUE_FALSE
    ensures var n := SetModeItem(d, s, mode).s;
      Sound(d, n, id) && (HasValue(n, id, user) <==> CallSpares(d, s, mode, id, user))
  {
    hide Sound, Spared, Choices, HasValue;
    if ModeChanges(s, mode) {
      ModeChangeKeeps(d, s, mode, id, user);
      hide SetModeItem;
    }
  }

  /** A sub-mode has no part in it. */
  lemma SubModeIrrelevant(d: Device, s: Service, n: Service, id: uint32)
    requires Sound(d, s, id)
    requires n.mode == s.mode && n.started == s.started && n.observing == s.observing && n.maps == s.maps
    requires n.store == s.store.(subMode := n.store.subMode)
    ensures Sound(d, n, id)
  {
    hide SavedToRecover;
  }

  lemma SubModeCallKeeps(d: Device, s: Service, mode: uint32, subMode: int32, id: uint32, user: int32)
    requires Observed(id) && Sound(d, s, id) && HasValue(s, id, user) && user != INIT_VALUE_FALSE
    ensures var n := SetModeAndSubModeItem(d, s, mode, subMode).s;
      Sound(d, n, id) && (HasValue(n, id, user) <==> !IsSubMode(subMode) || CallSpares(d, s, mode, id, user))
  {
    hide SetModeItem, Sound, CallSpares;
    if IsSubMode(subMode) {
      CallKeeps(d, s, mode, id, user);
      SubModeIrrelevant(d, SetModeItem(d, s, mode).s, SetModeAndSubModeItem(d, s, mode, subMode).s, id);
    }
  }

  // ---------------------------------------------------------------------------------------
  // Changes by hand

  /** What a changed setting does, with or without an observer. */
  lemma ManualChangeSides(s: Service, id: uint32, value: int32)
    ensures var n := ManualChange(s, id, value);
      && n.mode == s.mode && n.started == s.started && n.observing == s.observing
      && SavedMode(n.store) == SavedMode(s.store)
      && n.maps.switches == s.maps.switches && n.maps.backup == s.maps.backup
      && n.store.values == s.store.values[id := value]
      && (if s.observing && Observed(id) && id in s.maps.recover &&
             value != IntValue(s.maps.switches, id, INIT_VALUE_FALSE)
          then n.maps.recover == s.maps.recover - {id} && n.store.recoverText == Container(Render(n.maps.recover))
          else n.maps.recover == s.maps.recover && n.store.recoverText == s.store.recoverText)
  {
    hide Render;
  }

  /** Does a change by hand make the new value the user's? */
  predicate ChangeSpares(s: Service, id: uint32, user: int32, value: int32) {
    || id !in s.maps.recover || value == user
    || (s.observing && value != IntValue(s.maps.switches, id, INIT_VALUE_FALSE))
  }

  lemma ChangeKeeps(d: Device, s: Service, id: uint32, user: int32, value: int32)
    requires Observed(id) && Sound(d, s, id) && HasValue(s, id, user) && value != INIT_VALUE_FALSE
    ensures var n := ManualChange(s, id, value);
      Sound(d, n, id) && (HasValue(n, id, value) <==> ChangeSpares(s, id, user, value))
  {
    hide Render, SavedToRecover, ManualChange, SavedMode, Observed;
    SavedIsRead(d.platform, s.maps.recover - {id}, id);
    ManualChangeSides(s, id, value);
  }

  /**
   * A setting that is really changed belongs to the user from then on, iff it is watched, or
   * nothing was waiting to be recovered, or the user has chosen what was waiting.
   */
  lemma ManualChangeIsKept(d: Device, s: Service, id: uint32, user: int32, value: int32)
    requires Observed(id) && Sound(d, s, id) && HasValue(s, id, user)
    requires value != INIT_VALUE_FALSE && value != s.store.values[id]
    ensures HasValue(ManualChange(s, id, value), id, value) <==>
            s.observing || id !in s.maps.recover || value == user
  {
    hide SavedToRecover, ManualChange, SavedMode, Observed, HasValue;
    ChangeKeeps(d, s, id, user, value);
  }

  /** Changing another setting does not matter. */
  lemma OtherChangeKeeps(d: Device, s: Service, other: uint32, value: int32, id: uint32, user: int32)
    requires Observed(id) && Sound(d, s, id) && other != id
    ensures var n := ManualChange(s, other, value);
      Sound(d, n, id) && (HasValue(n, id, user) <==> HasValue(s, id, user))
  {
    hide Render, SavedToRecover, ManualChange, SavedMode, Observed;
    SavedIsRead(d.platform, s.maps.recover - {other}, id);
    ManualChangeSides(s, other, value);
  }

  /**
   * A change that is not watched, while a value waits to be recovered, is undone: as soon as a
   * mode is entered that does not switch the setting, the value of before is stored again.
   */
  lemma UnwatchedChangeIsUndone(d: Device, s: Service, id: uint32, user: int32, value: int32, mode: uint32)
    requires Observed(id) && Sound(d, s, id) && HasValue(s, id, user) && user != INIT_VALUE_FALSE
    requires value != INIT_VALUE_FALSE && !s.observing && id in s.maps.recover
    requires ModeChanges(s, mode) && d.cache != map[] && !Lists(d, mode, id)
    ensures Lookup(SetModeItem(d, ManualChange(s, id, value), mode).s.store.values, id) == Some(user)
  {
    hide SavedToRecover, ManualChange, SavedMode, Observed, SetModeItem, Lists, IsMode, CanTransitTo, Choices, Spared;
    ChangeKeeps(d, s, id, user, value);
    ManualChangeSides(s, id, value);
    var n := ManualChange(s, id, value);
    ModeChangeKeeps(d, n, mode, id, user);
    assert id !in Choices(d, n, mode).switches by { UnlistedIsUnswitched(d, n, mode, id); }
    hide Sound;
  }

  lemma UnlistedIsUnswitched(d: Device, s: Service, mode: uint32, id: uint32)
    requires d.cache != map[]
    ensures id in Choices(d, s, mode).switches <==> Lists(d, mode, id)
  {
    hide Switches, Backups;
    SwitchesAreListed(LinesOf(d.cache, mode), id);
  }

  // ---------------------------------------------------------------------------------------
  // Restarts

  /** The user's value is saved to be recovered, or is stored. */
  predicate StoreHasValue(d: Device, store: Store, id: uint32, user: int32) {
    var saved := SavedToRecover(d.platform, store.recoverText, id);
    if saved.Some? then saved.value == user else Lookup(store.values, id) == Some(user)
  }

  /** The service's state when it has read what was saved, before it switches anything. */
  function Loaded(d: Device, store: Store): Service {
    var s := Announce(Constructed(store).(mode := SavedMode(store), subMode := SavedSubMode(store)));
    if store.recoverText.Container?
    then s.(maps := s.maps.(recover := Read(d.platform, map[], store.recoverText.members))) else s
  }

  /** Does a restart switch the mode's settings: always if there is no saved map, else in one case. */
  predicate SwitchesOnStart(d: Device, store: Store) {
    !store.recoverText.Container? || (d.resourceSchedule && SavedMode(store) == PERFORMANCE_MODE)
  }

  predicate StartSpares(d: Device, store: Store, id: uint32, user: int32) {
    var l := Loaded(d, store);
    SwitchesOnStart(d, store) ==>
      Spared(Choices(d, l, l.mode), store.values, id, user, store.recoverText.Container?)
  }

  lemma LoadedHas(d: Device, store: Store, id: uint32)
    ensures var l := Loaded(d, store);
      && l.store == store && l.mode == SavedMode(store) && !l.started && !l.observing
      && Lookup(l.maps.recover, id) == SavedToRecover(d.platform, store.recoverText, id)
      && l.maps.backup == map[] && Choices(d, l, l.mode).recover == l.maps.recover
  {
    hide Read, SavedMode, SavedSubMode;
  }

  lemma RestartSwitchesOrNot(d: Device, store: Store)
    ensures var l := Loaded(d, store);
      Restart(d, store) ==
      if SwitchesOnStart(d, store) then RunAction(UpdatePolicy(d, l), store.recoverText.Container?) else l
  {
    hide Read, UpdatePolicy, RunAction, SavedMode, SavedSubMode;
  }

  /** A restart keeps the user's value iff it is spared, whether or not the mode is switched on anew. */
  lemma RestartKeeps(d: Device, store: Store, id: uint32, user: int32)
    requires Observed(id) && ValidSetting(store.values, id) && StoreHasValue(d, store, id, user) && user != INIT_VALUE_FALSE
    ensures Sound(d, Restart(d, store), id)
    ensures HasValue(Restart(d, store), id, user) <==> StartSpares(d, store, id, user)
    ensures var n := Restart(d, store);
      && n.mode == SavedMode(store) && !n.observing
      && (if SwitchesOnStart(d, store) then id in n.maps.recover ==> id in Choices(d, Loaded(d, store), n.mode).switches
          else n.store == store && Lookup(n.maps.recover, id) == SavedToRecover(d.platform, store.recoverText, id))
  {
    hide Loaded, Restart, UpdatePolicy, RunAction, Choices, SavedToRecover, Observed;
    var l := Loaded(d, store);
    LoadedHas(d, store, id);
    RestartSwitchesOrNot(d, store);
    if SwitchesOnStart(d, store) {
      Switch(d, l, id, store.recoverText.Container?);
      SparedIsKept(Choices(d, l, l.mode), store.values, id, user, store.recoverText.Container?);
      hide RunActions, Compare, Spared;
    }
  }

  // ---------------------------------------------------------------------------------------
  // Runs

  /** Does an event keep the value that is the user's after it? Everything here can be seen before the event. */
  predicate Spares(d: Device, s: Service, e: Event, id: uint32, user: int32) {
    match e
    case SetMode(mode, denied) => (IsSaveMode(mode) && denied) || CallSpares(d, s, mode, id, user)
    case SetModeAndSubMode(mode, subMode, denied) =>
      || mode != EXTREME_POWER_SAVE_MODE || denied || subMode == SUB_MODE_INVALID || !IsSubMode(subMode)
      || CallSpares(d, s, mode, id, user)
    case Change(i, value) => i != id || ChangeSpares(s, id, user, value)
    case RestartService => StartSpares(d, s.store, id, user)
  }

  function UserAfter(e: Event, id: uint32, user: int32): int32 { if e.Change? && e.id == id then e.value else user }

  /** Settings are given valid values. */
  predicate ValidChange(e: Event, id: uint32) { e.Change? && e.id == id ==> e.value != INIT_VALUE_FALSE }

  lemma EventKeeps(d: Device, s: Service, e: Event, id: uint32, user: int32)
    requires Observed(id) && Sound(d, s, id) && HasValue(s, id, user) && user != INIT_VALUE_FALSE && ValidChange(e, id)
    ensures var n := Happens(d, s, e);
      Sound(d, n, id) && (HasValue(n, id, UserAfter(e, id, user)) <==> Spares(d, s, e, id, user))
  {
    match e
    case SetMode(mode, denied) =>
      hide Sound, HasValue, SetModeItem, SetModeAndSubModeItem, CallSpares;
      if mode == EXTREME_POWER_SAVE_MODE {
        SubModeCallKeeps(d, s, mode, SUB_MODE_EMERGENCY, id, user);
      } else {
        CallKeeps(d, s, mode, id, user);
      }
    case SetModeAndSubMode(mode, subMode, denied) =>
      hide Sound, HasValue, SetModeAndSubModeItem, CallSpares, IsSubMode;
      SubModeCallKeeps(d, s, mode, subMode, id, user);
    case Change(i, value) =>
      hide Sound, HasValue, ManualChange, ChangeSpares;
      if i == id {
        ChangeKeeps(d, s, id, user, value);
      } else {
        OtherChangeKeeps(d, s, i, value, id, user);
      }
    case RestartService =>
      hide SavedToRecover, Restart, StartSpares;
      RestartKeeps(d, s.store, id, user);
  }

  /** The user's value of the moment waits or is stored, now and after every event. */
  ghost predicate KeptThroughout(d: Device, s: Service, es: seq<Event>, id: uint32, user: int32)
    decreases |es|
  {
    && HasValue(s, id, user)
    && (es != [] ==> KeptThroughout(d, Happens(d, s, es[0]), es[1..], id, UserAfter(es[0], id, user)))
  }

  /** Every event of the run spares the user's value of its moment. */
  ghost predicate SparedThroughout(d: Device, s: Service, es: seq<Event>, id: uint32, user: int32)
    decreases |es|
  {
    es != [] ==>
      && Spares(d, s, es[0], id, user)
      && SparedThroughout(d, Happens(d, s, es[0]), es[1..], id, UserAfter(es[0], id, user))
  }

  function UserAfterRun(es: seq<Event>, id: uint32, user: int32): int32
    decreases |es|
  {
    if es == [] then user else UserAfterRun(es[1..], id, UserAfter(es[0], id, user))
  }

  lemma {:induction false} RunKeeps(d: Device, s: Service, es: seq<Event>, id: uint32, user: int32)
    requires Observed(id) && Sound(d, s, id) && HasValue(s, id, user) && user != INIT_VALUE_FALSE
    requires forall e :: e in es ==> ValidChange(e, id)
    ensures KeptThroughout(d, s, es, id, user) <==> SparedThroughout(d, s, es, id, user)
    ensures Sound(d, Run(d, s, es), id) || !SparedThroughout(d, s, es, id, user)
    ensures SparedThroughout(d, s, es, id, user) ==>
              HasValue(Run(d, s, es), id, UserAfterRun(es, id, user)) && UserAfterRun(es, id, user) != INIT_VALUE_FALSE
    decreases |es|
  {
    hide Sound, HasValue, Happens, Spares, Observed;
    if es != [] {
      assert es[0] in es;
      var n, next := Happens(d, s, es[0]), UserAfter(es[0], id, user);
      EventKeeps(d, s, es[0], id, user);
      if HasValue(n, id, next) {
        RunKeeps(d, n, es[1..], id, next);
      } else {
        assert !KeptThroughout(d, n, es[1..], id, next);
      }
    }
  }

  /**
   * Settings recovery, in any configuration. The service starts from settings in which the
   * user's value is stored or saved to be recovered, and then modes are switched, the service
   * restarts, and settings change by hand. The user's latest value waits to be recovered or is
   * stored all the time, iff the start and every event spare it; and then a switch to another
   * mode that does not switch the setting stores it.
   */
  lemma SettingsAreRecovered(d: Device, store: Store, es: seq<Event>, id: uint32, user: int32, mode: uint32)
    requires id in {103, 105, 107, 120}
    requires ValidSetting(store.values, id) && StoreHasValue(d, store, id, user) && user != INIT_VALUE_FALSE
    requires forall e :: e in es ==> ValidChange(e, id)
    ensures var s := Restart(d, store);
      KeptThroughout(d, s, es, id, user) <==> StartSpares(d, store, id, user) && SparedThroughout(d, s, es, id, user)
    ensures var s := Run(d, Restart(d, store), es);
      KeptThroughout(d, Restart(d, store), es, id, user) && ModeChanges(s, mode) && id !in Choices(d, s, mode).switches ==>
        Lookup(SetModeItem(d, s, mode).s.store.values, id) == Some(UserAfterRun(es, id, user))
  {
    assert Observed(id);
    hide Sound, Happens, Spares, Observed, Restart, SetModeItem, Choices, ModeChanges, StartSpares, HasValue, Spared;
    RestartKeeps(d, store, id, user);
    var s := Restart(d, store);
    if StartSpares(d, store, id, user) {
      RunKeeps(d, s, es, id, user);
      var n := Run(d, s, es);
      if SparedThroughout(d, s, es, id, user) && ModeChanges(n, mode) && id !in Choices(d, n, mode).switches {
        ModeChangeKeeps(d, n, mode, id, UserAfterRun(es, id, user));
      }
    }
  }

  // ---------------------------------------------------------------------------------------
  // Configurations that flag the setting

  /** Every mode that lists the setting flags it recoverable. */
  ghost predicate Recoverable(d: Device, id: uint32) {
    d.cache != map[] && Observed(id) && forall mode :: Lists(d, mode, id) ==> Flags(d, mode, id)
  }

  /** What waits to be recovered is listed by the mode. */
  predicate WaitsForMode(d: Device, s: Service, id: uint32) { id in s.maps.recover ==> Lists(d, s.mode, id) }

  /** The setting changes by hand only while it is watched, or while nothing waits to be recovered. */
  predicate WatchedChange(s: Service, e: Event, id: uint32) {
    e.Change? && e.id == id ==> Lookup(s.store.values, id) != Some(e.value) && (s.observing || id !in s.maps.recover)
  }

  lemma FlaggedCallSpares(d: Device, s: Service, mode: uint32, id: uint32, user: int32)
    requires Recoverable(d, id) && Sound(d, s, id) && HasValue(s, id, user) && user != INIT_VALUE_FALSE
    requires WaitsForMode(d, s, id)
    ensures CallSpares(d, s, mode, id, user) && WaitsForMode(d, SetModeItem(d, s, mode).s, id)
  {
    hide Lists, Flags, Spared, SavedToRecover, ReadPolicy;
    SparedByConfiguration(d, s.store.values, s.maps, mode, id, user, false);
    if ModeChanges(s, mode) {
      ModeChangeKeeps(d, s, mode, id, user);
      BackupsAreSwitched(d, s.store.values, s.maps, mode, id);
      hide SetModeItem;
    }
  }

  lemma FlaggedRestartSpares(d: Device, s: Service, id: uint32, user: int32)
    requires Recoverable(d, id) && Sound(d, s, id) && HasValue(s, id, user) && user != INIT_VALUE_FALSE
    requires WaitsForMode(d, s, id)
    ensures StartSpares(d, s.store, id, user) && WaitsForMode(d, Restart(d, s.store), id)
  {
    hide Lists, Flags, Spared, SavedToRecover, ReadPolicy, Restart, Loaded;
    LoadedHas(d, s.store, id);
    var l := Loaded(d, s.store);
    SparedByConfiguration(d, s.store.values, l.maps, l.mode, id, user, true);
    RestartKeeps(d, s.store, id, user);
  }

  lemma FlaggedEventSpares(d: Device, s: Service, e: Event, id: uint32, user: int32)
    requires Recoverable(d, id) && Sound(d, s, id) && HasValue(s, id, user) && user != INIT_VALUE_FALSE
    requires WaitsForMode(d, s, id) && WatchedChange(s, e, id) && ValidChange(e, id)
    ensures Spares(d, s, e, id, user) && WaitsForMode(d, Happens(d, s, e), id)
  {
    match e
    case SetMode(mode, denied) =>
      hide SetModeItem, CallSpares, Sound, Recoverable;
      FlaggedCallSpares(d, s, mode, id, user);
    case SetModeAndSubMode(mode, subMode, denied) =>
      hide SetModeItem, CallSpares, Sound, Recoverable;
      FlaggedCallSpares(d, s, mode, id, user);
    case Change(i, value) =>
      hide ManualChange, SavedToRecover, Lists, Flags;
      ManualChangeSides(s, i, value);
    case RestartService =>
      hide Restart, StartSpares, Sound, Recoverable;
      FlaggedRestartSpares(d, s, id, user);
  }

  ghost predicate WatchedThroughout(d: Device, s: Service, es: seq<Event>, id: uint32)
    decreases |es|
  {
    es != [] ==> WatchedChange(s, es[0], id) && WatchedThroughout(d, Happens(d, s, es[0]), es[1..], id)
  }

  /**
   * If every mode that lists the setting flags it, then mode switches and restarts spare the
   * user's value on every run, and so do changes by hand while the setting is watched.
   */
  lemma {:induction false} FlaggedSettingsAreSpared(d: Device, s: Service, es: seq<Event>, id: uint32, user: int32)
    requires Recoverable(d, id) && Sound(d, s, id) && HasValue(s, id, user) && user != INIT_VALUE_FALSE
    requires WaitsForMode(d, s, id) && WatchedThroughout(d, s, es, id) && forall e :: e in es ==> ValidChange(e, id)
    ensures SparedThroughout(d, s, es, id, user) && HasValue(Run(d, s, es), id, UserAfterRun(es, id, user))
    decreases |es|
  {
    hide Sound, HasValue, Happens, Spares, WaitsForMode, WatchedChange, Lists, Flags;
    if es != [] {
      assert es[0] in es;
      FlaggedEventSpares(d, s, es[0], id, user);
      EventKeeps(d, s, es[0], id, user);
      FlaggedSettingsAreSpared(d, Happens(d, s, es[0]), es[1..], id, UserAfter(es[0], id, user));
    }
  }

  // ---------------------------------------------------------------------------------------
  // Values that are lost

  /** A mode that switches a setting without flagging it overwrites the user's value, and nothing waits to be recovered. */
  lemma UnflaggedModeOverwrites(d: Device, s: Service, mode: uint32, id: uint32, user: int32)
    requires d.cache != map[] && Observed(id) && Sound(d, s, id) && id !in s.maps.recover
    requires Lookup(s.store.values, id) == Some(user) && ModeChanges(s, mode)
    requires Lists(d, mode, id) && !Flags(d, mode, id) && ModeValue(d, mode, id) != INIT_VALUE_FALSE
    ensures var n := SetModeItem(d, s, mode).s;
      && n.mode == mode && Sound(d, n, id)
      && Lookup(n.store.values, id) == Some(ModeValue(d, mode, id)) && id !in n.maps.recover
  {
    hide Spared, SavedToRecover, SetModeItem, Switches, Backups, Listed, Flagged;
    ModeChangeKeeps(d, s, mode, id, user);
    SwitchesAreListed(LinesOf(d.cache, mode), id);
    BackupsAreFlagged(s.store.values, LinesOf(d.cache, mode), id);
  }

  /**
   * Without any configuration, a value that was once switched back is never forgotten: every
   * later change of the mode stores it again, over whatever the user has chosen since.
   */
  lemma UnconfiguredModeOverwrites(d: Device, s: Service, mode: uint32, id: uint32, user: int32)
    requires d.cache == map[] && Observed(id) && Sound(d, s, id) && id !in s.maps.recover && id !in s.maps.backup
    requires Lookup(s.store.values, id) == Some(user) && user != INIT_VALUE_FALSE && ModeChanges(s, mode)
    requires id in s.maps.switches && s.maps.switches[id] != INIT_VALUE_FALSE
    ensures var n := SetModeItem(d, s, mode).s;
      && Lookup(n.store.values, id) == Some(s.maps.switches[id]) && id !in n.maps.recover
      && Lookup(n.maps.switches, id) == Lookup(s.maps.switches, id)
  {
    hide Spared, SavedToRecover, SetModeItem, Switches, Backups;
    ModeChangeKeeps(d, s, mode, id, user);
  }

  /** The last line for a setting gives its value. */
  lemma {:induction false} ValueOfLine(lines: seq<SwitchPolicy>, i: nat)
    requires i < |lines| && forall j :: i < j < |lines| ==> lines[j].id != lines[i].id
    ensures lines[i].id in Switches(lines) && Switches(lines)[lines[i].id] == lines[i].value
    decreases |lines|
  {
    if i < |lines| - 1 {
      ValueOfLine(lines[..|lines| - 1], i);
    }
  }

  /** The lines of two modes in the configuration that is shipped with the service. */
  const NORMAL_LINES: seq<SwitchPolicy> := [
    SwitchPolicy(101, 30000, 0), SwitchPolicy(102, 0, 0), SwitchPolicy(103, -1, 0), SwitchPolicy(107, 1, 0),
    SwitchPolicy(115, 102, 0), SwitchPolicy(120, 1, 0), SwitchPolicy(121, 0, 0)]
  const POWER_SAVE_LINES: seq<SwitchPolicy> := [
    SwitchPolicy(101, 10000, 0), SwitchPolicy(102, 5000, 0), SwitchPolicy(103, -1, 0), SwitchPolicy(107, -1, 0),
    SwitchPolicy(115, 50, 0), SwitchPolicy(120, -1, 0), SwitchPolicy(121, 0, 0)]

  lemma ShippedRotation(d: Device)
    requires LinesOf(d.cache, NORMAL_MODE) == NORMAL_LINES && LinesOf(d.cache, POWER_SAVE_MODE) == POWER_SAVE_LINES
    ensures Lists(d, NORMAL_MODE, AUTO_WINDOW_ROTATION) && !Flags(d, NORMAL_MODE, AUTO_WINDOW_ROTATION)
    ensures Lists(d, POWER_SAVE_MODE, AUTO_WINDOW_ROTATION) && !Flags(d, POWER_SAVE_MODE, AUTO_WINDOW_ROTATION)
    ensures ModeValue(d, NORMAL_MODE, AUTO_WINDOW_ROTATION) == 1
    ensures ModeValue(d, POWER_SAVE_MODE, AUTO_WINDOW_ROTATION) == -1
  {
    hide Switches;
    assert NORMAL_LINES[3].id == AUTO_WINDOW_ROTATION && POWER_SAVE_LINES[3].id == AUTO_WINDOW_ROTATION;
    assert Listed(NORMAL_LINES, AUTO_WINDOW_ROTATION) && Listed(POWER_SAVE_LINES, AUTO_WINDOW_ROTATION);
    assert forall i :: 0 <= i < |NORMAL_LINES| ==> NORMAL_LINES[i].flag == 0;
    assert forall i :: 0 <= i < |POWER_SAVE_LINES| ==> POWER_SAVE_LINES[i].flag == 0;
    ValueOfLine(NORMAL_LINES, 3);
    ValueOfLine(POWER_SAVE_LINES, 3);
  }

  /**
   * With the shipped configuration, a user who has turned window rotation off loses the
   * choice by going to power save and back: rotation comes out turned on.
   */
  lemma ShippedConfigurationLosesRotation(d: Device, s: Service)
    requires LinesOf(d.cache, NORMAL_MODE) == NORMAL_LINES && LinesOf(d.cache, POWER_SAVE_MODE) == POWER_SAVE_LINES
    requires Sound(d, s, AUTO_WINDOW_ROTATION) && s.mode == NORMAL_MODE
    requires Lookup(s.store.values, AUTO_WINDOW_ROTATION) == Some(0) && AUTO_WINDOW_ROTATION !in s.maps.recover
    ensures var n := Run(d, s, [SetMode(POWER_SAVE_MODE, false), SetMode(NORMAL_MODE, false)]);
      Lookup(n.store.values, AUTO_WINDOW_ROTATION) == Some(1) && AUTO_WINDOW_ROTATION !in n.maps.recover
  {
    hide Sound, SetModeItem, Lists, Flags, ModeValue;
    assert d.cache != map[];
    ShippedRotation(d);
    UnflaggedModeOverwrites(d, s, POWER_SAVE_MODE, AUTO_WINDOW_ROTATION, 0);
    var s1 := SetModeItem(d, s, POWER_SAVE_MODE).s;
    UnflaggedModeOverwrites(d, s1, NORMAL_MODE, AUTO_WINDOW_ROTATION, -1);
    TwoEvents(d, s, SetMode(POWER_SAVE_MODE, false), SetMode(NORMAL_MODE, false));
  }

  lemma TwoEvents(d: Device, s: Service, e: Event, f: Event)
    ensures Run(d, s, [e, f]) == Happens(d, Happens(d, s, e), f)
  {
    hide Happens;
    assert [e, f][1..] == [f] && [f][1..] == [];
    assert Run(d, Happens(d, s, e), [f]) == Happens(d, Happens(d, s, e), f);
  }

  lemma ThreeEvents(d: Device, s: Service, e: Event, f: Event, g: Event)
    ensures Run(d, s, [e, f, g]) == Happens(d, Happens(d, Happens(d, s, e), f), g)
  {
    hide Happens;
    assert [e, f, g][1..] == [f, g];
    TwoEvents(d, Happens(d, s, e), f, g);
  }

  /** A mode that flags a setting puts the user's value aside. */
  lemma FlaggedIsPutAside(d: Device, s: Service, mode: uint32, id: uint32, user: int32)
    requires d.cache != map[] && Observed(id) && Sound(d, s, id) && id !in s.maps.recover && user != INIT_VALUE_FALSE
    requires Lookup(s.store.values, id) == Some(user) && ModeChanges(s, mode) && Flags(d, mode, id)
    ensures var n := SetModeItem(d, s, mode).s;
      n.mode == mode && Sound(d, n, id) && HasValue(n, id, user) && id in n.maps.recover
  {
    hide Spared, SavedToRecover, SetModeItem, Switches, Backups, Listed, Flagged;
    ModeChangeKeeps(d, s, mode, id, user);
    SparedByConfiguration(d, s.store.values, s.maps, mode, id, user, false);
    BackupsAreFlagged(s.store.values, LinesOf(d.cache, mode), id);
  }

  /**
   * A saving mode puts the user's value aside, the service restarts and no longer watches, and
   * the user changes the setting. Back in a mode that does not list the setting, the change is
   * undone.
   */
  lemma ChangeAfterRestartIsLost(d: Device, s: Service, id: uint32, user: int32, value: int32)
    requires d.cache != map[] && Observed(id) && Sound(d, s, id) && id !in s.maps.recover && s.mode == NORMAL_MODE
    requires Lookup(s.store.values, id) == Some(user) && user != INIT_VALUE_FALSE && value != INIT_VALUE_FALSE
    requires Flags(d, POWER_SAVE_MODE, id) && !Lists(d, NORMAL_MODE, id)
    ensures var changed := Run(d, s, [SetMode(POWER_SAVE_MODE, false), RestartService, Change(id, value)]);
      && Lookup(changed.store.values, id) == Some(value)
      && Lookup(Happens(d, changed, SetMode(NORMAL_MODE, false)).store.values, id) == Some(user)
  {
    hide SetModeItem, Lists, Flags, Restart, SavedToRecover, ManualChange, SavedMode, Loaded, StartSpares;
    FlaggedIsPutAside(d, s, POWER_SAVE_MODE, id, user);
    var s1 := SetModeItem(d, s, POWER_SAVE_MODE).s;
    RestartKeeps(d, s1.store, id, user);
    var s2 := Restart(d, s1.store);
    ManualChangeSides(s2, id, value);
    UnwatchedChangeIsUndone(d, s2, id, user, value, NORMAL_MODE);
    ThreeEvents(d, s, SetMode(POWER_SAVE_MODE, false), RestartService, Change(id, value));
  }

  /**
   * A change that is watched stays: in a configuration that flags the setting in power save
   * only, the user goes to power save, chooses a value that is not the mode's own, and goes
   * back to normal.
   */
  lemma WatchedChangeStays(d: Device, s: Service, id: uint32, user: int32, value: int32)
    requires d.cache != map[] && id in {103, 105, 107, 120} && Sound(d, s, id) && id !in s.maps.recover
    requires s.mode == NORMAL_MODE && Flags(d, POWER_SAVE_MODE, id) && !Lists(d, NORMAL_MODE, id)
    requires Lookup(s.store.values, id) == Some(user) && user != INIT_VALUE_FALSE
    requires value != INIT_VALUE_FALSE && value != ModeValue(d, POWER_SAVE_MODE, id)
    ensures var n := Run(d, s, [SetMode(POWER_SAVE_MODE, false), Change(id, value), SetMode(NORMAL_MODE, false)]);
      Lookup(n.store.values, id) == Some(value) && id !in n.maps.recover
  {
    assert Observed(id);
    hide SetModeItem, Lists, Flags, Sound, HasValue, ManualChange, Observed, ModeValue, ModeChanges;
    assert ModeChanges(s, POWER_SAVE_MODE) by { NormalAndPowerSave(d, s); }
    SavingModeWatches(d, s, id, user);
    var s1 := SetModeItem(d, s, POWER_SAVE_MODE).s;
    ChangeIsSeen(d, s1, id, user, value);
    var s2 := ManualChange(s1, id, value);
    assert ModeChanges(s2, NORMAL_MODE) by { NormalAndPowerSave(d, s2); }
    UnlistedIsStored(d, s2, NORMAL_MODE, id, value);
    ThreeEvents(d, s, SetMode(POWER_SAVE_MODE, false), Change(id, value), SetMode(NORMAL_MODE, false));
  }

  lemma NormalAndPowerSave(d: Device, s: Service)
    ensures s.mode == NORMAL_MODE ==> ModeChanges(s, POWER_SAVE_MODE)
    ensures s.mode == POWER_SAVE_MODE ==> ModeChanges(s, NORMAL_MODE)
  {
  }

  /** Power save puts the user's value aside, watches the setting, and knows its own value for it. */
  lemma SavingModeWatches(d: Device, s: Service, id: uint32, user: int32)
    requires d.cache != map[] && Observed(id) && Sound(d, s, id) && id !in s.maps.recover && user != INIT_VALUE_FALSE
    requires Lookup(s.store.values, id) == Some(user) && s.mode == NORMAL_MODE && Flags(d, POWER_SAVE_MODE, id)
    ensures var n := SetModeItem(d, s, POWER_SAVE_MODE).s;
      && n.mode == POWER_SAVE_MODE && Sound(d, n, id) && HasValue(n, id, user) && id in n.maps.recover && n.observing
      && IntValue(n.maps.switches, id, INIT_VALUE_FALSE) == ModeValue(d, POWER_SAVE_MODE, id)
  {
    hide SetModeItem, Flags, Observed, ModeValue, SavedToRecover, SavedMode;
    FlaggedIsPutAside(d, s, POWER_SAVE_MODE, id, user);
    ModeSet(d, s, POWER_SAVE_MODE);
    SwitchesAfterModeChange(d, s, POWER_SAVE_MODE, id, user);
  }

  /** A watched change to another value than the mode's is the user's, and nothing waits any more. */
  lemma ChangeIsSeen(d: Device, s: Service, id: uint32, user: int32, value: int32)
    requires Observed(id) && Sound(d, s, id) && HasValue(s, id, user) && value != INIT_VALUE_FALSE
    requires s.observing && id in s.maps.recover && value != IntValue(s.maps.switches, id, INIT_VALUE_FALSE)
    ensures var n := ManualChange(s, id, value);
      n.mode == s.mode && Sound(d, n, id) && HasValue(n, id, value) && id !in n.maps.recover
  {
    hide ManualChange, Observed, Sound, HasValue, SavedMode;
    ChangeKeeps(d, s, id, user, value);
    ManualChangeSides(s, id, value);
  }

  /** A mode that does not list a setting stores the user's value, and nothing waits any more. */
  lemma UnlistedIsStored(d: Device, s: Service, mode: uint32, id: uint32, user: int32)
    requires d.cache != map[] && Observed(id) && Sound(d, s, id) && HasValue(s, id, user) && user != INIT_VALUE_FALSE
    requires ModeChanges(s, mode) && !Lists(d, mode, id)
    ensures var n := SetModeItem(d, s, mode).s;
      Lookup(n.store.values, id) == Some(user) && id !in n.maps.recover
  {
    hide Sound, HasValue, SetModeItem, Choices, Spared, Lists, ModeChanges, Observed, Compare;
    ModeChangeKeeps(d, s, mode, id, user);
    UnlistedIsUnswitched(d, s, mode, id);
    UnlistedIsForgotten(d, s, mode, id, user);
  }

  /** After a switch, the policy's value of a listed setting is the mode's. */
  lemma SwitchesAfterModeChange(d: Device, s: Service, mode: uint32, id: uint32, user: int32)
    requires d.cache != map[] && Observed(id) && Sound(d, s, id) && HasValue(s, id, user) && user != INIT_VALUE_FALSE
    requires ModeChanges(s, mode) && Flags(d, mode, id)
    ensures IntValue(SetModeItem(d, s, mode).s.maps.switches, id, INIT_VALUE_FALSE) == ModeValue(d, mode, id)
  {
    hide Sound, HasValue, SetModeItem, Switches, Backups, Listed, Flagged, Spared;
    ModeChangeKeeps(d, s, mode, id, user);
    FlaggedIsListed(LinesOf(d.cache, mode), id);
    SwitchesAreListed(LinesOf(d.cache, mode), id);
  }

  /** After a switch to a mode that does not list a setting, nothing waits to be recovered. */
  lemma UnlistedIsForgotten(d: Device, s: Service, mode: uint32, id: uint32, user: int32)
    requires d.cache != map[] && Observed(id) && Sound(d, s, id) && HasValue(s, id, user) && user != INIT_VALUE_FALSE
    requires ModeChanges(s, mode) && !Lists(d, mode, id)
    ensures id !in SetModeItem(d, s, mode).s.maps.recover
  {
    hide Sound, HasValue, SetModeItem, Switches, Backups, Listed, Flagged, Spared;
    ModeChangeKeeps(d, s, mode, id, user);
    FlaggedIsListed(LinesOf(d.cache, mode), id);
    SwitchesAreListed(LinesOf(d.cache, mode), id);
    BackupsAreFlagged(s.store.values, LinesOf(d.cache, mode), id);
  }

  /** In custom power save, which never watches, no restart is needed to lose the change. */
  lemma ChangeInCustomModeIsLost(d: Device, s: Service, id: uint32, user: int32, value: int32)
    requires d.cache != map[] && Observed(id) && Sound(d, s, id) && id !in s.maps.recover && s.mode == NORMAL_MODE
    requires Lookup(s.store.values, id) == Some(user) && user != INIT_VALUE_FALSE && value != INIT_VALUE_FALSE
    requires Flags(d, CUSTOM_POWER_SAVE_MODE, id) && !Lists(d, NORMAL_MODE, id)
    ensures var changed := Run(d, s, [SetMode(CUSTOM_POWER_SAVE_MODE, false), Change(id, value)]);
      && Lookup(changed.store.values, id) == Some(value)
      && Lookup(Happens(d, changed, SetMode(NORMAL_MODE, false)).store.values, id) == Some(user)
  {
    hide SetModeItem, Lists, Flags, SavedToRecover, ManualChange, SavedMode;
    FlaggedIsPutAside(d, s, CUSTOM_POWER_SAVE_MODE, id, user);
    var s1 := SetModeItem(d, s, CUSTOM_POWER_SAVE_MODE).s;
    assert !s1.observing by { CustomModeIsNotWatched(d, s); }
    ManualChangeSides(s1, id, value);
    UnwatchedChangeIsUndone(d, s1, id, user, value, NORMAL_MODE);
    TwoEvents(d, s, SetMode(CUSTOM_POWER_SAVE_MODE, false), Change(id, value));
  }

  lemma CustomModeIsNotWatched(d: Device, s: Service)
    requires s.mode == NORMAL_MODE && !s.started
    ensures !SetModeItem(d, s, CUSTOM_POWER_SAVE_MODE).s.observing
  {
    hide Update, Render, RunActions;
  }

  /** A device whose power-save mode turns window rotation off, and its settings. */
  const EXAMPLE_DEVICE: Device :=
    Device(map[600 := [], 601 := [SwitchPolicy(107, -1, RECOVER)]], LP64, false)
  const EXAMPLE_STORE: Store := Store(map[107 := 0], None, None, Unparsable)

  /** On this device, rotation off, power save, a restart, rotation turned on, normal mode: rotation is off again. */
  lemma LostChangeExample()
    ensures var s := Restart(EXAMPLE_DEVICE, EXAMPLE_STORE);
      var changed := Run(EXAMPLE_DEVICE, s, [SetMode(POWER_SAVE_MODE, false), RestartService, Change(107, 1)]);
      && Lookup(changed.store.values, 107) == Some(1)
      && Lookup(Happens(EXAMPLE_DEVICE, changed, SetMode(NORMAL_MODE, false)).store.values, 107) == Some(0)
  {
    hide Restart, Happens, Run;
    var d := EXAMPLE_DEVICE;
    assert LinesOf(d.cache, POWER_SAVE_MODE)[0] == SwitchPolicy(107, -1, RECOVER);
    assert Flags(d, POWER_SAVE_MODE, 107) && !Lists(d, NORMAL_MODE, 107);
    RestartKeeps(d, EXAMPLE_STORE, 107, 0);
    var l := Loaded(d, EXAMPLE_STORE);
    UnlistedIsUnswitched(d, l, NORMAL_MODE, 107);
    LoadedHas(d, EXAMPLE_STORE, 107);
    SparedByConfiguration(d, EXAMPLE_STORE.values, l.maps, NORMAL_MODE, 107, 0, false);
    ChangeAfterRestartIsLost(d, Restart(d, EXAMPLE_STORE), 107, 0, 1);
  }
}
