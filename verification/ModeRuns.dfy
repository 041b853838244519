/** Runs of mode calls, changes of settings, and restarts, and the rules for mode and sub-mode. */
module ModeRuns {
  import opened PowerTypes
  import opened RecoverJson
  import opened ModePolicy
  import opened PowerMode

  datatype Event =
    | SetMode(mode: uint32, denied: bool)
    | SetModeAndSubMode(mode: uint32, subMode: int32, denied: bool)
    | Change(id: uint32, value: int32)
    | RestartService

  ghost function Happens(d: Device, s: Service, e: Event): Service {
    match e
    case SetMode(mode, denied) => SetDeviceMode(d, s, mode, denied).s
    case SetModeAndSubMode(mode, subMode, denied) => SetDeviceModeAndSubMode(d, s, mode, subMode, denied).s
    case Change(id, value) => ManualChange(s, id, value)
    case RestartService => Restart(d, s.store)
  }

  ghost function Run(d: Device, s: Service, es: seq<Event>): Service
    decreases |es|
  {
    if es == [] then s else Run(d, Happens(d, s, es[0]), es[1..])
  }

  // ---------------------------------------------------------------------------------------
  // Mode and sub-mode

  /** What a successful change to another mode does to mode and sub-mode, in memory and saved. */
  lemma ModeSet(d: Device, s: Service, mode: uint32)
    requires !s.started && s.mode != mode && IsMode(mode) && CanTransitTo(s.mode, mode)
    ensures var r := SetModeItem(d, s, mode);
      && r.error.ErrOk? && r.s.mode == mode && !r.s.started && r.s.store.mode == Some(Wrap32(mode))
      && r.s.subMode == (if mode == EXTREME_POWER_SAVE_MODE then s.subMode else SUB_MODE_INVALID)
      && r.s.store.subMode ==
         (if mode == EXTREME_POWER_SAVE_MODE || s.subMode == SUB_MODE_INVALID then s.store.subMode
          else Some(SUB_MODE_INVALID))
      && r.s.lastMode == mode && (r.s.observing <==> mode == 601 || mode == 603)
      && r.s.announced == s.announced +
                          [Announcement(mode, if mode == EXTREME_POWER_SAVE_MODE then Some(s.subMode) else None)]
  {
    hide Update, Render, RunActions, Wrap32;
  }

  /** The answer of the service call without sub-mode, by mode numbers. */
  lemma ModeAnswers(d: Device, s: Service, mode: uint32, denied: bool)
    ensures SetDeviceMode(d, s, mode, denied).error ==
            if denied && mode in {601, 603, 650} then ErrEnterprisePoliciesDenied
            else if mode == s.mode then ErrOk
            else if mode !in {600, 601, 602, 603, 650} then ErrParamInvalid
            else if mode == 602 && s.mode in {601, 603, 650} then ErrPowerModeTransitFailed
            else ErrOk
    ensures SetDeviceMode(d, s, mode, denied).error != ErrOk ==> SetDeviceMode(d, s, mode, denied).s == s
  {
    hide EnableMode, LeaveSubMode, Announce;
  }

  /** The answer of the service call with sub-mode. */
  lemma SubModeAnswers(d: Device, s: Service, mode: uint32, subMode: int32, denied: bool)
    ensures SetDeviceModeAndSubMode(d, s, mode, subMode, denied).error ==
            if mode != 603 then ErrPowerModeTransitFailed
            else if denied then ErrEnterprisePoliciesDenied
            else if subMode == -1 then ErrPowerModeTransitFailed
            else if subMode !in {603001, 603002} then ErrParamInvalid
            else ErrOk
    ensures SetDeviceModeAndSubMode(d, s, mode, subMode, denied).error != ErrOk ==>
              SetDeviceModeAndSubMode(d, s, mode, subMode, denied).s == s
  {
    hide EnableMode, LeaveSubMode, Announce;
  }

  /** The mode and sub-mode that are read from the settings, with what stands in for missing and unknown values. */
  lemma SavedModes(store: Store)
    ensures SavedMode(store) ==
            if store.mode == None || store.mode == Some(0) then 600
            else if store.mode.value < 0 then store.mode.value + TWO_TO_THE_32 else store.mode.value
    ensures SavedSubMode(store) ==
            if SavedMode(store) != 603 then -1
            else if store.subMode in {Some(-1), Some(603001), Some(603002)} then store.subMode.value else 603002
  {
  }

  /** The extreme mode without a sub-mode is the emergency one; with one, it is that one. */
  lemma ExtremeModeSet(d: Device, s: Service, subMode: int32)
    ensures var r := SetDeviceMode(d, s, 603, false);
      r.error == ErrOk && r.s.subMode == 603002 && r.s.store.subMode == Some(603002)
    ensures var r := SetDeviceModeAndSubMode(d, s, 603, subMode, false);
      r.error == ErrOk ==> r.s.subMode == subMode && r.s.store.subMode == Some(subMode)
  {
    hide EnableMode, LeaveSubMode, Watch;
    SubModeAnswers(d, s, 603, subMode, false);
  }

  /** Between calls: sub-modes belong to the extreme mode, and what is saved is what is set. */
  ghost predicate ModeRules(s: Service) {
    && !s.started
    && (s.mode == EXTREME_POWER_SAVE_MODE <==> s.subMode != SUB_MODE_INVALID)
    && SavedMode(s.store) == s.mode && SavedSubMode(s.store) == s.subMode
  }

  lemma ModesAfterRestart(d: Device, store: Store)
    ensures var n := Restart(d, store);
      && n.mode == SavedMode(store) && n.subMode == SavedSubMode(store) && !n.started
      && n.store.mode == store.mode && n.store.subMode == store.subMode
  {
    hide Update, Render, RunActions, Read, SavedMode, SavedSubMode;
  }

  /**
   * Starting from saved settings gives a mode and sub-mode that obey the rules, iff it is not
   * the extreme mode that was saved together with the invalid sub-mode.
   */
  lemma StartObeysTheRules(d: Device, store: Store)
    ensures ModeRules(Restart(d, store)) <==>
            !(SavedMode(store) == EXTREME_POWER_SAVE_MODE && store.subMode == Some(SUB_MODE_INVALID))
  {
    hide Restart;
    ModesAfterRestart(d, store);
  }

  lemma SetModeItemKeepsRules(d: Device, s: Service, mode: uint32)
    requires ModeRules(s) && mode != EXTREME_POWER_SAVE_MODE
    ensures ModeRules(SetModeItem(d, s, mode).s)
  {
    if s.mode != mode && IsMode(mode) && CanTransitTo(s.mode, mode) {
      ModeSet(d, s, mode);
      WrapIsInverse(mode);
      hide SetModeItem;
    }
  }

  lemma SetSubModeKeepsRules(d: Device, s: Service, subMode: int32)
    requires ModeRules(s) && subMode != SUB_MODE_INVALID
    ensures ModeRules(SetModeAndSubModeItem(d, s, EXTREME_POWER_SAVE_MODE, subMode).s)
  {
    if s.mode != EXTREME_POWER_SAVE_MODE {
      ModeSet(d, s, EXTREME_POWER_SAVE_MODE);
      WrapIsInverse(EXTREME_POWER_SAVE_MODE);
      hide SetModeItem;
    }
  }

  lemma EventKeepsRules(d: Device, s: Service, e: Event)
    requires ModeRules(s)
    ensures ModeRules(Happens(d, s, e))
  {
    match e
    case SetMode(mode, denied) =>
      hide SetModeItem, SetModeAndSubModeItem, ModeRules;
      if mode == EXTREME_POWER_SAVE_MODE {
        SetSubModeKeepsRules(d, s, SUB_MODE_EMERGENCY);
      } else {
        SetModeItemKeepsRules(d, s, mode);
      }
    case SetModeAndSubMode(mode, subMode, denied) =>
      hide SetModeAndSubModeItem, ModeRules;
      if subMode != SUB_MODE_INVALID {
        SetSubModeKeepsRules(d, s, subMode);
      }
    case Change(id, value) => hide Render;
    case RestartService =>
      hide Restart;
      ModesAfterRestart(d, s.store);
  }

  /**
   * Under any sequence of calls, changes of settings and restarts: the mode is EXTREME iff
   * there is a sub-mode, and another restart would bring back the same mode and sub-mode.
   */
  lemma {:induction false} RulesHoldOverRuns(d: Device, s: Service, es: seq<Event>)
    requires ModeRules(s)
    ensures var n := Run(d, s, es);
      && ModeRules(n)
      && Restart(d, n.store).mode == n.mode && Restart(d, n.store).subMode == n.subMode
    decreases |es|
  {
    hide Happens, Restart, SavedMode, SavedSubMode;
    if es == [] {
      ModesAfterRestart(d, s.store);
    } else {
      EventKeepsRules(d, s, es[0]);
      RulesHoldOverRuns(d, Happens(d, s, es[0]), es[1..]);
    }
  }

  /** Where one event can lead from a power-saving mode. */
  lemma FromSaveMode(d: Device, s: Service, e: Event)
    requires ModeRules(s) && IsSaveMode(s.mode)
    ensures IsSaveMode(Happens(d, s, e).mode) || Happens(d, s, e).mode == NORMAL_MODE
  {
    match e
    case SetMode(mode, denied) =>
      hide Update, Render, RunActions, SavedMode, SavedSubMode;
    case SetModeAndSubMode(mode, subMode, denied) =>
      hide Update, Render, RunActions, SavedMode, SavedSubMode;
    case Change(id, value) => hide Render;
    case RestartService =>
      hide Restart;
      ModesAfterRestart(d, s.store);
  }

  /** Every run from a power-saving mode to PERFORMANCE goes through NORMAL. */
  lemma {:induction false} PerformanceOnlyThroughNormal(d: Device, s: Service, es: seq<Event>)
    requires ModeRules(s) && IsSaveMode(s.mode) && Run(d, s, es).mode == PERFORMANCE_MODE
    ensures exists k :: 0 < k < |es| && Run(d, s, es[..k]).mode == NORMAL_MODE
    decreases |es|
  {
    hide Happens, ModeRules;
    if es != [] {
      var n := Happens(d, s, es[0]);
      FromSaveMode(d, s, es[0]);
      EventKeepsRules(d, s, es[0]);
      if n.mode == NORMAL_MODE {
        assert Run(d, n, []) == n;
        assert es[..1][0] == es[0] && es[..1][1..] == [];
        assert Run(d, s, es[..1]).mode == NORMAL_MODE;
        assert es[1..] != [];
      } else {
        PerformanceOnlyThroughNormal(d, n, es[1..]);
        var k :| 0 < k < |es[1..]| && Run(d, n, es[1..][..k]).mode == NORMAL_MODE;
        assert es[..k + 1][1..] == es[1..][..k];
        assert Run(d, s, es[..k + 1]).mode == NORMAL_MODE;
      }
    }
  }

  // ---------------------------------------------------------------------------------------
  // Two consequences of setting the mode before the sub-mode

  /**
   * A power failure after the mode was saved and before the sub-mode was: the next start comes
   * up in the extreme mode without a sub-mode, iff the invalid sub-mode had been saved before.
   */
  lemma PowerFailureBetweenModeAndSubMode(d: Device, s: Service)
    requires ModeRules(s) && s.mode != EXTREME_POWER_SAVE_MODE
    ensures var halfway := SetModeItem(d, s, EXTREME_POWER_SAVE_MODE).s;
      ModeRules(Restart(d, halfway.store)) <==> s.store.subMode != Some(SUB_MODE_INVALID)
  {
    hide SetModeItem, Restart, ModeRules;
    assert !s.started by { NotStarted(s); }
    ModeSet(d, s, EXTREME_POWER_SAVE_MODE);
    WrapIsInverse(EXTREME_POWER_SAVE_MODE);
    StartObeysTheRules(d, SetModeItem(d, s, EXTREME_POWER_SAVE_MODE).s.store);
  }

  lemma NotStarted(s: Service)
    requires ModeRules(s)
    ensures !s.started
  {
  }

  /**
   * Entering the extreme mode announces the sub-mode of before, which is none: the new
   * sub-mode is set only afterwards and not announced. Changing the sub-mode announces it.
   */
  lemma EnteringExtremeAnnouncesNoSubMode(d: Device, s: Service, subMode: int32)
    requires ModeRules(s) && IsSubMode(subMode) && subMode != SUB_MODE_INVALID
    ensures var r := SetDeviceModeAndSubMode(d, s, EXTREME_POWER_SAVE_MODE, subMode, false);
      && r.error.ErrOk? && r.s.mode == EXTREME_POWER_SAVE_MODE && r.s.subMode == subMode
      && r.s.announced == s.announced +
         (if s.mode != EXTREME_POWER_SAVE_MODE then [Announcement(EXTREME_POWER_SAVE_MODE, Some(SUB_MODE_INVALID))]
          else if s.subMode != subMode then [Announcement(EXTREME_POWER_SAVE_MODE, Some(subMode))] else [])
  {
    if s.mode != EXTREME_POWER_SAVE_MODE {
      ModeSet(d, s, EXTREME_POWER_SAVE_MODE);
      hide SetModeItem;
    }
  }
}
