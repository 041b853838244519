/** Overriding the screen-off time, and restoring it. */
module ScreenOffTime {
  import opened FfrtTimer
  import opened PowerTypes
  import opened RequestAnswers
  import opened StateEngine

  function BeginOverride(off: OffTime, time: int): OffTime {
    OffTime(time, true, if off.overridden then off.before else off.effective)
  }

  function EndOverride(off: OffTime): OffTime
    requires off.overridden
  {
    OffTime(off.before, false, off.before)
  }

  /** The stored setting now says `setting`. The charging-type build defers it while an override is active. */
  function SettingChanged(b: Build, off: OffTime, setting: int): OffTime {
    if b.chargingType && off.overridden then off.(before := setting)
    else if setting == off.effective then off
    else OffTime(setting, off.overridden, setting)
  }

  // The same operations on the whole machine: a new time starts the inactivity time anew when AWAKE.

  function SetDisplayOffTime(b: Build, m: Machine, time: int): Machine {
    var m1 := m.(off := m.off.(effective := time));
    if m.current == Awake then ResetInactiveTimer(b, m1) else m1
  }

  function OverrideScreenOffTime(b: Build, m: Machine, time: int): Machine {
    var m1 := if m.off.overridden then m else m.(off := OffTime(m.off.effective, true, m.off.effective));
    SetDisplayOffTime(b, m1, time)
  }

  function RestoreScreenOffTime(b: Build, m: Machine): Machine {
    if !m.off.overridden then m
    else
      var m1 := SetDisplayOffTime(b, m, m.off.before);
      m1.(off := m1.off.(overridden := false))
  }

  function DisplayOffTimeUpdate(b: Build, m: Machine, setting: int): Machine {
    if b.chargingType && m.off.overridden then m.(off := m.off.(before := setting))
    else if setting == m.off.effective then m
    else SetDisplayOffTime(b, m.(off := m.off.(before := setting)), setting)
  }

  /** On the machine, the three times change as the functions above say. */
  lemma MachineTimes(b: Build, m: Machine, time: int)
    ensures OverrideScreenOffTime(b, m, time).off == BeginOverride(m.off, time)
    ensures DisplayOffTimeUpdate(b, m, time).off == SettingChanged(b, m.off, time)
    ensures RestoreScreenOffTime(b, m).off == if m.off.overridden then EndOverride(m.off) else m.off
  {
    hide Arm, CancelActivityTimers, DimTime, Interrupt;
  }

  /** `n` is `m` but for the times, and an AWAKE device whose time in effect was set starts its inactivity time anew. */
  ghost predicate TimeSet(b: Build, m: Machine, n: Machine, takes: bool) {
    && n == m.(timers := n.timers, flag := n.flag, off := n.off)
    && Pending(n.timers) ==
       if takes && m.current == Awake then Reactivated(b, Pending(m.timers), m.timers.now, n.off.effective)
       else Pending(m.timers)
  }

  lemma TimeIsSet(b: Build, m: Machine, time: int)
    requires Coherent(m.timers)
    ensures TimeSet(b, m, SetDisplayOffTime(b, m, time), true)
    ensures SetDisplayOffTime(b, m, time).off == m.off.(effective := time)
  {
    hide Coherent, Pending, Reactivated, Arm, CancelActivityTimers, DimTime, Interrupt;
    ResetPends(b, m.(off := m.off.(effective := time)));
  }

  /**
   * Overriding, restoring, and a setting that takes effect each start the inactivity time of an
   * AWAKE device anew, with the new time; a restore without override, a deferred setting, and
   * one that is in effect already do not.
   */
  lemma NewTimeStartsAnew(b: Build, m: Machine, time: int)
    requires Coherent(m.timers)
    ensures TimeSet(b, m, OverrideScreenOffTime(b, m, time), true)
    ensures TimeSet(b, m, RestoreScreenOffTime(b, m), m.off.overridden)
    ensures TimeSet(b, m, DisplayOffTimeUpdate(b, m, time),
                    !(b.chargingType && m.off.overridden) && time != m.off.effective)
  {
    hide Coherent, Pending, Reactivated, SetDisplayOffTime;
    TimeIsSet(b, m.(off := OffTime(m.off.effective, true, m.off.effective)), time);
    TimeIsSet(b, m, time);
    TimeIsSet(b, m, m.off.before);
    TimeIsSet(b, m.(off := m.off.(before := time)), time);
  }

  // ---------------------------------------------------------------------------------------

  datatype Event = Override(time: int) | NewSetting(setting: int)

  function Happens(b: Build, off: OffTime, e: Event): OffTime {
    match e
    case Override(time) => BeginOverride(off, time)
    case NewSetting(setting) => SettingChanged(b, off, setting)
  }

  function Run(b: Build, off: OffTime, es: seq<Event>): OffTime {
    if es == [] then off else Happens(b, Run(b, off, es[..|es| - 1]), es[|es| - 1])
  }

  /** The last setting of a run, or `first` if the setting never changed. */
  function LastSetting(es: seq<Event>, first: int): int {
    if es == [] then first
    else if es[|es| - 1].NewSetting? then es[|es| - 1].setting
    else LastSetting(es[..|es| - 1], first)
  }

  /**
   * In the charging-type build, and in any build if the setting does not change, restoring
   * after any number of nested overrides gives the latest setting, or the time before the
   * first override if there was none.
   */
  lemma {:induction false} RestoreGivesLatestSetting(b: Build, off: OffTime, time: int, es: seq<Event>)
    requires !off.overridden
    requires b.chargingType || forall e | e in es :: e.Override?
    ensures var now := Run(b, BeginOverride(off, time), es);
      now.overridden && EndOverride(now).effective == LastSetting(es, off.effective)
  {
    if es != [] {
      RestoreGivesLatestSetting(b, off, time, es[..|es| - 1]);
      assert es[|es| - 1] in es;
    }
  }

  lemma {:induction false} OverridesKeepBefore(b: Build, off: OffTime, es: seq<Event>)
    requires off.overridden && forall e | e in es :: e.Override?
    ensures Run(b, off, es).overridden && Run(b, off, es).before == off.before
  {
    if es != [] {
      OverridesKeepBefore(b, off, es[..|es| - 1]);
      assert es[|es| - 1] in es;
    }
  }

  lemma {:induction false} StaysOverridden(b: Build, off: OffTime, es: seq<Event>)
    requires off.overridden
    ensures Run(b, off, es).overridden
  {
    if es != [] {
      StaysOverridden(b, off, es[..|es| - 1]);
    }
  }

  lemma {:induction false} RunAppend(b: Build, off: OffTime, es: seq<Event>, fs: seq<Event>)
    ensures Run(b, off, es + fs) == Run(b, Run(b, off, es), fs)
  {
    if fs == [] {
      assert es + fs == es;
    } else {
      RunAppend(b, off, es, fs[..|fs| - 1]);
      assert (es + fs)[..|es + fs| - 1] == es + fs[..|fs| - 1];
    }
  }

  /**
   * Exactly when restoring gives the latest setting `s`, in every build: unless, in a build
   * without deferral, `s` came while it equalled the time in effect and differed from the
   * time remembered. Then the change is overlooked and the older time comes back.
   */
  lemma RestoreGivesLatestSettingIff(b: Build, off: OffTime, time: int, es: seq<Event>, s: int, later: seq<Event>)
    requires !off.overridden && forall e | e in later :: e.Override?
    ensures var seen := Run(b, BeginOverride(off, time), es);
      var now := Run(b, BeginOverride(off, time), es + [NewSetting(s)] + later);
      && now.overridden
      && (EndOverride(now).effective == s <==> b.chargingType || s != seen.effective || s == seen.before)
  {
    var start := BeginOverride(off, time);
    var seen := Run(b, start, es);
    StaysOverridden(b, start, es);
    RunAppend(b, start, es, [NewSetting(s)]);
    assert [NewSetting(s)][..0] == [];
    assert Run(b, seen, [NewSetting(s)]) == SettingChanged(b, seen, s);
    RunAppend(b, start, es + [NewSetting(s)], later);
    OverridesKeepBefore(b, SettingChanged(b, seen, s), later);
  }

  /** A setting that is overlooked: 30 s, overridden to 60 s, set to 60 s, restored to 30 s. */
  lemma OverlookedSetting(b: Build)
    requires !b.chargingType
    ensures var now := Run(b, BeginOverride(OffTime(30000, false, -1), 60000), [NewSetting(60000)]);
      now.overridden && EndOverride(now).effective == 30000 != LastSetting([NewSetting(60000)], 30000)
  {
    assert [NewSetting(60000)][..0] == [];
  }
}
