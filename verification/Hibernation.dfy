/**
 * The hibernate sequence of the S4 build: prepare, hibernate, then restore or roll back.
 * The preparation is assumed to finish within its time limit.
 */
module Hibernation {
  import opened PowerTypes
  import opened FfrtTimer
  import opened StateEngine
  import opened RequestLaws
  import MachineRuns

  /** How often the events around hibernation were published, and shutdowns asked for. */
  datatype Events = Events(entered: nat, exited: nat, shutdowns: nat)

  /** What the surroundings answer during one hibernate request. */
  datatype Outside = Outside(
    takenOver: bool,      // a registered callback takes the request over
    inactive: Env,        // for the request to INACTIVE
    accountsOk: bool,     // switching to the default account succeeds
    stopServiceOk: bool,  // setting the stop-service parameter succeeds
    toHibernate: Env,     // for the request to HIBERNATE
    hibernateOk: bool,    // the device hibernates and resumes
    back: Env)            // for the last request, to AWAKE or INACTIVE

  function PrepareHibernate(b: Build, m: Machine, clearMemory: bool, o: Outside): Gate {
    var m1 := SetState(b, m, Inactive, HibernateReason, true, o.inactive).m;
    if clearMemory && !(o.accountsOk && o.stopServiceOk) then Gate(m1, false)
    else
      var a := SetState(b, m1, Hibernate, System, true, o.toHibernate);
      Gate(a.m, Accepted(a.verdict))
  }

  datatype Outcome = Outcome(m: Machine, events: Events)

  function RollbackHibernate(b: Build, m: Machine, ev: Events, original: PowerState, needShutdown: bool, o: Outside)
    : Outcome
  {
    var m1 := m.(hibernating := false);
    if needShutdown then Outcome(m1, ev.(shutdowns := ev.shutdowns + 1))
    else
      var m2 := SetState(b, m1, Inactive, RollbackReason, true, o.back).m;
      Outcome(if original == Sleep then m2.(sleepStarts := m2.sleepStarts + 1) else m2,
              ev.(exited := ev.exited + 1))
  }

  function RestoreHibernate(b: Build, m: Machine, ev: Events, o: Outside): Outcome {
    Outcome(SetState(b, m.(hibernating := false), Awake, System, true, o.back).m, ev.(exited := ev.exited + 1))
  }

  /** A request that is neither taken over nor turned away because another one is running. */
  function Sequence(b: Build, m: Machine, ev: Events, clearMemory: bool, lowCapacity: bool, o: Outside): Outcome {
    var prepared := PrepareHibernate(b, m.(hibernating := true), clearMemory, o);
    var ev1 := ev.(entered := ev.entered + 1);
    ComeBack(b, prepared.m, ev1, prepared.go && o.hibernateOk, m.current, clearMemory || lowCapacity, o)
  }

  function ComeBack(
      b: Build, m: Machine, ev: Events, success: bool, original: PowerState, needShutdown: bool, o: Outside): Outcome
  {
    if success then RestoreHibernate(b, m, ev, o) else RollbackHibernate(b, m, ev, original, needShutdown, o)
  }

  predicate TakenOver(clearMemory: bool, o: Outside) { clearMemory && o.takenOver }

  function HibernateInner(b: Build, m: Machine, ev: Events, clearMemory: bool, lowCapacity: bool, o: Outside): Outcome {
    if TakenOver(clearMemory, o) || m.hibernating then Outcome(m, ev)
    else Sequence(b, m, ev, clearMemory, lowCapacity, o)
  }

  // ---------------------------------------------------------------------------------------

  /** A forced request to HIBERNATE commits from every state that a device in use can be in. */
  lemma HibernateCommits(b: Build, m: Machine, env: Env)
    requires b.s4 && m.current in {Awake, Dim, Inactive, Sleep}
    ensures var a := SetState(b, m, Hibernate, System, true, env);
      Committed(a) && a.m.current == Hibernate && a.m.sleepStarts == m.sleepStarts
  {
    hide Disarm;
  }

  /** A forced request to INACTIVE for hibernation ends in a state that may hibernate. */
  lemma InactiveRequestEnds(b: Build, m: Machine, env: Env)
    requires m.current in {Awake, Dim, Inactive, Sleep}
    ensures var n := SetState(b, m, Inactive, HibernateReason, true, env).m;
      n.current in {Awake, Dim, Inactive, Sleep} && n.sleepStarts == m.sleepStarts
  {
    hide SetState, CheckState, Forbidden, AllowedByReason, LocksAllow, IgnoresLocks;
    RequestOutline(b, m, Inactive, HibernateReason, true, env);
    InactiveStartsNoSleep(b, m, HibernateReason, env);
  }

  /** Only wakeups that a sensor blocks and late authentication results send a device back to sleep. */
  lemma InactiveStartsNoSleep(b: Build, m: Machine, reason: Reason, env: Env)
    requires !PreBrightReason(reason)
    ensures SetState(b, m, Inactive, reason, true, env).m.sleepStarts == m.sleepStarts
  {
    hide TaskAvailable, MatchState, Check, HandlePreBright, Action, IgnoresLocks, NeedNotify;
    var ignore := IgnoresLocks(m, reason, true);
    var m1 := Matched(m.(flag := Setting(Inactive)), Inactive);
    CheckStartsNoSleep(b, m1, Inactive, reason, ignore, env);
    var c := Check(b, m1, Inactive, reason, ignore, env).m;
    StagesStartNoSleep(b, c, reason, env);
  }

  lemma CheckStartsNoSleep(b: Build, m: Machine, target: PowerState, reason: Reason, ignoreLock: bool, env: Env)
    requires target != Awake
    ensures Check(b, m, target, reason, ignoreLock, env).m.sleepStarts == m.sleepStarts
  {
    hide CheckState, Forbidden, AllowedByReason, LocksAllow, CanTransitTo;
  }

  lemma StagesStartNoSleep(b: Build, m: Machine, reason: Reason, env: Env)
    requires !PreBrightReason(reason)
    ensures var g := HandlePreBright(m, Inactive, reason).m;
      g.sleepStarts == m.sleepStarts && Action(b, g, Inactive, reason, env).m.sleepStarts == m.sleepStarts
  {
    hide Disarm, Arm, CancelActivityTimers;
  }

  lemma ResetStartsNoSleep(b: Build, m: Machine)
    ensures ResetInactiveTimer(b, m).sleepStarts == m.sleepStarts
  {
    hide Arm, CancelActivityTimers, DimTime, Interrupt;
  }

  /** The preparation ends in HIBERNATE, whatever the display calls do, unless an account or parameter step fails. */
  lemma PrepareEnds(b: Build, m: Machine, clearMemory: bool, o: Outside)
    requires b.s4 && m.current in {Awake, Dim, Inactive, Sleep}
    ensures var p := PrepareHibernate(b, m, clearMemory, o);
      && p.m.hibernating == m.hibernating && p.m.sleepStarts == m.sleepStarts
      && (p.go <==> !clearMemory || (o.accountsOk && o.stopServiceOk))
      && (p.go ==> p.m.current == Hibernate)
  {
    hide SetState;
    InactiveRequestEnds(b, m, o.inactive);
    RequestOutline(b, m, Inactive, HibernateReason, true, o.inactive);
    var m1 := SetState(b, m, Inactive, HibernateReason, true, o.inactive).m;
    HibernateCommits(b, m1, o.toHibernate);
    RequestOutline(b, m1, Hibernate, System, true, o.toHibernate);
  }

  /** Coming back: the request commits iff its display call succeeds; otherwise the device stays in HIBERNATE. */
  lemma BackRequest(b: Build, m: Machine, target: PowerState, reason: Reason, env: Env)
    requires b.s4 && m.current == Hibernate
    requires (target == Awake && reason == System) || (target == Inactive && reason == RollbackReason)
    ensures var a := SetState(b, m, target, reason, true, env);
      && a.m.current == (if env.displayOk then target else Hibernate)
      && a.m.sleepStarts == m.sleepStarts && a.m.hibernating == m.hibernating
  {
    hide Disarm, Arm, CancelActivityTimers, ResetInactiveTimer, NeedNotify;
    forall n: Machine ensures ResetInactiveTimer(b, n).sleepStarts == n.sleepStarts { ResetStartsNoSleep(b, n); }
    forall n: Machine ensures SameGivens(n, ResetInactiveTimer(b, n)) { ResetOutline(b, n); }
  }

  /**
   * The whole sequence, from any state a device in use can be in and whatever fails on the
   * way. A success ends AWAKE and a rollback without shutdown ends INACTIVE iff the last
   * display call succeeds; a rollback starts a sleep timer iff the device was asleep.
   */
  lemma SequenceEnds(b: Build, m: Machine, ev: Events, clearMemory: bool, lowCapacity: bool, o: Outside)
    requires b.s4 && m.current in {Awake, Dim, Inactive, Sleep}
    ensures var r := Sequence(b, m, ev, clearMemory, lowCapacity, o);
      var success := o.hibernateOk && (!clearMemory || (o.accountsOk && o.stopServiceOk));
      var shutdown := !success && (clearMemory || lowCapacity);
      && !r.m.hibernating
      && (success ==> (r.m.current == Awake <==> o.back.displayOk))
      && (!success && !shutdown ==> (r.m.current == Inactive <==> o.back.displayOk))
      && (!shutdown && !o.back.displayOk ==> r.m.current == Hibernate)
      && r.m.sleepStarts == m.sleepStarts + (if !success && !shutdown && m.current == Sleep then 1 else 0)
      && r.events == Events(ev.entered + 1, ev.exited + (if shutdown then 0 else 1),
                            ev.shutdowns + (if shutdown then 1 else 0))
  {
    hide SetState, PrepareHibernate;
    var m0 := m.(hibernating := true);
    PrepareEnds(b, m0, clearMemory, o);
    var p := PrepareHibernate(b, m0, clearMemory, o);
    var m1 := p.m.(hibernating := false);
    if p.go && o.hibernateOk {
      BackRequest(b, m1, Awake, System, o.back);
    } else if p.go {
      BackRequest(b, m1, Inactive, RollbackReason, o.back);
    }
  }

  /** The flag is cleared and the events are paired even if the device was in any state at all. */
  lemma FlagClearedEventsPaired(b: Build, m: Machine, ev: Events, clearMemory: bool, lowCapacity: bool, o: Outside)
    requires !m.hibernating
    ensures var r := HibernateInner(b, m, ev, clearMemory, lowCapacity, o);
      && !r.m.hibernating
      && r.events.entered - ev.entered == (r.events.exited - ev.exited) + (r.events.shutdowns - ev.shutdowns)
      && (r.events.entered == ev.entered + (if clearMemory && o.takenOver then 0 else 1))
      && (r.events.shutdowns > ev.shutdowns ==> clearMemory || lowCapacity)
  {
    hide SetState, PrepareHibernate;
    var p := PrepareHibernate(b, m.(hibernating := true), clearMemory, o);
    var m1 := p.m.(hibernating := false);
    RequestOutline(b, m1, Awake, System, true, o.back);
    RequestOutline(b, m1, Inactive, RollbackReason, true, o.back);
  }

  /** A request while another one is under way, and one that is taken over, change nothing and publish nothing. */
  lemma TurnedAway(b: Build, m: Machine, ev: Events, clearMemory: bool, lowCapacity: bool, o: Outside)
    requires m.hibernating || (clearMemory && o.takenOver)
    ensures HibernateInner(b, m, ev, clearMemory, lowCapacity, o) == Outcome(m, ev)
  {
    hide Sequence;
  }

  // ---------------------------------------------------------------------------------------
  // Runs of one machine

  /** A hibernate request, or any other event in the life of the state machine. */
  datatype Happening =
    | Hibernating(clearMemory: bool, lowCapacity: bool, o: Outside)
    | Other(e: MachineRuns.Event)

  predicate Legal(s: Outcome, h: Happening) { h.Other? ==> MachineRuns.Legal(s.m, h.e) }

  function Next(b: Build, s: Outcome, h: Happening): Outcome
    requires Legal(s, h)
  {
    match h
    case Hibernating(clearMemory, lowCapacity, o) => HibernateInner(b, s.m, s.events, clearMemory, lowCapacity, o)
    case Other(e) => Outcome(MachineRuns.Happens(b, s.m, e), s.events)
  }

  predicate LegalRun(b: Build, s: Outcome, hs: seq<Happening>)
    decreases |hs|
  {
    hs != [] ==> Legal(s, hs[0]) && LegalRun(b, Next(b, s, hs[0]), hs[1..])
  }

  function Run(b: Build, s: Outcome, hs: seq<Happening>): Outcome
    requires LegalRun(b, s, hs)
    decreases |hs|
  {
    if hs == [] then s else Run(b, Next(b, s, hs[0]), hs[1..])
  }

  /** Hibernate requests of the run that are not taken over. */
  function Started(hs: seq<Happening>): nat {
    if hs == [] then 0
    else (if hs[0].Hibernating? && !(hs[0].clearMemory && hs[0].o.takenOver) then 1 else 0) + Started(hs[1..])
  }

  lemma StepPairs(b: Build, s: Outcome, h: Happening)
    requires Legal(s, h) && !s.m.hibernating && s.events.entered == s.events.exited + s.events.shutdowns
    ensures var n := Next(b, s, h);
      && !n.m.hibernating && n.events.entered == n.events.exited + n.events.shutdowns
      && n.events.entered == s.events.entered + Started([h])
  {
    hide HibernateInner;
    match h
    case Hibernating(clearMemory, lowCapacity, o) =>
      FlagClearedEventsPaired(b, s.m, s.events, clearMemory, lowCapacity, o);
    case Other(e) =>
      hide MachineRuns.Happens;
      MachineRuns.GivensAfter(b, s.m, e);
  }

  /**
   * On every run of one machine, hibernate requests among any other events: between requests
   * the flag is clear, so no request is ever turned away because of an earlier one; each enter
   * event has its one exit event unless a shutdown was asked for; and there is one enter event
   * for each request that was not taken over.
   */
  lemma {:induction false} EventsPairedOverRuns(b: Build, s: Outcome, hs: seq<Happening>)
    requires LegalRun(b, s, hs) && !s.m.hibernating && s.events.entered == s.events.exited + s.events.shutdowns
    ensures var n := Run(b, s, hs);
      && !n.m.hibernating && n.events.entered == n.events.exited + n.events.shutdowns
      && n.events.entered == s.events.entered + Started(hs)
    decreases |hs|
  {
    hide Next, Legal;
    if hs != [] {
      StepPairs(b, s, hs[0]);
      EventsPairedOverRuns(b, Next(b, s, hs[0]), hs[1..]);
    }
  }
}
