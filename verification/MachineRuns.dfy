/**
 * Whole runs of the state machine: requests in any order, the pre-bright protocol, timer
 * tasks that start, displays that drift, locks that come and go.
 */
module MachineRuns {
  import opened PowerTypes
  import opened FfrtTimer
  import opened StateEngine
  import opened RequestLaws

  datatype Event =
    | Request(target: PowerState, reason: Reason, force: bool, env: Env)
    | PreBrightRequest(reason: Reason, env: Env)  // from a client
    | AuthTimeout(env: Env)                       // the authentication timer's task
    | Activity(env: Env)                          // RefreshActivityInner
    | Drift(display: DisplayState)                // the display changes by itself
    | ChangeLocks(locks: Locks)
    | ForceTimingOut(on: bool)
    | EnableDoze(on: bool)
    | TaskStarts(h: Handle)                       // a task of another timer leaves the queue
    | Pass(ms: nat)

  predicate Legal(m: Machine, e: Event) {
    match e
    case Request(target, reason, _, _) => Requestable(target, reason) && !PreBrightReason(reason)
    case PreBrightRequest(reason, _) => PreBrightReason(reason)
    case AuthTimeout(_) => Armed(m.timers, TIMER_ID_PRE_BRIGHT_AUTH)
    case TaskStarts(h) => h in m.timers.queue && h.id != TIMER_ID_PRE_BRIGHT_AUTH
    case _ => true
  }

  /** The authentication timer's task has left the queue. */
  function AuthFired(m: Machine): Machine
    requires Armed(m.timers, TIMER_ID_PRE_BRIGHT_AUTH)
  {
    m.(timers := Fire(m.timers, m.timers.stored[TIMER_ID_PRE_BRIGHT_AUTH]))
  }

  function Happens(b: Build, m: Machine, e: Event): Machine
    requires Legal(m, e)
  {
    match e
    case Request(target, reason, force, env) => SetState(b, m, target, reason, force, env).m
    case PreBrightRequest(reason, env) => PreBrightWakeUp(b, m, reason, false, env).m
    case AuthTimeout(env) => PreBrightWakeUp(b, AuthFired(m), AuthFailScreenOff, true, env).m
    case Activity(env) => RefreshActivity(b, m, env)
    case Drift(display) => m.(display := display)
    case ChangeLocks(locks) => m.(locks := locks)
    case ForceTimingOut(on) => m.(forceTimingOut := on)
    case EnableDoze(on) => m.(dozeEnabled := on)
    case TaskStarts(h) => m.(timers := Fire(m.timers, h))
    case Pass(ms) => m.(timers := Tick(m.timers, ms))
  }

  ghost predicate LegalRun(b: Build, m: Machine, es: seq<Event>)
    decreases |es|
  {
    es == [] || (Legal(m, es[0]) && LegalRun(b, Happens(b, m, es[0]), es[1..]))
  }

  ghost function Run(b: Build, m: Machine, es: seq<Event>): Machine
    requires LegalRun(b, m, es)
    decreases |es|
  {
    if es == [] then m else Run(b, Happens(b, m, es[0]), es[1..])
  }

  /** A run can be cut anywhere. */
  lemma {:induction false} LegalParts(b: Build, m: Machine, first: seq<Event>, rest: seq<Event>)
    requires LegalRun(b, m, first + rest)
    ensures LegalRun(b, m, first)
    ensures LegalRun(b, Run(b, m, first), rest)
    ensures Run(b, Run(b, m, first), rest) == Run(b, m, first + rest)
    decreases |first|
  {
    hide Happens, Legal;
    if first == [] {
      assert first + rest == rest;
    } else {
      assert (first + rest)[0] == first[0] && (first + rest)[1..] == first[1..] + rest;
      LegalParts(b, Happens(b, m, first[0]), first[1..], rest);
    }
  }

  lemma LegalPrefix(b: Build, m: Machine, es: seq<Event>, k: nat)
    requires LegalRun(b, m, es) && k <= |es|
    ensures LegalRun(b, m, es[..k])
    ensures LegalRun(b, Run(b, m, es[..k]), es[k..])
    ensures Run(b, Run(b, m, es[..k]), es[k..]) == Run(b, m, es)
  {
    hide LegalRun, Run;
    assert es[..k] + es[k..] == es;
    LegalParts(b, m, es[..k], es[k..]);
  }

  // ---------------------------------------------------------------------------------------
  // Paths that are never taken

  /** The event is a request that commits `target`. */
  ghost predicate CommitsBy(b: Build, m: Machine, e: Event, target: PowerState)
    requires Legal(m, e)
  {
    match e
    case Request(t, reason, force, env) => t == target && Committed(SetState(b, m, t, reason, force, env))
    case PreBrightRequest(reason, env) => target == Awake && Committed(PreBrightWakeUp(b, m, reason, false, env))
    case AuthTimeout(env) =>
      target == Awake && Committed(PreBrightWakeUp(b, AuthFired(m), AuthFailScreenOff, true, env))
    case Activity(env) =>
      && target == Awake && ScreenOn(m.display) && !IsSetting(m.flag, Inactive)
      && (m.current == Dim || IsSetting(m.flag, Dim)) && Committed(SetState(b, m, Awake, Refresh, true, env))
    case _ => false
  }

  lemma WakeTouchesTimers(b: Build, m: Machine, reason: Reason, timeoutTriggered: bool)
    ensures var n := BeforeWake(b, m, reason, timeoutTriggered); n == m.(timers := n.timers)
  {
  }

  /** What reconciliation can make of a state. */
  predicate Reconciled(from: PowerState, to: PowerState) {
    || to == from
    || (from in {Awake, Freeze} && to == Inactive)
    || (from in {Inactive, StandBy, Doze} && to in {Dim, Awake})
  }

  lemma FromOutline(m: Machine, target: PowerState)
    ensures Reconciled(m.current, From(m, target))
  {
  }

  /** The current state after an event is a committed target, or what reconciliation made of the old one. */
  lemma CurrentAfter(b: Build, m: Machine, e: Event)
    requires Legal(m, e)
    ensures var n := Happens(b, m, e);
      || Reconciled(m.current, n.current)
      || (n.current in {Awake, Inactive, Dim, Sleep, Hibernate} && CommitsBy(b, m, e, n.current))
  {
    hide SetState, AllowedByReason, Forbidden, CheckState, LocksAllow, BeforeWake, From, MatchState;
    forall t: PowerState, n: Machine ensures Reconciled(n.current, From(n, t)) { FromOutline(n, t); }
    match e
    case Request(target, reason, force, env) => RequestOutline(b, m, target, reason, force, env);
    case PreBrightRequest(reason, env) =>
      WakeTouchesTimers(b, m, reason, false);
      RequestOutline(b, BeforeWake(b, m, reason, false), Awake, reason, true, env);
    case AuthTimeout(env) =>
      WakeTouchesTimers(b, AuthFired(m), AuthFailScreenOff, true);
      RequestOutline(b, BeforeWake(b, AuthFired(m), AuthFailScreenOff, true), Awake, AuthFailScreenOff, true, env);
    case Activity(env) =>
      RequestOutline(b, m, Awake, Refresh, true, env);
      ResetOutline(b, m);
    case _ =>
  }

  /**
   * SLEEP is never committed from AWAKE or DIM, nor from HIBERNATE in the S4 build, and DIM
   * is never committed by a request that starts, after reconciliation, from INACTIVE or SLEEP.
   */
  lemma ForbiddenPaths(b: Build, m: Machine, e: Event, target: PowerState)
    requires Legal(m, e) && CommitsBy(b, m, e, target)
    ensures target == Sleep ==> m.current !in {Awake, Dim} && (b.s4 ==> m.current != Hibernate)
    ensures target == Dim ==> From(m, Dim) !in {Inactive, Sleep}
  {
    hide SetState, CheckState, AllowedByReason, LocksAllow, IgnoresLocks;
    if e.Request? {
      RequestOutline(b, m, e.target, e.reason, e.force, e.env);
    }
  }

  /**
   * On every run of the S4 build, however the display drifts, a device that is AWAKE, DIM or
   * HIBERNATE and later SLEEP has been INACTIVE in between.
   */
  lemma {:induction false} SleepOnlyThroughInactive(b: Build, m: Machine, es: seq<Event>)
    requires b.s4 && LegalRun(b, m, es)
    requires m.current in {Awake, Dim, Hibernate} && Run(b, m, es).current == Sleep
    ensures exists k :: 0 < k < |es| && LegalRun(b, m, es[..k]) && Run(b, m, es[..k]).current == Inactive
    decreases |es|
  {
    hide Happens, Legal, CommitsBy, From;
    var n := Happens(b, m, es[0]);
    CurrentAfter(b, m, es[0]);
    if n.current == Sleep {
      ForbiddenPaths(b, m, es[0], Sleep);
      assert false;
    }
    if n.current == Inactive {
      assert es[1..] != [];
      assert es[..1][1..] == [] && es[..1][0] == es[0];
      LegalPrefix(b, m, es, 1);
      assert Run(b, m, es[..1]).current == Inactive;
    } else {
      SleepOnlyThroughInactive(b, n, es[1..]);
      var k :| 0 < k < |es| - 1 && LegalRun(b, n, es[1..][..k]) && Run(b, n, es[1..][..k]).current == Inactive;
      LegalPrefix(b, m, es, k + 1);
      assert es[..k + 1][1..] == es[1..][..k] && es[..k + 1][0] == es[0];
      assert Run(b, m, es[..k + 1]).current == Inactive;
    }
  }

  // ---------------------------------------------------------------------------------------
  // Timeouts go down, and refreshes do not wake

  function Rank(s: PowerState): nat {
    match s
    case Awake => 3
    case Dim => 2
    case Inactive => 1
    case _ => 0
  }

  /** A committed timeout is strictly below the state it starts from, even if timing out is forced. */
  lemma TimeoutLowersRank(b: Build, m: Machine, target: PowerState, reason: Reason, force: bool, env: Env)
    requires IsTimeoutReason(reason) && Committed(SetState(b, m, target, reason, force, env))
    ensures Rank(target) < Rank(From(m, target)) && target in {Dim, Inactive, Sleep}
  {
    hide SetState, CheckState, LocksAllow, IgnoresLocks, From;
    RequestOutline(b, m, target, reason, force, env);
  }

  /** A refresh commits AWAKE only from DIM or AWAKE. */
  lemma RefreshNeverWakes(b: Build, m: Machine, target: PowerState, force: bool, env: Env)
    requires Committed(SetState(b, m, target, Refresh, force, env))
    ensures target == Awake && From(m, Awake) in {Dim, Awake}
  {
    hide SetState, CheckState, LocksAllow, IgnoresLocks, From;
    RequestOutline(b, m, target, Refresh, force, env);
  }

  /** Events of a run in which only timeouts ask for states and the display does not drift. */
  predicate TimeoutOnly(e: Event) {
    match e
    case Request(_, reason, _, _) => IsTimeoutReason(reason)
    case ChangeLocks(_) => true
    case ForceTimingOut(_) => true
    case EnableDoze(_) => true
    case TaskStarts(_) => true
    case Pass(_) => true
    case _ => false
  }

  predicate Settled(m: Machine) {
    DisplayAgrees(m.current, m.display) && m.current !in {Freeze, StandBy, Doze}
  }

  ghost function Commits(b: Build, m: Machine, es: seq<Event>): nat
    requires LegalRun(b, m, es)
    decreases |es|
  {
    if es == [] then 0
    else (if exists s :: CommitsBy(b, m, es[0], s) then 1 else 0) + Commits(b, Happens(b, m, es[0]), es[1..])
  }

  lemma TimeoutStep(b: Build, m: Machine, e: Event)
    requires Legal(m, e) && TimeoutOnly(e) && Settled(m)
    ensures var n := Happens(b, m, e);
      && Settled(n)
      && (if exists s :: CommitsBy(b, m, e, s) then Rank(n.current) < Rank(m.current) else n.current == m.current)
  {
    hide SetState, From;
    if e.Request? {
      RequestOutline(b, m, e.target, e.reason, e.force, e.env);
      MatchStateSettles(e.target, m.current, m.display);
      AgreementKept(b, m, e.target, e.reason, e.force, e.env);
      assert From(m, e.target) == m.current by { FromSettled(m, e.target); }
      if Committed(SetState(b, m, e.target, e.reason, e.force, e.env)) {
        TimeoutLowersRank(b, m, e.target, e.reason, e.force, e.env);
        assert CommitsBy(b, m, e, e.target);
      }
    }
  }

  lemma FromSettled(m: Machine, target: PowerState)
    requires Settled(m)
    ensures From(m, target) == m.current
  {
  }

  /**
   * From agreement between display and state, timeouts alone commit at most as many
   * transitions as there are ranks below the first state: at most three.
   */
  lemma {:induction false} TimeoutsTerminate(b: Build, m: Machine, es: seq<Event>)
    requires LegalRun(b, m, es) && Settled(m) && forall e | e in es :: TimeoutOnly(e)
    ensures Commits(b, m, es) + Rank(Run(b, m, es).current) <= Rank(m.current) <= 3
    decreases |es|
  {
    hide Happens, Legal, CommitsBy;
    if es != [] {
      TimeoutStep(b, m, es[0]);
      TimeoutsTerminate(b, Happens(b, m, es[0]), es[1..]);
    }
  }

  /** No event of the run wakes the device but perhaps a refresh, and the display does not drift. */
  predicate OnlyRefreshes(e: Event) {
    match e
    case Request(target, reason, _, _) => target in {Inactive, Dim, Sleep} || (target == Awake && reason.Refresh?)
    case PreBrightRequest(_, _) => false
    case AuthTimeout(_) => false
    case Drift(_) => false
    case _ => true
  }

  predicate Dark(m: Machine) { Settled(m) && m.current in {Inactive, Sleep} }

  lemma RefreshStep(b: Build, m: Machine, e: Event)
    requires Legal(m, e) && OnlyRefreshes(e) && Dark(m)
    ensures Dark(Happens(b, m, e))
  {
    hide SetState, From, MatchState, CheckState, LocksAllow, IgnoresLocks;
    match e
    case Request(target, reason, force, env) =>
      FromSettled(m, target);
      RequestOutline(b, m, target, reason, force, env);
      AgreementKept(b, m, target, reason, force, env);
      if target == Awake && Committed(SetState(b, m, target, reason, force, env)) {
        RefreshNeverWakes(b, m, target, force, env);
      }
    case Activity(env) =>
      FromSettled(m, Awake);
      if Committed(SetState(b, m, Awake, Refresh, true, env)) {
        RefreshNeverWakes(b, m, Awake, true, env);
      }
      RequestOutline(b, m, Awake, Refresh, true, env);
      AgreementKept(b, m, Awake, Refresh, true, env);
      ResetOutline(b, m);
    case _ =>
  }

  /**
   * From agreement between display and state, as long as nothing but refreshes asks for AWAKE,
   * a device that is INACTIVE or asleep never wakes or dims, whatever else happens: forced or
   * not, with running locks, timeouts and timer tasks coming and going.
   */
  lemma {:induction false} RefreshesNeverWakeOverRuns(b: Build, m: Machine, es: seq<Event>)
    requires LegalRun(b, m, es) && Dark(m) && forall e :: e in es ==> OnlyRefreshes(e)
    ensures Dark(Run(b, m, es))
    decreases |es|
  {
    hide Happens, Legal, Dark;
    if es != [] {
      assert es[0] in es;
      RefreshStep(b, m, es[0]);
      RefreshesNeverWakeOverRuns(b, Happens(b, m, es[0]), es[1..]);
    }
  }

  // ---------------------------------------------------------------------------------------
  // Running locks

  /**
   * A request commits DIM or INACTIVE while a screen lock is held, or SLEEP while a
   * coordination lock is, only if it is forced, or is a timeout while timing out is forced.
   */
  lemma LocksBlock(b: Build, m: Machine, e: Event, target: PowerState)
    requires Legal(m, e) && CommitsBy(b, m, e, target) && Blocked(m.locks, target)
    ensures e.Request? && (e.force || (IsTimeoutReason(e.reason) && m.forceTimingOut))
  {
    hide SetState, CheckState, Forbidden, AllowedByReason, From;
    if e.Request? {
      RequestOutline(b, m, e.target, e.reason, e.force, e.env);
    }
  }

  /** The lock stays and nothing is forced. */
  predicate Unforced(e: Event, target: PowerState) {
    match e
    case Request(_, _, force, _) => !force
    case ChangeLocks(locks) => Blocked(locks, target)
    case ForceTimingOut(on) => !on
    case _ => true
  }

  lemma GivensAfter(b: Build, m: Machine, e: Event)
    requires Legal(m, e)
    ensures var n := Happens(b, m, e);
      && n.locks == (if e.ChangeLocks? then e.locks else m.locks)
      && n.forceTimingOut == (if e.ForceTimingOut? then e.on else m.forceTimingOut)
      && n.hibernating == m.hibernating
  {
    hide SetState, ResetInactiveTimer, MatchState, CheckState, Forbidden, AllowedByReason, LocksAllow, BeforeWake;
    match e
    case Request(target, reason, force, env) => RequestOutline(b, m, target, reason, force, env);
    case PreBrightRequest(reason, env) =>
      WakeTouchesTimers(b, m, reason, false);
      RequestOutline(b, BeforeWake(b, m, reason, false), Awake, reason, true, env);
    case AuthTimeout(env) =>
      WakeTouchesTimers(b, AuthFired(m), AuthFailScreenOff, true);
      RequestOutline(b, BeforeWake(b, AuthFired(m), AuthFailScreenOff, true), Awake, AuthFailScreenOff, true, env);
    case Activity(env) =>
      RequestOutline(b, m, Awake, Refresh, true, env);
      ResetOutline(b, m);
    case _ =>
  }

  /** As long as the lock is held and nothing is forced, no event of any run commits the blocked state. */
  lemma {:induction false} LocksHoldOverRuns(b: Build, m: Machine, es: seq<Event>, target: PowerState, k: nat)
    requires LegalRun(b, m, es) && k < |es|
    requires Blocked(m.locks, target) && !m.forceTimingOut && forall e | e in es :: Unforced(e, target)
    ensures LegalRun(b, m, es[..k]) && Legal(Run(b, m, es[..k]), es[k])
    ensures !CommitsBy(b, Run(b, m, es[..k]), es[k], target)
    decreases |es|
  {
    hide Happens, Legal, CommitsBy, Blocked;
    LegalPrefix(b, m, es, k);
    assert es[0] in es;
    if k == 0 {
      assert es[..0] == [];
      if CommitsBy(b, m, es[0], target) {
        LocksBlock(b, m, es[0], target);
      }
    } else {
      GivensAfter(b, m, es[0]);
      LocksHoldOverRuns(b, Happens(b, m, es[0]), es[1..], target, k - 1);
      assert es[..k][1..] == es[1..][..k - 1] && es[..k][0] == es[0];
    }
  }
}
