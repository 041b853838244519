/**
 * The pre-bright protocol over whole runs: a wakeup that must be followed, within a time
 * limit, by exactly one authentication result.
 */
module PreBrightProtocol {
  import opened PowerTypes
  import opened FfrtTimer
  import opened StateEngine
  import opened RequestLaws
  import opened MachineRuns

  const AUTH: TimerId := TIMER_ID_PRE_BRIGHT_AUTH

  // ---------------------------------------------------------------------------------------
  // The authentication timer is touched by the protocol only

  lemma ArmEffect(v: TimerView, id: TimerId, delay: int, other: TimerId)
    requires Coherent(v)
    ensures Coherent(Arm(v, id, delay)) && Armed(Arm(v, id, delay), id)
    ensures other != id ==> (Armed(Arm(v, id, delay), other) <==> Armed(v, other))
  {
    ArmRefines(v, id, delay);
  }

  lemma DisarmEffect(v: TimerView, id: TimerId, other: TimerId)
    requires Coherent(v)
    ensures Coherent(Disarm(v, id)) && !Armed(Disarm(v, id), id)
    ensures other != id ==> (Armed(Disarm(v, id), other) <==> Armed(v, other))
  {
    DisarmRefines(v, id);
  }

  /** Timers and protocol state, except that the authentication timer and state are the same. */
  ghost predicate SameProtocol(m: Machine, n: Machine) {
    n.preBright == m.preBright && Coherent(n.timers) && (Armed(n.timers, AUTH) <==> Armed(m.timers, AUTH))
  }

  lemma CancelEffect(v: TimerView)
    requires Coherent(v)
    ensures Coherent(CancelActivityTimers(v)) && (Armed(CancelActivityTimers(v), AUTH) <==> Armed(v, AUTH))
  {
    hide Coherent, Armed, Disarm;
    DisarmEffect(v, TIMER_ID_USER_ACTIVITY_TIMEOUT, AUTH);
    DisarmEffect(Disarm(v, TIMER_ID_USER_ACTIVITY_TIMEOUT), TIMER_ID_USER_ACTIVITY_OFF, AUTH);
  }

  lemma ResetEffect(b: Build, m: Machine)
    requires Coherent(m.timers)
    ensures SameProtocol(m, ResetInactiveTimer(b, m))
  {
    hide Coherent, Armed, Arm, CancelActivityTimers, DimTime, Interrupt;
    CancelEffect(m.timers);
    var t := CancelActivityTimers(m.timers);
    ArmEffect(t, TIMER_ID_USER_ACTIVITY_TIMEOUT, m.off.effective - DimTime(b, m.off.effective), AUTH);
    ArmEffect(t, TIMER_ID_USER_ACTIVITY_TIMEOUT,
              if b.activeBeforeDim == UNDEFINED_ACTIVE_TIME then DEFAULT_ACTIVE_TIME_MS else b.activeBeforeDim, AUTH);
  }

  lemma DimFirstHalfEffect(b: Build, m: Machine, reason: Reason, env: Env)
    requires Coherent(m.timers)
    ensures SameProtocol(m, DimFirstHalf(b, m, reason, env))
  {
    hide Coherent, Armed, Arm, CancelActivityTimers, DimTimeFor, Interrupt;
    CancelEffect(m.timers);
    ArmEffect(CancelActivityTimers(m.timers), TIMER_ID_USER_ACTIVITY_OFF, DimTimeFor(b, m, reason), AUTH);
  }

  lemma ActionEffect(b: Build, m: Machine, target: PowerState, reason: Reason, env: Env)
    requires Coherent(m.timers)
    ensures SameProtocol(m, Action(b, m, target, reason, env).m)
  {
    hide Coherent, Armed, ResetInactiveTimer, CancelActivityTimers, DimFirstHalf;
    forall n: Machine | n.timers == m.timers && n.preBright == m.preBright
      ensures SameProtocol(m, ResetInactiveTimer(b, n))
    {
      ResetEffect(b, n);
    }
    CancelEffect(m.timers);
    DimFirstHalfEffect(b, m, reason, env);
    ResetEffect(b, SetDisplay(DimFirstHalf(b, m, reason, env), DisplayOn, env.restoreOk));
  }

  /** The authentication timer runs exactly while an authentication result is awaited. */
  ghost predicate InStep(m: Machine) {
    Coherent(m.timers) && (m.preBright.Started? <==> Armed(m.timers, AUTH))
  }

  /** How the protocol's gate moves on; an authentication result finds the timer stopped already. */
  lemma GateEffect(m: Machine, target: PowerState, reason: Reason)
    requires if IsPreBrightAuthReason(reason) then Coherent(m.timers) && !Armed(m.timers, AUTH) else InStep(m)
    ensures InStep(HandlePreBright(m, target, reason).m)
    ensures reason.PreBright? ==> HandlePreBright(m, target, reason).m.preBright.Started?
  {
    hide Coherent, Armed, Arm, Disarm;
    DisarmEffect(m.timers, AUTH, AUTH);
    ArmEffect(m.timers, AUTH, PRE_BRIGHT_AUTH_TIMER_DELAY_MS, AUTH);
    ArmEffect(Disarm(m.timers, AUTH), AUTH, PRE_BRIGHT_AUTH_TIMER_DELAY_MS, AUTH);
  }

  /** Nothing but the protocol itself can turn a pre-bright request away. */
  lemma PreBrightRequestsPass(b: Build, m: Machine, reason: Reason, env: Env)
    requires PreBrightReason(reason)
    ensures Check(b, m, Awake, reason, true, env) == Step(m, Success)
  {
  }

  /** The checks of a request, before the protocol's gate. */
  function Checked(b: Build, m: Machine, target: PowerState, reason: Reason, force: bool, env: Env): Step {
    Check(b, Matched(m.(flag := FlagFor(target, reason)), target), target, reason, IgnoresLocks(m, reason, force), env)
  }

  /** Protocol state and timers of `n` are those of `m`. */
  predicate SameTimers(m: Machine, n: Machine) { n.preBright == m.preBright && n.timers == m.timers }

  /** What gate and action make of a machine whose checks have passed. */
  function GateAndAction(b: Build, checked: Machine, target: PowerState, reason: Reason, env: Env): Step {
    var gate := HandlePreBright(checked, target, reason);
    if gate.go then Action(b, gate.m, target, reason, env) else Step(gate.m, PreBrightErr)
  }

  lemma TransitPassage(b: Build, m: Machine, target: PowerState, reason: Reason, ignoreLock: bool, env: Env)
    ensures var s := TransitTo(b, m, target, reason, ignoreLock, env);
      var checked := Check(b, Matched(m, target), target, reason, ignoreLock, env);
      && SameTimers(m, checked.m)
      && (!checked.result.Success? ==> SameTimers(m, s.m) && !s.result.Success?)
      && (checked.result.Success? ==>
            var done := GateAndAction(b, checked.m, target, reason, env);
            SameTimers(done.m, s.m) && s.result == done.result)
  {
    hide Check, HandlePreBright, Action, Finish, MatchState;
    CheckOutline(b, Matched(m, target), target, reason, ignoreLock, env);
    var checked := Check(b, Matched(m, target), target, reason, ignoreLock, env);
    var gate := HandlePreBright(checked.m, target, reason);
    FinishKeeps(b, Action(b, gate.m, target, reason, env), target, env);
  }

  /** A request stops before the gate and leaves the protocol alone, or goes through gate and action. */
  lemma Passage(b: Build, m: Machine, target: PowerState, reason: Reason, force: bool, env: Env)
    ensures var a := SetState(b, m, target, reason, force, env);
      var checked := Checked(b, m, target, reason, force, env);
      && SameTimers(m, checked.m)
      && (!TaskAvailable(b, m.timers, target, reason, env.task) || !checked.result.Success? ==>
            SameTimers(m, a.m) && !Committed(a))
      && (TaskAvailable(b, m.timers, target, reason, env.task) && checked.result.Success? ==>
            var done := GateAndAction(b, checked.m, target, reason, env);
            SameTimers(done.m, a.m) && a.verdict == Done(done.result))
  {
    hide TaskAvailable, Check, TransitTo, GateAndAction, FlagFor, Matched, IgnoresLocks;
    TransitPassage(b, m.(flag := FlagFor(target, reason)), target, reason, IgnoresLocks(m, reason, force), env);
  }

  lemma FinishKeeps(b: Build, s: Step, target: PowerState, env: Env)
    ensures var n := Finish(b, s, target, env);
      n.m.preBright == s.m.preBright && n.m.timers == s.m.timers && n.result == s.result
  {
  }

  /** Pre-bright requests are never turned away before the gate. */
  lemma PreBrightReachesGate(b: Build, m: Machine, reason: Reason, env: Env)
    requires PreBrightReason(reason)
    ensures TaskAvailable(b, m.timers, Awake, reason, env.task) && Checked(b, m, Awake, reason, true, env).result.Success?
  {
    hide Check, MatchState, FlagFor;
    PreBrightRequestsPass(b, Matched(m.(flag := FlagFor(Awake, reason)), Awake), reason, env);
  }

  lemma RequestEffect(b: Build, m: Machine, target: PowerState, reason: Reason, force: bool, env: Env)
    requires if IsPreBrightAuthReason(reason) then Coherent(m.timers) && !Armed(m.timers, AUTH) else InStep(m)
    requires PreBrightReason(reason) ==> target == Awake && force
    ensures InStep(SetState(b, m, target, reason, force, env).m)
  {
    hide Coherent, Armed, TaskAvailable, SetState, Checked, HandlePreBright, Action;
    Passage(b, m, target, reason, force, env);
    if PreBrightReason(reason) {
      PreBrightReachesGate(b, m, reason, env);
    }
    var checked := Checked(b, m, target, reason, force, env).m;
    GateEffect(checked, target, reason);
    ActionEffect(b, HandlePreBright(checked, target, reason).m, target, reason, env);
  }

  /** Before its request, a wakeup with a result stops the authentication timer and otherwise leaves it alone. */
  lemma BeforeWakeEffect(b: Build, m: Machine, reason: Reason, timeoutTriggered: bool)
    requires Coherent(m.timers)
    ensures var n := BeforeWake(b, m, reason, timeoutTriggered);
      && n == m.(timers := n.timers) && Coherent(n.timers)
      && (Armed(n.timers, AUTH) <==>
          Armed(m.timers, AUTH) && (timeoutTriggered || !IsPreBrightAuthReason(reason)))
  {
    hide Coherent, Armed, Disarm;
    DisarmEffect(m.timers, TIMER_ID_SLEEP, AUTH);
    DisarmEffect(Disarm(m.timers, TIMER_ID_SLEEP), TIMER_ID_AUTO_SLEEP, AUTH);
    DisarmEffect(StopSleep(b, m).timers, AUTH, AUTH);
  }

  lemma EventInStep(b: Build, m: Machine, e: Event)
    requires Legal(m, e) && InStep(m)
    ensures InStep(Happens(b, m, e))
  {
    match e
    case Request(target, reason, force, env) =>
      hide SetState;
      RequestEffect(b, m, target, reason, force, env);
    case PreBrightRequest(reason, env) =>
      hide SetState, BeforeWake;
      BeforeWakeEffect(b, m, reason, false);
      RequestEffect(b, BeforeWake(b, m, reason, false), Awake, reason, true, env);
    case AuthTimeout(env) =>
      hide SetState, BeforeWake;
      BeforeWakeEffect(b, AuthFired(m), AuthFailScreenOff, true);
      RequestEffect(b, BeforeWake(b, AuthFired(m), AuthFailScreenOff, true), Awake, AuthFailScreenOff, true, env);
    case Activity(env) =>
      hide SetState, ResetInactiveTimer;
      RequestEffect(b, m, Awake, Refresh, true, env);
      ResetEffect(b, m);
    case TaskStarts(h) =>
    case Pass(ms) =>
    case _ =>
  }

  /**
   * On every run, with each entry point and each start of a timer task as one step: an
   * authentication result is awaited exactly while the authentication timer is armed.
   */
  lemma {:induction false} InStepOverRuns(b: Build, m: Machine, es: seq<Event>)
    requires LegalRun(b, m, es) && InStep(m)
    ensures InStep(Run(b, m, es))
    decreases |es|
  {
    hide Happens, Legal, InStep;
    if es != [] {
      EventInStep(b, m, es[0]);
      InStepOverRuns(b, Happens(b, m, es[0]), es[1..]);
    }
  }

  // ---------------------------------------------------------------------------------------
  // Results are accepted once, and only after a start

  predicate IsStart(e: Event) { e.PreBrightRequest? && e.reason.PreBright? }

  /** The event delivers an authentication result, and the protocol lets it through. */
  ghost predicate Accepts(b: Build, m: Machine, e: Event)
    requires Legal(m, e)
  {
    match e
    case PreBrightRequest(reason, env) =>
      IsPreBrightAuthReason(reason) && PreBrightWakeUp(b, m, reason, false, env).verdict != Done(PreBrightErr)
    case AuthTimeout(env) =>
      PreBrightWakeUp(b, AuthFired(m), AuthFailScreenOff, true, env).verdict != Done(PreBrightErr)
    case _ => false
  }

  /** What a request does to the protocol state. */
  lemma ProtocolState(b: Build, m: Machine, target: PowerState, reason: Reason, force: bool, env: Env)
    requires Coherent(m.timers) && (PreBrightReason(reason) ==> target == Awake && force)
    ensures var a := SetState(b, m, target, reason, force, env);
      && (reason.PreBright? ==> a.m.preBright.Started?)
      && (IsPreBrightAuthReason(reason) ==>
            !a.m.preBright.Started? && (a.verdict == Done(PreBrightErr) <==> !m.preBright.Started?))
      && (!PreBrightReason(reason) && a.m.preBright.Started? ==> m.preBright.Started?)
  {
    hide Coherent, TaskAvailable, SetState, Checked, Action, Armed, Arm, Disarm;
    Passage(b, m, target, reason, force, env);
    if PreBrightReason(reason) {
      PreBrightReachesGate(b, m, reason, env);
    }
    var checked := Checked(b, m, target, reason, force, env).m;
    GateCoherent(checked, target, reason);
    var gated := HandlePreBright(checked, target, reason).m;
    ActionEffect(b, gated, target, reason, env);
    ActionResults(b, gated, target, reason, env);
  }

  lemma GateCoherent(m: Machine, target: PowerState, reason: Reason)
    requires Coherent(m.timers)
    ensures Coherent(HandlePreBright(m, target, reason).m.timers)
  {
    hide Coherent, Armed, Arm, Disarm;
    DisarmEffect(m.timers, AUTH, AUTH);
    ArmEffect(m.timers, AUTH, PRE_BRIGHT_AUTH_TIMER_DELAY_MS, AUTH);
    ArmEffect(Disarm(m.timers, AUTH), AUTH, PRE_BRIGHT_AUTH_TIMER_DELAY_MS, AUTH);
  }

  lemma ActionResults(b: Build, m: Machine, target: PowerState, reason: Reason, env: Env)
    ensures !Action(b, m, target, reason, env).result.PreBrightErr?
  {
    hide ResetInactiveTimer, DimFirstHalf, SetDisplay, CancelActivityTimers;
  }

  /** A result is accepted iff one is awaited; then none is awaited until the next start. */
  lemma StartedAfter(b: Build, m: Machine, e: Event)
    requires Legal(m, e) && InStep(m)
    ensures Accepts(b, m, e) ==> m.preBright.Started? && !Happens(b, m, e).preBright.Started?
    ensures Happens(b, m, e).preBright.Started? ==> IsStart(e) || m.preBright.Started?
  {
    hide SetState, ResetInactiveTimer, Coherent, BeforeWake, Fire;
    match e
    case Request(target, reason, force, env) => ProtocolState(b, m, target, reason, force, env);
    case PreBrightRequest(reason, env) =>
      BeforeWakeEffect(b, m, reason, false);
      ProtocolState(b, BeforeWake(b, m, reason, false), Awake, reason, true, env);
    case AuthTimeout(env) =>
      assert Coherent(AuthFired(m).timers) by { FireCoherent(m.timers, m.timers.stored[AUTH]); }
      BeforeWakeEffect(b, AuthFired(m), AuthFailScreenOff, true);
      ProtocolState(b, BeforeWake(b, AuthFired(m), AuthFailScreenOff, true), Awake, AuthFailScreenOff, true, env);
    case Activity(env) =>
      ProtocolState(b, m, Awake, Refresh, true, env);
      ResetEffect(b, m);
    case _ =>
  }

  lemma FireCoherent(v: TimerView, h: Handle)
    requires Coherent(v)
    ensures Coherent(Fire(v, h))
  {
  }

  ghost function Starts(es: seq<Event>): nat {
    if es == [] then 0 else (if IsStart(es[0]) then 1 else 0) + Starts(es[1..])
  }

  ghost function AcceptedResults(b: Build, m: Machine, es: seq<Event>): nat
    requires LegalRun(b, m, es)
    decreases |es|
  {
    if es == [] then 0
    else (if Accepts(b, m, es[0]) then 1 else 0) + AcceptedResults(b, Happens(b, m, es[0]), es[1..])
  }

  function Awaited(m: Machine): nat { if m.preBright.Started? then 1 else 0 }

  /** Accepted results never outnumber starts. */
  lemma {:induction false} ResultsNeverExceedStarts(b: Build, m: Machine, es: seq<Event>)
    requires LegalRun(b, m, es) && InStep(m)
    ensures AcceptedResults(b, m, es) + Awaited(Run(b, m, es)) <= Starts(es) + Awaited(m)
    decreases |es|
  {
    hide Happens, Legal, InStep, Accepts, IsStart;
    if es != [] {
      EventInStep(b, m, es[0]);
      StartedAfter(b, m, es[0]);
      ResultsNeverExceedStarts(b, Happens(b, m, es[0]), es[1..]);
    }
  }

  /** If no result is awaited, the next accepted one comes after a start. */
  lemma {:induction false} StartBeforeResult(b: Build, m: Machine, es: seq<Event>, j: nat)
    requires LegalRun(b, m, es) && InStep(m) && !m.preBright.Started? && j < |es|
    requires LegalRun(b, m, es[..j]) && Legal(Run(b, m, es[..j]), es[j]) && Accepts(b, Run(b, m, es[..j]), es[j])
    ensures exists k :: 0 <= k < j && IsStart(es[k])
    decreases |es|
  {
    hide Happens, Legal, InStep, Accepts, IsStart;
    assert es[..0] == [];
    StartedAfter(b, m, es[0]);
    EventInStep(b, m, es[0]);
    var n := Happens(b, m, es[0]);
    if j == 0 {
      assert false;
    }
    assert es[..j][1..] == es[1..][..j - 1] && es[..j][0] == es[0];
    if !n.preBright.Started? {
      StartBeforeResult(b, n, es[1..], j - 1);
      var k :| 0 <= k < j - 1 && IsStart(es[1..][k]);
      assert IsStart(es[k + 1]);
    }
  }

  /** Between two accepted results there is a fresh start, so a duplicate is never accepted. */
  lemma FreshStartBetweenResults(b: Build, m: Machine, es: seq<Event>, i: nat, j: nat)
    requires LegalRun(b, m, es) && InStep(m) && i < j < |es|
    requires LegalRun(b, m, es[..i]) && Legal(Run(b, m, es[..i]), es[i]) && Accepts(b, Run(b, m, es[..i]), es[i])
    requires LegalRun(b, m, es[..j]) && Legal(Run(b, m, es[..j]), es[j]) && Accepts(b, Run(b, m, es[..j]), es[j])
    ensures exists k :: i < k < j && IsStart(es[k])
  {
    hide Happens, Legal, InStep, Accepts, IsStart;
    LegalPrefix(b, m, es, i + 1);
    LegalPrefix(b, m, es[..i + 1], i);
    assert es[..i + 1][..i] == es[..i] && es[..i + 1][i..] == [es[i]];
    InStepOverRuns(b, m, es[..i]);
    InStepOverRuns(b, m, es[..i + 1]);
    StartedAfter(b, Run(b, m, es[..i]), es[i]);
    var n := Run(b, m, es[..i + 1]);
    assert n == Happens(b, Run(b, m, es[..i]), es[i]);
    var rest := es[i + 1..];
    LegalPrefix(b, m, es[..j], i + 1);
    assert es[..j][..i + 1] == es[..i + 1] && es[..j][i + 1..] == rest[..j - i - 1];
    StartBeforeResult(b, n, rest, j - i - 1);
    var k :| 0 <= k < j - i - 1 && IsStart(rest[k]);
    assert IsStart(es[k + i + 1]);
  }

  /** A late or duplicate result, or a timeout of a protocol that is over, commits nothing. */
  lemma LateResultCommitsNothing(b: Build, m: Machine, reason: Reason, timeoutTriggered: bool, env: Env)
    requires IsPreBrightAuthReason(reason) && !m.preBright.Started?
    ensures var a := PreBrightWakeUp(b, m, reason, timeoutTriggered, env);
      && a.verdict == Done(PreBrightErr)
      && a.m.current == From(m, Awake) && a.m.display == m.display && a.m.notices == m.notices
      && a.m.preBright == m.preBright
      && a.m.timers == BeforeWake(b, m, reason, timeoutTriggered).timers
  {
    hide MatchState, Check, Disarm, TaskAvailable, Action, NeedNotify;
    var m0 := BeforeWake(b, m, reason, timeoutTriggered);
    assert TaskAvailable(b, m0.timers, Awake, reason, env.task) by { PreBrightReachesGate(b, m0, reason, env); }
    PreBrightRequestsPass(b, Matched(m0.(flag := FlagFor(Awake, reason)), Awake), reason, env);
  }
}
