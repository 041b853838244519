/**
 * One request to DIM interleaved, at the granularity of single atomic accesses and timer
 * calls, with any number of threads that run `ResetInactiveTimer` without the state mutex.
 * The screen-off time is fixed and not negative.
 */
module DimInterrupt {
  import opened PowerTypes
  import opened FfrtTimer
  import opened StateEngine
  import opened RequestLaws
  import MachineRuns

  /**
   * What is fixed for the request: whether its reason is coordination, display and power state
   * when it takes the mutex, the power state it reconciles to, whether it is admitted, and
   * whether the two display calls succeed.
   */
  datatype Call = Call(
    coordination: bool, display: DisplayState, current: PowerState, entry: PowerState,
    admitted: bool, displayOk: bool, restoreOk: bool)

  /** The next step of the thread that sets DIM. */
  datatype SetterPc =
    | ToLock | ToFlag | ToCheck | ToDim | ToCancelIdle | ToCancelOff | ToArmOff | ToLook
    | ToRestore | ToExchange | ToCancelIdleAgain | ToCancelOffAgain | ToArmIdle
    | ToCommit | ToClear | ToUnlock | Through

  /** The next step of a thread in `ResetInactiveTimer`. */
  datatype CallerPc = CallerExchange | CallerCancelIdle | CallerCancelOff | CallerArmIdle | Returned

  datatype State = State(
    setter: SetterPc, callers: map<nat, CallerPc>,
    flag: SettingFlag, current: PowerState, display: DisplayState,
    idleArmed: bool, offArmed: bool,  // the inactivity and the screen-off timer
    hit: bool,                        // some caller won its compare-exchange before the setter's look
    exchanged: map<nat, SetterPc>,    // where the setter stood when a caller ran its compare-exchange
    late: set<nat>)                   // the callers that cancelled the screen-off timer after the setter armed it

  datatype Action = Setter | Arrive(id: nat) | Caller(id: nat)

  predicate Enabled(s: State, a: Action) {
    match a
    case Setter => s.setter != Through
    case Arrive(id) => id !in s.callers
    case Caller(id) => id in s.callers && s.callers[id] != Returned
  }

  /** The setter has not yet looked whether it was interrupted. */
  predicate BeforeLook(pc: SetterPc) {
    pc in {ToLock, ToFlag, ToCheck, ToDim, ToCancelIdle, ToCancelOff, ToArmOff, ToLook}
  }

  predicate OffWasArmed(pc: SetterPc) {
    pc !in {ToLock, ToFlag, ToCheck, ToDim, ToCancelIdle, ToCancelOff, ToArmOff}
  }

  function SetterStep(c: Call, s: State): State
    requires s.setter != Through
  {
    match s.setter
    case ToLock => s.(setter := ToFlag)
    case ToFlag => s.(setter := ToCheck, flag := if c.coordination then ForceSettingDim else Setting(Dim))
    case ToCheck => s.(setter := if c.admitted then ToDim else ToClear, current := c.entry)
    case ToDim => s.(setter := ToCancelIdle, display := if c.displayOk then DisplayDim else s.display)
    case ToCancelIdle => s.(setter := ToCancelOff, idleArmed := false)
    case ToCancelOff => s.(setter := ToArmOff, offArmed := false)
    case ToArmOff => s.(setter := ToLook, offArmed := true)
    case ToLook => s.(setter := if s.flag == SettingDimInterrupted then ToRestore else ToCommit)
    case ToRestore => s.(setter := ToExchange, display := if c.restoreOk then DisplayOn else s.display)
    case ToExchange => s.(setter := ToCancelIdleAgain, flag := Interrupt(s.flag))
    case ToCancelIdleAgain => s.(setter := ToCancelOffAgain, idleArmed := false)
    case ToCancelOffAgain => s.(setter := ToArmIdle, offArmed := false)
    case ToArmIdle => s.(setter := ToClear, idleArmed := true)
    case ToCommit => s.(setter := ToClear, current := if c.displayOk then Dim else s.current)
    case ToClear => s.(setter := ToUnlock, flag := NoSetting)
    case ToUnlock => s.(setter := Through)
  }

  function CallerStep(s: State, id: nat): State
    requires id in s.callers && s.callers[id] != Returned
  {
    match s.callers[id]
    case CallerExchange =>
      s.(callers := s.callers[id := CallerCancelIdle], flag := Interrupt(s.flag),
         hit := s.hit || (s.flag == Setting(Dim) && BeforeLook(s.setter)), exchanged := s.exchanged[id := s.setter])
    case CallerCancelIdle => s.(callers := s.callers[id := CallerCancelOff], idleArmed := false)
    case CallerCancelOff =>
      s.(callers := s.callers[id := CallerArmIdle], offArmed := false,
         late := if OffWasArmed(s.setter) then s.late + {id} else s.late)
    case CallerArmIdle => s.(callers := s.callers[id := Returned], idleArmed := true)
  }

  function Next(c: Call, s: State, a: Action): State
    requires Enabled(s, a)
  {
    match a
    case Setter => SetterStep(c, s)
    case Arrive(id) => s.(callers := s.callers[id := CallerExchange])
    case Caller(id) => CallerStep(s, id)
  }

  predicate Legal(c: Call, s: State, acts: seq<Action>)
    decreases |acts|
  {
    acts != [] ==> Enabled(s, acts[0]) && Legal(c, Next(c, s, acts[0]), acts[1..])
  }

  function After(c: Call, s: State, acts: seq<Action>): State
    requires Legal(c, s, acts)
    decreases |acts|
  {
    if acts == [] then s else After(c, Next(c, s, acts[0]), acts[1..])
  }

  /** The request is about to take the mutex; other threads may be anywhere. */
  ghost predicate Start(c: Call, s: State) {
    && s.setter == ToLock && s.flag == NoSetting && !s.hit && s.exchanged == map[] && s.late == {}
    && s.current == c.current && s.display == c.display
  }

  predicate MutexFree(s: State) { s.setter == ToLock || s.setter == Through }

  /** Somebody is between cancelling and arming the inactivity timer. */
  ghost predicate WillArmIdle(callers: map<nat, CallerPc>) {
    exists id :: id in callers && (callers[id] == CallerCancelOff || callers[id] == CallerArmIdle)
  }

  ghost predicate AllReturned(s: State) {
    s.setter == Through && forall id :: id in s.callers ==> s.callers[id] == Returned
  }

  // ---------------------------------------------------------------------------------------
  // Invariant

  ghost predicate FlagInv(c: Call, s: State) {
    && (s.setter in {ToLock, ToFlag, ToUnlock, Through} ==> s.flag == NoSetting)
    && (s.setter !in {ToLock, ToFlag, ToUnlock, Through} ==>
          if c.coordination then s.flag == ForceSettingDim else s.flag in {Setting(Dim), SettingDimInterrupted})
    && (BeforeLook(s.setter) ==> (s.hit <==> s.flag == SettingDimInterrupted))
    && (s.hit ==> !c.coordination)
  }

  /** Has the setter gone through its action, and is the outcome settled? */
  predicate Interrupted(pc: SetterPc) {
    pc in {ToRestore, ToExchange, ToCancelIdleAgain, ToCancelOffAgain, ToArmIdle}
  }

  predicate Settled(pc: SetterPc) { pc in {ToClear, ToUnlock, Through} }

  ghost predicate ScreenInv(c: Call, s: State) {
    && (s.setter in {ToLock, ToFlag, ToCheck} ==> s.current == c.current && s.display == c.display)
    && (s.setter == ToDim ==> s.current == c.entry && s.display == c.display)
    && (s.setter !in {ToLock, ToFlag, ToCheck} && !Settled(s.setter) ==> c.admitted && s.current == c.entry)
    && (s.setter in {ToCancelIdle, ToCancelOff, ToArmOff, ToLook, ToRestore, ToCommit} ==>
          s.display == if c.displayOk then DisplayDim else c.display)
    && (s.setter == ToCommit ==> !s.hit)
    && (Interrupted(s.setter) ==> s.hit)
    && (Interrupted(s.setter) && s.setter != ToRestore ==> s.display == DisplayAfter(c, true))
    && (Settled(s.setter) ==> Outcome(c, s))
  }

  function DisplayAfter(c: Call, hit: bool): DisplayState {
    if c.admitted && hit && c.restoreOk then DisplayOn
    else if c.admitted && c.displayOk then DisplayDim
    else c.display
  }

  function CurrentAfter(c: Call, hit: bool): PowerState {
    if c.admitted && !hit && c.displayOk then Dim else c.entry
  }

  /** Power state and display once the action is over. */
  ghost predicate Outcome(c: Call, s: State) {
    s.current == CurrentAfter(c, s.hit) && s.display == DisplayAfter(c, s.hit)
  }

  ghost predicate TimerInv(c: Call, s: State) {
    && (!OffWasArmed(s.setter) ==> s.late == {})
    && (s.setter in {ToLook, ToCommit} ==> (s.offArmed <==> s.late == {}))
    && (s.setter == ToArmIdle ==> !s.offArmed)
    && (s.setter in {ToCancelOff, ToArmOff, ToLook, ToCommit} && s.callers == map[] ==> !s.idleArmed)
    && (Settled(s.setter) && c.admitted && !s.hit && s.callers == map[] ==> !s.idleArmed)
    && (Settled(s.setter) && c.admitted ==> if s.hit then !s.offArmed else s.offArmed <==> s.late == {})
    && (Settled(s.setter) && c.admitted && s.hit ==> s.idleArmed || WillArmIdle(s.callers))
  }

  ghost predicate Inv(c: Call, s: State) { FlagInv(c, s) && ScreenInv(c, s) && TimerInv(c, s) }

  lemma CallerKeepsArming(s: State, id: nat)
    requires id in s.callers && s.callers[id] != Returned
    requires s.idleArmed || WillArmIdle(s.callers)
    ensures var n := CallerStep(s, id); n.idleArmed || WillArmIdle(n.callers)
  {
    var n := CallerStep(s, id);
    if !n.idleArmed {
      if s.callers[id] == CallerCancelIdle {
        assert n.callers[id] == CallerCancelOff;
      } else {
        var w :| w in s.callers && (s.callers[w] == CallerCancelOff || s.callers[w] == CallerArmIdle);
        assert w in n.callers && (n.callers[w] == CallerCancelOff || n.callers[w] == CallerArmIdle);
      }
    }
  }

  lemma CallerKeepsFlag(c: Call, s: State, id: nat)
    requires id in s.callers && s.callers[id] != Returned && FlagInv(c, s)
    ensures FlagInv(c, CallerStep(s, id))
  {
  }

  lemma CallerKeepsScreen(c: Call, s: State, id: nat)
    requires id in s.callers && s.callers[id] != Returned && FlagInv(c, s) && ScreenInv(c, s)
    ensures ScreenInv(c, CallerStep(s, id))
  {
    hide FlagInv;
    assert CallerStep(s, id).hit == s.hit || BeforeLook(s.setter);
  }

  lemma CallerKeepsTimers(c: Call, s: State, id: nat)
    requires id in s.callers && s.callers[id] != Returned && TimerInv(c, s)
    ensures TimerInv(c, CallerStep(s, id))
  {
    hide WillArmIdle;
    assert id in CallerStep(s, id).callers;
    if s.idleArmed || WillArmIdle(s.callers) {
      CallerKeepsArming(s, id);
    }
  }

  lemma CallerKeepsInv(c: Call, s: State, id: nat)
    requires id in s.callers && s.callers[id] != Returned && Inv(c, s)
    ensures Inv(c, CallerStep(s, id))
  {
    hide FlagInv, ScreenInv, TimerInv, CallerStep;
    CallerKeepsFlag(c, s, id);
    CallerKeepsScreen(c, s, id);
    CallerKeepsTimers(c, s, id);
  }

  lemma SetterKeepsFlag(c: Call, s: State)
    requires s.setter != Through && FlagInv(c, s)
    ensures FlagInv(c, SetterStep(c, s))
  {
  }

  lemma SetterKeepsScreen(c: Call, s: State)
    requires s.setter != Through && FlagInv(c, s) && ScreenInv(c, s)
    ensures ScreenInv(c, SetterStep(c, s))
  {
    hide SetterStep, ScreenInv, FlagInv;
    if BeforeLook(s.setter) {
      KeepsScreenBeforeLook(c, s);
    } else {
      KeepsScreenAfterLook(c, s);
    }
  }

  lemma KeepsScreenBeforeLook(c: Call, s: State)
    requires BeforeLook(s.setter) && FlagInv(c, s) && ScreenInv(c, s)
    ensures ScreenInv(c, SetterStep(c, s))
  {
    if s.setter == ToLook {
    } else {
      hide FlagInv;
    }
  }

  lemma KeepsScreenAfterLook(c: Call, s: State)
    requires !BeforeLook(s.setter) && s.setter != Through && ScreenInv(c, s)
    ensures ScreenInv(c, SetterStep(c, s))
  {
  }

  lemma SetterKeepsTimers(c: Call, s: State)
    requires s.setter != Through && FlagInv(c, s) && ScreenInv(c, s) && TimerInv(c, s)
    ensures TimerInv(c, SetterStep(c, s))
  {
    hide WillArmIdle;
  }

  lemma StepKeepsInv(c: Call, s: State, a: Action)
    requires Enabled(s, a) && Inv(c, s)
    ensures Inv(c, Next(c, s, a))
  {
    match a
    case Setter =>
      hide FlagInv, ScreenInv, TimerInv, SetterStep;
      SetterKeepsFlag(c, s);
      SetterKeepsScreen(c, s);
      SetterKeepsTimers(c, s);
    case Arrive(id) =>
      if s.idleArmed {
      } else if WillArmIdle(s.callers) {
        var w :| w in s.callers && (s.callers[w] == CallerCancelOff || s.callers[w] == CallerArmIdle);
        assert s.callers[id := CallerExchange][w] == s.callers[w];
      }
    case Caller(id) => CallerKeepsInv(c, s, id);
  }

  lemma {:induction false} RunKeepsInv(c: Call, s: State, acts: seq<Action>)
    requires Legal(c, s, acts) && Inv(c, s)
    ensures Inv(c, After(c, s, acts))
    decreases |acts|
  {
    hide Inv, Enabled, Next;
    if acts != [] {
      StepKeepsInv(c, s, acts[0]);
      RunKeepsInv(c, Next(c, s, acts[0]), acts[1..]);
    }
  }

  // ---------------------------------------------------------------------------------------
  // Theorems

  /** On every interleaving, whenever nobody holds the state mutex the flag is clear. */
  lemma FlagClearWhenMutexFree(c: Call, s: State, acts: seq<Action>)
    requires Start(c, s) && Legal(c, s, acts)
    ensures MutexFree(After(c, s, acts)) ==> After(c, s, acts).flag == NoSetting
  {
    hide Enabled, Next;
    RunKeepsInv(c, s, acts);
  }

  /**
   * On every interleaving, once all threads are done: a compare-exchange won before the
   * setter's look leaves the power state alone, the display on, the inactivity timer armed
   * and the screen-off timer not. Otherwise the request dims as if it had been alone, and its
   * screen-off timer is armed unless a caller cancelled it after it was armed.
   */
  lemma InterruptedDim(c: Call, s: State, acts: seq<Action>)
    requires Start(c, s) && Legal(c, s, acts) && AllReturned(After(c, s, acts)) && c.admitted
    ensures var n := After(c, s, acts);
      && (n.hit ==> n.current == c.entry && (c.restoreOk ==> n.display == DisplayOn) && n.idleArmed && !n.offArmed)
      && (!n.hit ==>
            && n.current == (if c.displayOk then Dim else c.entry)
            && n.display == (if c.displayOk then DisplayDim else c.display)
            && (n.offArmed <==> n.late == {})
            && (n.callers == map[] ==> !n.idleArmed))
  {
    hide Enabled, Next;
    RunKeepsInv(c, s, acts);
  }

  /** A request for coordination is never interrupted, in any interleaving. */
  lemma CoordinationIsNeverInterrupted(c: Call, s: State, acts: seq<Action>)
    requires Start(c, s) && Legal(c, s, acts) && c.coordination
    ensures !After(c, s, acts).hit && After(c, s, acts).flag != SettingDimInterrupted
  {
    hide Enabled, Next;
    RunKeepsInv(c, s, acts);
  }

  // ---------------------------------------------------------------------------------------
  // The interleaved request and the engine's request in one step

  /** The request as the engine's functions describe it. */
  function CallOf(b: Build, m: Machine, reason: Reason, force: bool, env: Env): Call {
    Call(reason.Coordination?, m.display, m.current, From(m, Dim),
         Admit(b, Matched(m.(flag := FlagFor(Dim, reason)), Dim), Dim, reason,
               IgnoresLocks(m, reason, force), env).result.Success?,
         env.displayOk, env.restoreOk)
  }

  lemma DimActionResult(b: Build, m: Machine, reason: Reason, env: Env)
    requires m.off.effective >= 0 && m.flag == FlagFor(Dim, reason)
    ensures var s := DimAction(b, m, reason, env);
      var hit := env.hit && !reason.Coordination?;
      && s.m.current == m.current
      && (s.result.Success? <==> !hit && env.displayOk)
      && s.m.display == (if hit && env.restoreOk then DisplayOn else if env.displayOk then DisplayDim else m.display)
      && (hit ==> Armed(s.m.timers, TIMER_ID_USER_ACTIVITY_TIMEOUT) && !Armed(s.m.timers, TIMER_ID_USER_ACTIVITY_OFF))
      && (!hit ==> Armed(s.m.timers, TIMER_ID_USER_ACTIVITY_OFF))
  {
    hide DimTime, DimTimeFor;
  }

  lemma DimInOneStep(b: Build, m: Machine, reason: Reason, force: bool, env: Env)
    requires TaskAvailable(b, m.timers, Dim, reason, env.task) && m.off.effective >= 0
    ensures var a := SetState(b, m, Dim, reason, force, env);
      var c := CallOf(b, m, reason, force, env);
      var hit := env.hit && !c.coordination;
      && a.m.current == CurrentAfter(c, hit) && a.m.display == DisplayAfter(c, hit) && a.m.flag == NoSetting
      && (c.admitted && hit ==>
            Armed(a.m.timers, TIMER_ID_USER_ACTIVITY_TIMEOUT) && !Armed(a.m.timers, TIMER_ID_USER_ACTIVITY_OFF))
      && (c.admitted && !hit ==> Armed(a.m.timers, TIMER_ID_USER_ACTIVITY_OFF))
  {
    hide TaskAvailable, MatchState, Admit, DimAction, IgnoresLocks, NeedNotify, Armed;
    var m1 := Matched(m.(flag := FlagFor(Dim, reason)), Dim);
    AdmitOutline(b, m1, Dim, reason, IgnoresLocks(m, reason, force), env);
    DimActionResult(b, Admit(b, m1, Dim, reason, IgnoresLocks(m, reason, force), env).m, reason, env);
  }

  /**
   * The one-step request of the engine is what every interleaving comes to: with `env.hit`
   * saying whether a caller got in before the look, display, power state and flag are the
   * same, and so are the timers that the request arms, unless a caller cancelled late.
   */
  lemma InterleavingsRefineOneStep(
    b: Build, m: Machine, reason: Reason, force: bool, env: Env, s: State, acts: seq<Action>)
    requires TaskAvailable(b, m.timers, Dim, reason, env.task) && m.off.effective >= 0
    requires var c := CallOf(b, m, reason, force, env);
      Start(c, s) && Legal(c, s, acts) && AllReturned(After(c, s, acts)) && env.hit == After(c, s, acts).hit
    ensures var c := CallOf(b, m, reason, force, env);
      var n := After(c, s, acts);
      var a := SetState(b, m, Dim, reason, force, env).m;
      && n.current == a.current && n.display == a.display && n.flag == a.flag
      && (c.admitted && n.hit ==> n.idleArmed && Armed(a.timers, TIMER_ID_USER_ACTIVITY_TIMEOUT))
      && (c.admitted && (n.hit || n.late == {}) ==> (n.offArmed <==> Armed(a.timers, TIMER_ID_USER_ACTIVITY_OFF)))
  {
    hide Enabled, Next, TaskAvailable, SetState, Armed, CallOf, CurrentAfter, DisplayAfter;
    RunKeepsInv(CallOf(b, m, reason, force, env), s, acts);
    DimInOneStep(b, m, reason, force, env);
  }

  // ---------------------------------------------------------------------------------------
  // Which refreshes cost the device its screen-off timer

  /** The flag says that DIM is being set, and the setter will still look at it. */
  predicate CanInterrupt(pc: SetterPc) { BeforeLook(pc) && pc != ToLock && pc != ToFlag }

  /**
   * Where the compare-exchanges of this run fell: one that could interrupt has done so, and a
   * caller whose exchange came after the look cancels late.
   */
  ghost predicate ExchangeInv(c: Call, s: State) {
    && (forall id :: id in s.exchanged && CanInterrupt(s.exchanged[id]) ==> s.hit || c.coordination)
    && (forall id :: id in s.exchanged && !BeforeLook(s.exchanged[id]) ==>
          !BeforeLook(s.setter) && id in s.callers && CancelsOrIsLate(s, id))
  }

  predicate CancelsOrIsLate(s: State, id: nat)
    requires id in s.callers
  {
    s.callers[id] == CallerCancelIdle || s.callers[id] == CallerCancelOff || id in s.late
  }

  lemma CallerKeepsExchanges(c: Call, s: State, id: nat)
    requires id in s.callers && s.callers[id] != Returned && FlagInv(c, s) && ExchangeInv(c, s)
    ensures ExchangeInv(c, CallerStep(s, id))
  {
    var n := CallerStep(s, id);
    assert forall w :: w in n.exchanged && w != id ==> w in s.exchanged && n.exchanged[w] == s.exchanged[w];
  }

  lemma SetterMovesOn(c: Call, s: State)
    requires s.setter != Through
    ensures var n := SetterStep(c, s);
      && n.callers == s.callers && n.exchanged == s.exchanged && n.late == s.late && n.hit == s.hit
      && (!BeforeLook(s.setter) ==> !BeforeLook(n.setter))
  {
  }

  lemma StepKeepsExchanges(c: Call, s: State, a: Action)
    requires Enabled(s, a) && FlagInv(c, s) && ExchangeInv(c, s)
    ensures ExchangeInv(c, Next(c, s, a))
  {
    match a
    case Setter =>
      hide FlagInv, SetterStep;
      SetterMovesOn(c, s);
    case Arrive(id) =>
      hide FlagInv;
      assert Next(c, s, a) == s.(callers := s.callers[id := CallerExchange]);
    case Caller(id) =>
      hide FlagInv, ExchangeInv, CallerStep;
      CallerKeepsExchanges(c, s, id);
  }

  lemma {:induction false} RunKeepsExchanges(c: Call, s: State, acts: seq<Action>)
    requires Legal(c, s, acts) && Inv(c, s) && ExchangeInv(c, s)
    ensures ExchangeInv(c, After(c, s, acts))
    decreases |acts|
  {
    hide FlagInv, ScreenInv, TimerInv, ExchangeInv, Enabled, Next;
    if acts != [] {
      StepKeepsInv(c, s, acts[0]);
      StepKeepsExchanges(c, s, acts[0]);
      RunKeepsExchanges(c, Next(c, s, acts[0]), acts[1..]);
    }
  }

  /** The caller's compare-exchange came before the flag was set, or after the look (or could not interrupt at all). */
  predicate MissedTheWindow(c: Call, s: State, id: nat) {
    c.coordination || id !in s.exchanged || !CanInterrupt(s.exchanged[id])
  }

  /**
   * A request that is not interrupted ends without its screen-off timer iff some refresh, whose
   * compare-exchange came too early or too late to interrupt it, cancelled that timer after it
   * was armed; and every refresh that comes after the look does so.
   */
  lemma ScreenOffTimerLost(c: Call, s: State, acts: seq<Action>)
    requires Start(c, s) && Legal(c, s, acts) && AllReturned(After(c, s, acts)) && c.admitted
    ensures var n := After(c, s, acts);
      && (!n.hit ==> (!n.offArmed <==> exists id :: id in n.late && MissedTheWindow(c, n, id)))
      && (!n.hit ==> forall id :: id in n.late ==> MissedTheWindow(c, n, id))
      && (forall id :: id in n.exchanged && !BeforeLook(n.exchanged[id]) ==> id in n.late)
  {
    hide Enabled, Next;
    RunKeepsInv(c, s, acts);
    RunKeepsExchanges(c, s, acts);
    var n := After(c, s, acts);
    if n.late != {} {
      var id :| id in n.late;
    }
  }

  // ---------------------------------------------------------------------------------------
  // The window that the code leaves open

  lemma {:induction false} AfterJoin(c: Call, s: State, first: seq<Action>, rest: seq<Action>)
    requires Legal(c, s, first) && Legal(c, After(c, s, first), rest)
    ensures Legal(c, s, first + rest) && After(c, s, first + rest) == After(c, After(c, s, first), rest)
    decreases |first|
  {
    hide Enabled, Next;
    if first == [] {
      assert first + rest == rest;
    } else {
      assert (first + rest)[1..] == first[1..] + rest;
      AfterJoin(c, Next(c, s, first[0]), first[1..], rest);
    }
  }

  /** Following the actions of a run one by one. */
  lemma {:induction false} Trace(c: Call, acts: seq<Action>, states: seq<State>)
    requires |states| == |acts| + 1
    requires forall i :: 0 <= i < |acts| ==> Enabled(states[i], acts[i]) && Next(c, states[i], acts[i]) == states[i + 1]
    ensures Legal(c, states[0], acts) && After(c, states[0], acts) == states[|acts|]
    decreases |acts|
  {
    hide Enabled, Next;
    if acts != [] {
      forall i | 0 <= i < |acts[1..]|
        ensures Enabled(states[1..][i], acts[1..][i]) && Next(c, states[1..][i], acts[1..][i]) == states[1..][i + 1]
      {
        assert acts[1..][i] == acts[i + 1] && states[1..][i] == states[i + 1] && states[1..][i + 1] == states[i + 2];
      }
      Trace(c, acts[1..], states[1..]);
    }
  }

  /** A refresh runs its compare-exchange before the request has set the flag, */
  lemma EarlyExchange(c: Call, s: State)
    requires s.setter == ToLock && s.flag == NoSetting && !s.hit && s.callers == map[]
    ensures var acts := [Setter, Arrive(0), Caller(0)];
      && Legal(c, s, acts)
      && After(c, s, acts) == s.(setter := ToFlag, callers := map[0 := CallerCancelIdle], exchanged := s.exchanged[0 := ToFlag])
  {
    hide Legal, After;
    var s1 := s.(setter := ToFlag);
    var s2 := s1.(callers := map[0 := CallerExchange]);
    ThreeSteps(c, s, Setter, s1, Arrive(0), s2, Caller(0),
               s1.(callers := map[0 := CallerCancelIdle], exchanged := s.exchanged[0 := ToFlag]));
  }

  /** the request then dims the display and arms the screen-off timer, */
  lemma Dims(c: Call, s: State)
    requires s.setter == ToFlag && !c.coordination && c.admitted && c.displayOk
    ensures var acts := [Setter, Setter, Setter, Setter, Setter, Setter];
      && Legal(c, s, acts)
      && After(c, s, acts) == s.(setter := ToLook, flag := Setting(Dim), current := c.entry, display := DisplayDim,
                                 idleArmed := false, offArmed := true)
  {
    hide Legal, After;
    var s1 := s.(setter := ToCheck, flag := Setting(Dim));
    var s2 := s1.(setter := ToDim, current := c.entry);
    var s3 := s2.(setter := ToCancelIdle, display := DisplayDim);
    var s4 := s3.(setter := ToCancelOff, idleArmed := false);
    var s5 := s4.(setter := ToArmOff, offArmed := false);
    Trace(c, [Setter, Setter, Setter, Setter, Setter, Setter],
          [s, s1, s2, s3, s4, s5, s5.(setter := ToLook, offArmed := true)]);
  }

  lemma ThreeSteps(c: Call, s: State, a1: Action, s1: State, a2: Action, s2: State, a3: Action, s3: State)
    requires Enabled(s, a1) && Next(c, s, a1) == s1
    requires Enabled(s1, a2) && Next(c, s1, a2) == s2
    requires Enabled(s2, a3) && Next(c, s2, a3) == s3
    ensures Legal(c, s, [a1, a2, a3]) && After(c, s, [a1, a2, a3]) == s3
  {
    hide Enabled, Next;
    Trace(c, [a1, a2, a3], [s, s1, s2, s3]);
  }

  /** which the refresh now cancels, */
  lemma CancelsLate(c: Call, s: State)
    requires s.setter == ToLook && s.callers == map[0 := CallerCancelIdle]
    ensures var acts := [Caller(0), Caller(0), Caller(0)];
      && Legal(c, s, acts)
      && After(c, s, acts) == s.(callers := map[0 := Returned], idleArmed := true, offArmed := false, late := s.late + {0})
  {
    hide Legal, After;
    var s1 := s.(callers := map[0 := CallerCancelOff], idleArmed := false);
    var s2 := s1.(callers := map[0 := CallerArmIdle], offArmed := false, late := s.late + {0});
    ThreeSteps(c, s, Caller(0), s1, Caller(0), s2, Caller(0), s2.(callers := map[0 := Returned], idleArmed := true));
  }

  /** and the request, seeing no interruption, commits. */
  lemma Commits(c: Call, s: State)
    requires s.setter == ToLook && s.flag == Setting(Dim) && c.displayOk
    ensures var acts := [Setter, Setter, Setter, Setter];
      && Legal(c, s, acts)
      && After(c, s, acts) == s.(setter := Through, current := Dim, flag := NoSetting)
  {
    hide Legal, After;
    var s1 := s.(setter := ToCommit);
    var s2 := s1.(setter := ToClear, current := Dim);
    var s3 := s2.(setter := ToUnlock, flag := NoSetting);
    Trace(c, [Setter, Setter, Setter, Setter], [s, s1, s2, s3, s3.(setter := Through)]);
  }

  /**
   * Such a refresh is lost twice over: the device dims, no screen-off timer is armed, and the
   * inactivity timer that is armed instead asks for DIM again, which the tables refuse.
   */
  lemma MissedRefreshLeavesDim(s: State)
    requires s.setter == ToLock && s.flag == NoSetting && !s.hit && s.exchanged == map[] && s.late == {} && s.callers == map[]
    requires s.current == Awake && s.display == DisplayOn
    ensures var c := Call(false, DisplayOn, Awake, Awake, true, true, true);
      exists acts :: Legal(c, s, acts) && var n := After(c, s, acts);
        AllReturned(n) && n.current == Dim && n.display == DisplayDim && n.idleArmed && !n.offArmed
    ensures !AllowedByReason(Timeout, Dim, Dim) && !AllowedByReason(TimeoutNoScreenLock, Dim, Dim)
  {
    hide Legal, After, Enabled, Next;
    var c := Call(false, DisplayOn, Awake, Awake, true, true, true);
    EarlyExchange(c, s);
    var first := [Setter, Arrive(0), Caller(0)];
    var s1 := After(c, s, first);
    Dims(c, s1);
    var second := [Setter, Setter, Setter, Setter, Setter, Setter];
    AfterJoin(c, s, first, second);
    var s2 := After(c, s1, second);
    CancelsLate(c, s2);
    var third := [Caller(0), Caller(0), Caller(0)];
    AfterJoin(c, s, first + second, third);
    var s3 := After(c, s2, third);
    Commits(c, s3);
    AfterJoin(c, s, first + second + third, [Setter, Setter, Setter, Setter]);
  }

  // ---------------------------------------------------------------------------------------
  // A device in DIM without a screen-off timer stays there

  /** The inactivity timer's request does nothing for a device that is in DIM already. */
  lemma DimAgainIsRefused(b: Build, m: Machine, force: bool, env: Env)
    requires m.current == Dim && m.display == DisplayDim
    ensures var a := SetState(b, m, Dim, Timeout, force, env);
      && (a.verdict == StaleTask || a.verdict == Done(ForbidTransit))
      && a.m == if a.verdict == StaleTask then m else m.(flag := NoSetting)
  {
    hide TaskAvailable, IgnoresLocks;
  }

  predicate Stuck(m: Machine) {
    m.current == Dim && m.display == DisplayDim && !Armed(m.timers, TIMER_ID_USER_ACTIVITY_OFF)
  }

  /** Nobody touches the device: the only requests are those of the inactivity timer's tasks. */
  predicate Untouched(e: MachineRuns.Event) {
    match e
    case Request(target, reason, _, _) => target == Dim && reason == Timeout
    case PreBrightRequest(_, _) => false
    case AuthTimeout(_) => false
    case Activity(_) => false
    case Drift(_) => false
    case _ => true
  }

  lemma StuckStep(b: Build, m: Machine, e: MachineRuns.Event)
    requires MachineRuns.Legal(m, e) && Untouched(e) && Stuck(m)
    ensures Stuck(MachineRuns.Happens(b, m, e))
  {
    hide SetState;
    if e.Request? {
      DimAgainIsRefused(b, m, e.force, e.env);
    }
  }

  /**
   * Left alone, such a device stays dimmed for ever: whatever timer tasks start, however much
   * time passes, with any running locks, and even if timing out is forced.
   */
  lemma {:induction false} StuckInDim(b: Build, m: Machine, es: seq<MachineRuns.Event>)
    requires MachineRuns.LegalRun(b, m, es) && Stuck(m) && forall e :: e in es ==> Untouched(e)
    ensures Stuck(MachineRuns.Run(b, m, es))
    decreases |es|
  {
    hide MachineRuns.Happens, MachineRuns.Legal, Stuck, Untouched;
    if es != [] {
      assert es[0] in es;
      StuckStep(b, m, es[0]);
      StuckInDim(b, MachineRuns.Happens(b, m, es[0]), es[1..]);
    }
  }
}
