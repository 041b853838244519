/**
 * Waiting for the result of an ultra-low-power suspend: any number of threads ask for the
 * wakeup callback, a compare-exchange lets one of them submit the task that waits.
 */
module UlsrWaiter {

  datatype Stage = StageEnter | StageOther

  /** The next step of a caller or of a task. */
  datatype Pc =
    | Exchange | CheckHolder | CheckStage | Submit | GiveUp | Returned
    | TaskMark | TaskLook | TaskWait | TaskRead | TaskNotify(ulsrResult: bool) | TaskRelease | TaskDone

  /** Shared variables, the agents by number, and what has happened. */
  datatype State = State(
    waiting: bool,                                    // g_ulsrResultWaitTaskStart
    holder: bool, stage: Stage,                       // the callback holder, if any, and its stage
    result: string,                                   // the system parameter with the result
    agents: map<nat, Pc>,
    won: nat, gaveUp: nat,
    notices: seq<bool>)                               // what the callbacks were told

  datatype Action =
    | Arrive(id: nat)
    | Move(id: nat, task: nat)                       // `task` numbers the task that a caller submits
    | Surroundings(holder: bool, stage: Stage, result: string)

  predicate Enabled(s: State, a: Action) {
    match a
    case Arrive(id) => id !in s.agents
    case Move(id, task) =>
      && id in s.agents && !(s.agents[id].Returned? || s.agents[id].TaskDone?)
      && (s.agents[id].Submit? ==> task !in s.agents)
    case Surroundings(_, _, _) => true
  }

  function MoveAgent(s: State, id: nat, task: nat): State
    requires Enabled(s, Move(id, task))
  {
    match s.agents[id]
    case Exchange =>
      if s.waiting then s.(agents := s.agents[id := Returned])
      else s.(agents := s.agents[id := CheckHolder], waiting := true, won := s.won + 1)
    case CheckHolder => s.(agents := s.agents[id := if s.holder then CheckStage else GiveUp])
    case CheckStage => s.(agents := s.agents[id := if s.stage.StageEnter? then Submit else GiveUp])
    case GiveUp => s.(agents := s.agents[id := Returned], waiting := false, gaveUp := s.gaveUp + 1)
    case Submit => s.(agents := s.agents[id := Returned][task := TaskMark])
    case TaskMark => s.(agents := s.agents[id := TaskLook], waiting := true)
    case TaskLook => s.(agents := s.agents[id := if s.result == "" then TaskWait else TaskRead])
    case TaskWait => s.(agents := s.agents[id := TaskRead])
    case TaskRead => s.(agents := s.agents[id := TaskNotify(s.result == "success")])
    case TaskNotify(ulsrResult) => s.(agents := s.agents[id := TaskRelease], notices := s.notices + [ulsrResult])
    case TaskRelease => s.(agents := s.agents[id := TaskDone], waiting := false)
  }

  function Next(s: State, a: Action): State
    requires Enabled(s, a)
  {
    match a
    case Arrive(id) => s.(agents := s.agents[id := Exchange])
    case Move(id, task) => MoveAgent(s, id, task)
    case Surroundings(h, g, r) => s.(holder := h, stage := g, result := r)
  }

  predicate Legal(s: State, acts: seq<Action>)
    decreases |acts|
  {
    acts != [] ==> Enabled(s, acts[0]) && Legal(Next(s, acts[0]), acts[1..])
  }

  function After(s: State, acts: seq<Action>): State
    requires Legal(s, acts)
    decreases |acts|
  {
    if acts == [] then s else After(Next(s, acts[0]), acts[1..])
  }

  ghost predicate Start(s: State) {
    !s.waiting && s.agents == map[] && s.won == 0 && s.gaveUp == 0 && s.notices == []
  }

  // ---------------------------------------------------------------------------------------

  predicate IsTask(pc: Pc) {
    pc.TaskMark? || pc.TaskLook? || pc.TaskWait? || pc.TaskRead? || pc.TaskNotify? || pc.TaskRelease?
  }

  /** A caller past its compare-exchange, or a task. */
  predicate Owns(pc: Pc) {
    pc.CheckHolder? || pc.CheckStage? || pc.Submit? || pc.GiveUp? || IsTask(pc)
  }

  predicate Owner(s: State, id: nat) { id in s.agents && Owns(s.agents[id]) }

  /** Some agent owns the flag, and has not yet done what it owes: give up or notify. */
  ghost predicate Owed(s: State) { exists id :: Owner(s, id) && !s.agents[id].TaskRelease? }

  ghost predicate OneOwner(s: State) {
    && (forall i, j :: Owner(s, i) && Owner(s, j) ==> i == j)
    && (s.waiting <==> exists id :: Owner(s, id))
  }

  /** Every won exchange is paid for by one exit or one notification, or still owed. */
  ghost predicate Accounted(s: State) {
    s.won == s.gaveUp + |s.notices| + if Owed(s) then 1 else 0
  }

  lemma ArrivalOwnsNothing(s: State, id: nat)
    requires id !in s.agents
    ensures var n := s.(agents := s.agents[id := Exchange]);
      (forall i :: Owner(n, i) <==> Owner(s, i)) && (Owed(n) <==> Owed(s))
  {
    var n := s.(agents := s.agents[id := Exchange]);
    assert forall i :: Owner(n, i) ==> n.agents[i] == s.agents[i];
    assert forall i :: Owner(s, i) ==> n.agents[i] == s.agents[i];
  }

  /** A move changes nobody else's ownership, except that submitting hands it to the new task. */
  lemma MoveOwnership(s: State, id: nat, task: nat)
    requires Enabled(s, Move(id, task)) && OneOwner(s)
    ensures var n := MoveAgent(s, id, task);
      if s.agents[id].Submit? then forall i :: Owner(n, i) <==> i == task
      else forall i :: i != id ==> (Owner(n, i) <==> Owner(s, i)) && (Owner(n, i) ==> n.agents[i] == s.agents[i])
  {
    var n := MoveAgent(s, id, task);
    if s.agents[id].Submit? {
      assert Owner(s, id) && Owner(n, task);
      assert forall i :: Owner(n, i) && i != task ==> Owner(s, i) && i != id;
    } else {
      assert n.agents == s.agents[id := n.agents[id]];
    }
  }

  lemma MoveKeeps(s: State, id: nat, task: nat)
    requires Enabled(s, Move(id, task)) && OneOwner(s) && Accounted(s)
    ensures OneOwner(MoveAgent(s, id, task)) && Accounted(MoveAgent(s, id, task))
  {
    var n := MoveAgent(s, id, task);
    MoveOwnership(s, id, task);
    if s.agents[id].Submit? {
      assert Owner(s, id) && Owner(n, task);
    } else if s.agents[id].Exchange? {
      if s.waiting {
        assert forall i :: Owner(n, i) <==> Owner(s, i);
      } else {
        assert Owner(n, id);
      }
    } else {
      assert Owner(s, id);
      assert !Owner(n, id) ==> forall i :: !Owner(n, i);
      assert Owner(n, id) ==> forall i :: Owner(n, i) <==> i == id;
    }
  }

  lemma StepKeeps(s: State, a: Action)
    requires Enabled(s, a) && OneOwner(s) && Accounted(s)
    ensures OneOwner(Next(s, a)) && Accounted(Next(s, a))
  {
    match a
    case Arrive(id) => ArrivalOwnsNothing(s, id);
    case Move(id, task) => MoveKeeps(s, id, task);
    case Surroundings(h, g, r) =>
      var n := Next(s, a);
      assert forall i :: Owner(n, i) <==> Owner(s, i);
  }

  lemma {:induction false} RunKeeps(s: State, acts: seq<Action>)
    requires Legal(s, acts) && OneOwner(s) && Accounted(s)
    ensures OneOwner(After(s, acts)) && Accounted(After(s, acts))
    decreases |acts|
  {
    hide OneOwner, Accounted, Enabled, Next;
    if acts != [] {
      StepKeeps(s, acts[0]);
      RunKeeps(Next(s, acts[0]), acts[1..]);
    }
  }

  /**
   * Whatever the callers, the callback holder and the result parameter do: at most one task
   * is in flight, and the flag is set exactly while one caller past its compare-exchange or
   * one task owns it, through both early exits.
   */
  lemma WaiterIsExclusive(s: State, acts: seq<Action>, i: nat, j: nat)
    requires Start(s) && Legal(s, acts)
    ensures var n := After(s, acts);
      && (i in n.agents && IsTask(n.agents[i]) && j in n.agents && IsTask(n.agents[j]) ==> i == j)
      && (n.waiting <==> exists id :: Owner(n, id))
      && (Owner(n, i) && Owner(n, j) ==> i == j)
  {
    hide Enabled, Next;
    RunKeeps(s, acts);
  }

  /**
   * No compare-exchange that was won is lost: when all agents are done, each has ended in one
   * early exit or one wakeup notification, and the flag is free for the next one.
   */
  lemma EveryWinIsSettled(s: State, acts: seq<Action>)
    requires Start(s) && Legal(s, acts)
    requires var n := After(s, acts); forall id :: id in n.agents ==> n.agents[id].Returned? || n.agents[id].TaskDone?
    ensures var n := After(s, acts); !n.waiting && n.won == n.gaveUp + |n.notices|
  {
    hide Enabled, Next;
    RunKeeps(s, acts);
  }

  // ---------------------------------------------------------------------------------------
  // What one caller achieves

  /** Following the actions of a run one by one. */
  lemma {:induction false} Trace(acts: seq<Action>, states: seq<State>)
    requires |states| == |acts| + 1
    requires forall i :: 0 <= i < |acts| ==> Enabled(states[i], acts[i]) && Next(states[i], acts[i]) == states[i + 1]
    ensures Legal(states[0], acts) && After(states[0], acts) == states[|acts|]
    decreases |acts|
  {
    hide Enabled, Next;
    if acts != [] {
      forall i | 0 <= i < |acts[1..]|
        ensures Enabled(states[1..][i], acts[1..][i]) && Next(states[1..][i], acts[1..][i]) == states[1..][i + 1]
      {
        assert acts[1..][i] == acts[i + 1] && states[1..][i] == states[i + 1] && states[1..][i + 1] == states[i + 2];
      }
      Trace(acts[1..], states[1..]);
    }
  }

  /** A caller that finds no callback holder gives up, and the flag is free again. */
  lemma WithoutHolderGivesUp(s: State, id: nat)
    requires id in s.agents && s.agents[id] == Exchange && !s.waiting && !s.holder
    ensures var acts := [Move(id, id), Move(id, id), Move(id, id)];
      && Legal(s, acts)
      && After(s, acts) == s.(agents := s.agents[id := Returned], won := s.won + 1, gaveUp := s.gaveUp + 1)
  {
    hide Legal, After;
    var s1 := s.(agents := s.agents[id := CheckHolder], waiting := true, won := s.won + 1);
    var s2 := s1.(agents := s.agents[id := GiveUp]);
    var s3 := s2.(agents := s.agents[id := Returned], waiting := false, gaveUp := s.gaveUp + 1);
    Trace([Move(id, id), Move(id, id), Move(id, id)], [s, s1, s2, s3]);
  }

  /** So does one that finds a holder in another stage than that of an entered suspend. */
  lemma OutsideEnterGivesUp(s: State, id: nat)
    requires id in s.agents && s.agents[id] == Exchange && !s.waiting && s.holder && s.stage != StageEnter
    ensures var acts := [Move(id, id), Move(id, id), Move(id, id), Move(id, id)];
      && Legal(s, acts)
      && After(s, acts) == s.(agents := s.agents[id := Returned], won := s.won + 1, gaveUp := s.gaveUp + 1)
  {
    hide Legal, After;
    var s1 := s.(agents := s.agents[id := CheckHolder], waiting := true, won := s.won + 1);
    var s2 := s1.(agents := s.agents[id := CheckStage]);
    var s3 := s2.(agents := s.agents[id := GiveUp]);
    var s4 := s3.(agents := s.agents[id := Returned], waiting := false, gaveUp := s.gaveUp + 1);
    Trace([Move(id, id), Move(id, id), Move(id, id), Move(id, id)], [s, s1, s2, s3, s4]);
  }

  /** One that finds a holder in that stage submits the task, */
  lemma InEnterSubmits(s: State, id: nat, task: nat)
    requires id in s.agents && s.agents[id] == Exchange && !s.waiting && s.holder && s.stage == StageEnter
    requires task !in s.agents
    ensures var acts := [Move(id, task), Move(id, task), Move(id, task), Move(id, task)];
      && Legal(s, acts)
      && After(s, acts) ==
         s.(agents := s.agents[id := Returned][task := TaskMark], waiting := true, won := s.won + 1)
  {
    hide Legal, After;
    var s1 := s.(agents := s.agents[id := CheckHolder], waiting := true, won := s.won + 1);
    var s2 := s1.(agents := s.agents[id := CheckStage]);
    var s3 := s2.(agents := s.agents[id := Submit]);
    var s4 := s3.(agents := s.agents[id := Returned][task := TaskMark]);
    Trace([Move(id, task), Move(id, task), Move(id, task), Move(id, task)], [s, s1, s2, s3, s4]);
  }

  lemma {:induction false} AfterJoin(s: State, first: seq<Action>, rest: seq<Action>)
    requires Legal(s, first) && Legal(After(s, first), rest)
    ensures Legal(s, first + rest) && After(s, first + rest) == After(After(s, first), rest)
    decreases |first|
  {
    hide Enabled, Next;
    if first == [] {
      assert first + rest == rest;
    } else {
      assert (first + rest)[1..] == first[1..] + rest;
      AfterJoin(Next(s, first[0]), first[1..], rest);
    }
  }

  /** The moves of a task until it reads the result: it waits if there is none yet. */
  function UntilRead(task: nat, ready: bool): seq<Action> {
    if ready then [Move(task, task), Move(task, task)] else [Move(task, task), Move(task, task), Move(task, task)]
  }

  /** the task waits if there is no result yet, */
  lemma TaskWaitsForResult(s: State, task: nat)
    requires task in s.agents && s.agents[task] == TaskMark
    ensures var acts := UntilRead(task, s.result != "");
      Legal(s, acts) && After(s, acts) == s.(agents := s.agents[task := TaskRead], waiting := true)
  {
    hide Legal, After;
    var s1 := s.(agents := s.agents[task := TaskLook], waiting := true);
    var s2 := s1.(agents := s.agents[task := TaskRead]);
    if s.result == "" {
      Trace(UntilRead(task, false), [s, s1, s1.(agents := s.agents[task := TaskWait]), s2]);
    } else {
      Trace(UntilRead(task, true), [s, s1, s2]);
    }
  }

  /** and then tells the callbacks once whether the result says success, and sets the flag free. */
  lemma TaskNotifiesOnce(s: State, task: nat)
    requires task in s.agents && s.agents[task] == TaskRead
    ensures var acts := [Move(task, task), Move(task, task), Move(task, task)];
      && Legal(s, acts)
      && After(s, acts) ==
         s.(agents := s.agents[task := TaskDone], waiting := false, notices := s.notices + [s.result == "success"])
  {
    hide Legal, After;
    var s3 := s.(agents := s.agents[task := TaskNotify(s.result == "success")]);
    var s4 := s3.(agents := s.agents[task := TaskRelease], notices := s.notices + [s.result == "success"]);
    var s5 := s4.(agents := s.agents[task := TaskDone], waiting := false);
    Trace([Move(task, task), Move(task, task), Move(task, task)], [s, s3, s4, s5]);
  }

  /**
   * The whole life of a caller with nobody in between, from a free flag: if there is a callback
   * holder in the stage of an entered suspend, its task tells the callbacks exactly once whether
   * the suspend succeeded, and the flag is free again.
   */
  lemma CallerNotifiesOnce(s: State, id: nat, task: nat)
    requires id in s.agents && s.agents[id] == Exchange && !s.waiting && s.holder && s.stage == StageEnter
    requires task !in s.agents
    ensures var n := s.(agents := s.agents[id := Returned][task := TaskDone], won := s.won + 1,
                        notices := s.notices + [s.result == "success"]);
      exists acts :: Legal(s, acts) && After(s, acts) == n
  {
    hide Legal, After;
    var first := [Move(id, task), Move(id, task), Move(id, task), Move(id, task)];
    InEnterSubmits(s, id, task);
    var s1 := After(s, first);
    var second := UntilRead(task, s1.result != "");
    TaskWaitsForResult(s1, task);
    AfterJoin(s, first, second);
    var s2 := After(s1, second);
    TaskNotifiesOnce(s2, task);
    AfterJoin(s, first + second, [Move(task, task), Move(task, task), Move(task, task)]);
  }
}
