/**
 * The timer of utils/ffrt: one delayed task per timer id, waiting in a task queue and
 * remembered by its handle.
 */
module FfrtTimer {
  import opened PowerTypes

  type TimerId = nat

  const TIMER_ID_SLEEP: TimerId := 0
  const TIMER_ID_USER_ACTIVITY_OFF: TimerId := 1
  const TIMER_ID_USER_ACTIVITY_TIMEOUT: TimerId := 2
  const TIMER_ID_PRE_BRIGHT_AUTH: TimerId := 4
  const TIMER_ID_AUTO_SLEEP: TimerId := 7

  /**
   * A handle stands for the task it was given out for: the timer that task was submitted
   * for and the time it is due. The serial number tells two submissions apart.
   */
  datatype Handle = Handle(serial: nat, id: TimerId, due: nat)

  /**
   * What a timer object amounts to: the non-null handles it stores, the tasks still waiting
   * in its queue, the serial number of the next submission, and the queue's clock.
   */
  datatype TimerView = TimerView(stored: map<TimerId, Handle>, queue: set<Handle>, next: nat, now: nat)

  const NO_TIMERS := TimerView(map[], {}, 0, 0)

  /** Delays are passed as 64-bit numbers and truncated to 32 bits by the timer's interface. */
  function Delay32(delay: int): nat { delay % 0x1_0000_0000 }

  /** A delay that fits 32 bits is kept, and any other loses its upper bits. */
  lemma DelayIsTruncated(delay: int, upper: int)
    requires 0 <= delay < 0x1_0000_0000
    ensures Delay32(delay + upper * 0x1_0000_0000) == delay
  {
  }

  /** The handle that arming `id` now gives out. */
  function NextHandle(v: TimerView, id: TimerId, delay: int): Handle {
    Handle(v.next, id, v.now + Delay32(delay))
  }

  function Disarm(v: TimerView, id: TimerId): TimerView {
    if id in v.stored then v.(stored := v.stored - {id}, queue := v.queue - {v.stored[id]}) else v
  }

  function Arm(v: TimerView, id: TimerId, delay: int): TimerView {
    var h := NextHandle(v, id, delay);
    var w := Disarm(v, id);
    TimerView(w.stored[id := h], w.queue + {h}, w.next + 1, w.now)
  }

  function DisarmAll(v: TimerView): TimerView {
    v.(stored := map[], queue := v.queue - v.stored.Values)
  }

  /** The queue starts a task: the task leaves the queue, its handle stays stored. */
  function Fire(v: TimerView, h: Handle): TimerView {
    v.(queue := v.queue - {h})
  }

  function Tick(v: TimerView, elapsed: nat): TimerView {
    v.(now := v.now + elapsed)
  }

  /** The handle kept for `id`, null as `None`. */
  function Stored(v: TimerView, id: TimerId): Option<Handle> {
    if id in v.stored then Some(v.stored[id]) else None
  }

  /** Every waiting task is the very one stored for its id, and serial numbers are used once. */
  ghost predicate Coherent(v: TimerView) {
    && (forall id | id in v.stored :: v.stored[id].id == id && v.stored[id].serial < v.next)
    && (forall h | h in v.queue :: h.id in v.stored && v.stored[h.id] == h)
  }

  predicate Armed(v: TimerView, id: TimerId) {
    id in v.stored && v.stored[id] in v.queue
  }

  /** The simple timer: each id has at most one pending task, due at a moment. */
  function Pending(v: TimerView): map<TimerId, nat> {
    map id | id in v.stored && v.stored[id] in v.queue :: v.stored[id].due
  }

  // ---------------------------------------------------------------------------------------
  // The timer over a queue refines the simple timer, for every sequence of operations.

  datatype TimerOp =
    | SetTimer(id: TimerId, delay: int)
    | CancelTimer(id: TimerId)
    | CancelAllTimer
    | FireTask(h: Handle)
    | Elapse(ms: nat)

  function Apply(v: TimerView, op: TimerOp): TimerView {
    match op
    case SetTimer(id, delay) => Arm(v, id, delay)
    case CancelTimer(id) => Disarm(v, id)
    case CancelAllTimer => DisarmAll(v)
    case FireTask(h) => Fire(v, h)
    case Elapse(ms) => Tick(v, ms)
  }

  function ApplyAll(v: TimerView, ops: seq<TimerOp>): TimerView {
    if ops == [] then v else Apply(ApplyAll(v, ops[..|ops| - 1]), ops[|ops| - 1])
  }

  /** The same operation on the simple timer; firing task `h` of timer `id` drops `id`. */
  function ApplySimple(p: map<TimerId, nat>, v: TimerView, op: TimerOp): map<TimerId, nat> {
    match op
    case SetTimer(id, delay) => p[id := v.now + Delay32(delay)]
    case CancelTimer(id) => p - {id}
    case CancelAllTimer => map[]
    case FireTask(h) => if h in v.queue then p - {h.id} else p
    case Elapse(_) => p
  }

  lemma DisarmRefines(v: TimerView, id: TimerId)
    requires Coherent(v)
    ensures Coherent(Disarm(v, id)) && Pending(Disarm(v, id)) == Pending(v) - {id}
  {
  }

  lemma ArmRefines(v: TimerView, id: TimerId, delay: int)
    requires Coherent(v)
    ensures Coherent(Arm(v, id, delay))
    ensures Pending(Arm(v, id, delay)) == Pending(v)[id := v.now + Delay32(delay)]
  {
    DisarmRefines(v, id);
  }

  /** One operation: coherence is kept and the pending tasks change as the simple timer says. */
  lemma ApplyRefines(v: TimerView, op: TimerOp)
    requires Coherent(v)
    ensures Coherent(Apply(v, op))
    ensures Pending(Apply(v, op)) == ApplySimple(Pending(v), v, op)
    ensures v.next <= Apply(v, op).next
  {
    match op
    case SetTimer(id, delay) => ArmRefines(v, id, delay);
    case CancelTimer(id) => DisarmRefines(v, id);
    case CancelAllTimer =>
      forall h | h in v.queue ensures h in v.stored.Values {
        assert v.stored[h.id] == h;
      }
    case FireTask(h) =>
    case Elapse(_) =>
  }

  /**
   * After any operations, no task waits in the queue but the one stored for its id, and
   * each waiting task is the pending task of that id.
   */
  lemma {:induction false} QueueHoldsOnlyStoredTasks(ops: seq<TimerOp>)
    ensures var v := ApplyAll(NO_TIMERS, ops);
      && Coherent(v)
      && (forall h | h in v.queue :: Stored(v, h.id) == Some(h) && h.id in Pending(v) && Pending(v)[h.id] == h.due)
      && (set h | h in v.queue :: h.id) == Pending(v).Keys
  {
    if ops == [] {
      assert Pending(NO_TIMERS) == map[];
    } else {
      var before := ops[..|ops| - 1];
      QueueHoldsOnlyStoredTasks(before);
      ApplyRefines(ApplyAll(NO_TIMERS, before), ops[|ops| - 1]);
    }
  }

  // ---------------------------------------------------------------------------------------
  // Which task counts as the current one of its timer.

  predicate Disturbs(op: TimerOp, id: TimerId) {
    match op
    case SetTimer(i, _) => i == id
    case CancelTimer(i) => i == id
    case CancelAllTimer => true
    case FireTask(_) => false
    case Elapse(_) => false
  }

  /** No operation in `ops` sets or cancels `id`. */
  predicate Undisturbed(ops: seq<TimerOp>, id: TimerId) {
    forall op | op in ops :: !Disturbs(op, id)
  }

  lemma {:induction false} StoredAfter(v: TimerView, ops: seq<TimerOp>, id: TimerId)
    requires Coherent(v)
    ensures var w := ApplyAll(v, ops);
      && Coherent(w) && v.next <= w.next
      && (Undisturbed(ops, id) ==> Stored(w, id) == Stored(v, id))
      && (!Undisturbed(ops, id) ==> Stored(w, id) == None || Stored(w, id).value.serial >= v.next)
  {
    if ops != [] {
      var before, op := ops[..|ops| - 1], ops[|ops| - 1];
      assert ops == before + [op];
      StoredAfter(v, before, id);
      ApplyRefines(ApplyAll(v, before), op);
      assert op in ops;
      if Undisturbed(before, id) && !Disturbs(op, id) {
        assert Undisturbed(ops, id);
      }
    }
  }

  /**
   * A task is armed for `id` after `earlier`, and `later` happens before somebody looks.
   * Its handle is the one stored for `id` iff `later` neither sets nor cancels `id`, and
   * it is never the one stored for another timer.
   */
  lemma LatestTask(earlier: seq<TimerOp>, id: TimerId, delay: int, later: seq<TimerOp>, other: TimerId)
    ensures var v := ApplyAll(NO_TIMERS, earlier);
      var w := ApplyAll(Arm(v, id, delay), later);
      Stored(w, other) == Some(NextHandle(v, id, delay)) <==> other == id && Undisturbed(later, id)
  {
    var v := ApplyAll(NO_TIMERS, earlier);
    QueueHoldsOnlyStoredTasks(earlier);
    ArmRefines(v, id, delay);
    StoredAfter(Arm(v, id, delay), later, other);
  }

  // ---------------------------------------------------------------------------------------

  /**
   * The timer object. Each method runs under the object's mutex, so it is one step. An id
   * that maps to the null handle and an id that is not in the map are the same thing.
   */
  class FFRTTimer {
    var handleMap: map<TimerId, Handle>
    var taskId: map<TimerId, nat>
    var queue: set<Handle>
    var nextSerial: nat
    var clock: nat

    ghost function View(): TimerView
      reads this
    {
      TimerView(handleMap, queue, nextSerial, clock)
    }

    constructor ()
      ensures View() == NO_TIMERS
    {
      handleMap, taskId, queue, nextSerial, clock := map[], map[], {}, 0, 0;
    }

    method GetTaskHandlePtr(id: TimerId) returns (h: Option<Handle>)
      ensures h == Stored(View(), id)
    {
      h := if id in handleMap then Some(handleMap[id]) else None;
    }

    method SetTimer(id: TimerId, delayMs: int)
      modifies this
      ensures View() == Arm(old(View()), id, delayMs)
      ensures taskId == old(taskId)[id := ((if id in old(taskId) then old(taskId)[id] else 0) + 1) % 0x1_0000_0000]
    {
      CancelTimerInner(id);
      var count := if id in taskId then taskId[id] else 0;
      taskId := taskId[id := (count + 1) % 0x1_0000_0000];
      var h := SubmitDelayTask(id, delayMs);
      handleMap := handleMap[id := h];
    }

    method SubmitDelayTask(id: TimerId, delayMs: int) returns (h: Handle)
      modifies this`queue, this`nextSerial
      ensures h == NextHandle(old(View()), id, delayMs)
      ensures queue == old(queue) + {h} && nextSerial == old(nextSerial) + 1
    {
      h := Handle(nextSerial, id, clock + Delay32(delayMs));
      queue := queue + {h};
      nextSerial := nextSerial + 1;
    }

    method CancelTimer(id: TimerId)
      modifies this`handleMap, this`queue
      ensures View() == Disarm(old(View()), id)
    {
      CancelTimerInner(id);
    }

    method CancelTimerInner(id: TimerId)
      modifies this`handleMap, this`queue
      ensures View() == Disarm(old(View()), id)
    {
      if id in handleMap {
        queue := queue - {handleMap[id]};
        handleMap := handleMap - {id};
      }
    }

    method CancelAllTimer()
      modifies this`handleMap, this`queue
      ensures View() == DisarmAll(old(View()))
    {
      CancelAllTimerInner();
    }

    method CancelAllTimerInner()
      modifies this`handleMap, this`queue
      ensures View() == DisarmAll(old(View()))
    {
      ghost var cancelled: set<Handle> := {};
      while handleMap != map[]
        invariant queue == old(queue) - cancelled
        invariant cancelled + handleMap.Values == old(handleMap.Values)
        decreases handleMap.Keys
      {
        assert handleMap.Keys != {};
        var id :| id in handleMap;
        var h, rest := handleMap[id], handleMap - {id};
        assert handleMap.Values == rest.Values + {h} by {
          assert forall i | i in handleMap :: handleMap[i] == h || (i in rest && rest[i] == handleMap[i]);
        }
        queue := queue - {h};
        cancelled := cancelled + {h};
        handleMap := rest;
      }
    }

    method Clear()
      modifies this`handleMap, this`queue, this`taskId
      ensures View() == DisarmAll(old(View()))
      ensures taskId == map[]
    {
      CancelAllTimerInner();
      handleMap := map[];
      taskId := map[];
    }
  }
}
