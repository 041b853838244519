/**
 * Clients that keep the screen from turning off, and what happens to their blocks when they
 * die: the block map of the state machine, the death-recipient manager, and the three service
 * calls that write both.
 */
module ScreenOffBlocks {
  import opened PowerTypes

  datatype BlockType = PowerKey | Lid | SuspendDeviceInterface

  /** A remote object. Only a proxy can have death recipients. */
  datatype Token = Token(id: nat, proxy: bool)

  /**
   * A callback as the manager tells it from others: by the name of the function that
   * registered it. Functions outside this model are told apart by a number; their callbacks
   * do not touch blocks.
   */
  datatype FuncName = SetPowerKeyFiltering | SetLidFiltering | SetInterfaceCallFiltering | OtherFunction(code: nat)

  /** A callback that was run because of a dead client. */
  datatype Firing = Firing(token: Token, name: FuncName)

  /** The callback that removes blocks of this type. */
  function Clearer(t: BlockType): FuncName {
    match t
    case PowerKey => SetPowerKeyFiltering
    case Lid => SetLidFiltering
    case SuspendDeviceInterface => SetInterfaceCallFiltering
  }

  type BlockMap = map<BlockType, Option<Token>>
  type Recipients = map<Token, set<FuncName>>

  // ---------------------------------------------------------------------------------------
  // What the operations do, on values

  predicate Blocked(blocks: BlockMap, t: BlockType) { t in blocks && blocks[t].Some? }

  function AddRecipient(r: Recipients, token: Option<Token>, name: FuncName): Recipients {
    if token.None? || !token.value.proxy then r
    else r[token.value := Registered(r, token.value) + {name}]
  }

  function Registered(r: Recipients, token: Token): set<FuncName> { if token in r then r[token] else {} }

  /** The blocks that are left when the callbacks in `names` have run. */
  function Cleared(blocks: BlockMap, names: set<FuncName>): BlockMap {
    map t | t in blocks && Clearer(t) !in names :: blocks[t]
  }

  lemma ClearedNothing(blocks: BlockMap)
    ensures Cleared(blocks, {}) == blocks
  {
  }

  lemma ClearedTwice(blocks: BlockMap, names: set<FuncName>, name: FuncName)
    ensures Cleared(Cleared(blocks, names), {name}) == Cleared(blocks, names + {name})
  {
  }

  function Firings(token: Token, names: set<FuncName>): set<Firing> {
    set n | n in names :: Firing(token, n)
  }

  // ---------------------------------------------------------------------------------------
  // The objects

  /** The state machine's map of screen-off blocks. */
  class BlockTable {
    var screenOffBlockMap: BlockMap

    constructor ()
      ensures screenOffBlockMap == map[]
    {
      screenOffBlockMap := map[];
    }

    method IsScreenOffBlocked(t: BlockType) returns (blocked: bool)
      ensures blocked <==> Blocked(screenOffBlockMap, t)
      ensures blocked <==> t in screenOffBlockMap && screenOffBlockMap[t] != None
    {
      blocked := if t !in screenOffBlockMap || screenOffBlockMap[t].None? then false else true;
    }

    method UpdateScreenOffBlock(t: BlockType, token: Option<Token>)
      modifies this
      ensures screenOffBlockMap == old(screenOffBlockMap)[t := token]
    {
      screenOffBlockMap := screenOffBlockMap[t := token];
    }

    method RemoveScreenOffBlock(t: BlockType)
      modifies this
      ensures screenOffBlockMap == old(screenOffBlockMap) - {t}
    {
      screenOffBlockMap := screenOffBlockMap - {t};
    }

    /** Run a registered callback. */
    method RunCallback(name: FuncName)
      modifies this
      ensures screenOffBlockMap == Cleared(old(screenOffBlockMap), {name})
      ensures name == SetPowerKeyFiltering ==> screenOffBlockMap == old(screenOffBlockMap) - {PowerKey}
      ensures name == SetLidFiltering ==> screenOffBlockMap == old(screenOffBlockMap) - {Lid}
      ensures name == SetInterfaceCallFiltering ==> screenOffBlockMap == old(screenOffBlockMap) - {SuspendDeviceInterface}
      ensures name.OtherFunction? ==> screenOffBlockMap == old(screenOffBlockMap)
    {
      match name
      case SetPowerKeyFiltering => RemoveScreenOffBlock(PowerKey);
      case SetLidFiltering => RemoveScreenOffBlock(Lid);
      case SetInterfaceCallFiltering => RemoveScreenOffBlock(SuspendDeviceInterface);
      case OtherFunction(_) =>
    }
  }

  class DeathRecipientManager {
    var clientDeathRecipientMap: Recipients
    var fired: multiset<Firing>
    const table: BlockTable

    /** Both maps as a state of the runs below, with no call in flight. */
    ghost function Now(): State
      reads this, table
    {
      State(table.screenOffBlockMap, clientDeathRecipientMap, map[], fired, multiset{})
    }

    constructor (table: BlockTable)
      ensures clientDeathRecipientMap == map[] && fired == multiset{} && this.table == table
    {
      clientDeathRecipientMap, fired, this.table := map[], multiset{}, table;
    }

    method AddDeathRecipient(invoker: Option<Token>, name: FuncName)
      modifies this`clientDeathRecipientMap
      ensures clientDeathRecipientMap == AddRecipient(old(clientDeathRecipientMap), invoker, name)
    {
      if invoker.None? || !invoker.value.proxy {
        return;
      }
      if invoker.value !in clientDeathRecipientMap {
        assert {} + {name} == {name};
        clientDeathRecipientMap := clientDeathRecipientMap[invoker.value := {name}];
      } else {
        var names := clientDeathRecipientMap[invoker.value] + {name};
        clientDeathRecipientMap := clientDeathRecipientMap[invoker.value := names];
      }
    }

    /** A notice of death for an object that is gone already (`None`) is ignored. */
    method OnRemoteDied(remote: Option<Token>)
      modifies this`clientDeathRecipientMap, this`fired, table
      ensures remote.None? ==>
        clientDeathRecipientMap == old(clientDeathRecipientMap) && fired == old(fired) &&
        table.screenOffBlockMap == old(table.screenOffBlockMap)
      ensures remote.Some? ==>
        var names := Registered(old(clientDeathRecipientMap), remote.value);
        && clientDeathRecipientMap == old(clientDeathRecipientMap) - {remote.value}
        && fired == old(fired) + multiset(Firings(remote.value, names))
        && table.screenOffBlockMap == Cleared(old(table.screenOffBlockMap), names)
      ensures remote.Some? ==> Now() == Happens(old(Now()), Died(remote.value))
      ensures remote.Some? && remote.value.proxy && Covered(old(Now()), remote.value) ==>
        forall t :: t in table.screenOffBlockMap ==> table.screenOffBlockMap[t] != remote
      ensures forall u: Token :: Covered(old(Now()), u) ==> Covered(Now(), u)
    {
      ghost var before := Now();
      if remote.Some? {
        RemoveDeathRecipient(remote.value);
        forall u: Token | Covered(before, u) ensures Covered(Now(), u) {
          StepCovers(before, Died(remote.value), u);
        }
        if remote.value.proxy && Covered(before, remote.value) {
          DeadHoldsNothing(before, remote.value);
        }
      }
    }

    method RemoveDeathRecipient(token: Token)
      modifies this`clientDeathRecipientMap, this`fired, table
      ensures var names := Registered(old(clientDeathRecipientMap), token);
        && clientDeathRecipientMap == old(clientDeathRecipientMap) - {token}
        && fired == old(fired) + multiset(Firings(token, names))
        && table.screenOffBlockMap == Cleared(old(table.screenOffBlockMap), names)
    {
      if token in clientDeathRecipientMap {
        var names := clientDeathRecipientMap[token];
        var rest := names;
        hide Cleared;
        assert names - rest == {};
        ClearedNothing(table.screenOffBlockMap);
        while rest != {}
          invariant rest <= names
          invariant clientDeathRecipientMap == old(clientDeathRecipientMap)
          invariant fired == old(fired) + multiset(Firings(token, names - rest))
          invariant table.screenOffBlockMap == Cleared(old(table.screenOffBlockMap), names - rest)
          decreases rest
        {
          var name :| name in rest;
          assert names - (rest - {name}) == (names - rest) + {name};
          assert Firings(token, names - (rest - {name})) == Firings(token, names - rest) + {Firing(token, name)};
          assert Firing(token, name) !in Firings(token, names - rest);
          ClearedTwice(old(table.screenOffBlockMap), names - rest, name);
          RunRegistered(token, name);
          rest := rest - {name};
        }
        assert names - rest == names;
        clientDeathRecipientMap := clientDeathRecipientMap - {token};
      }
    }

    method RunRegistered(token: Token, name: FuncName)
      modifies this`fired, table
      ensures fired == old(fired) + multiset{Firing(token, name)}
      ensures table.screenOffBlockMap == Cleared(old(table.screenOffBlockMap), {name})
    {
      table.RunCallback(name);
      fired := fired + multiset{Firing(token, name)};
    }

    method RemoveDeathRecipientObj(token: Token)
      modifies this`clientDeathRecipientMap
      ensures clientDeathRecipientMap == old(clientDeathRecipientMap) - {token}
      ensures Now() == Happens(old(Now()), Withdraw(token))
    {
      if token in clientDeathRecipientMap {
        clientDeathRecipientMap := clientDeathRecipientMap - {token};
      }
    }
  }

  const DISABLE_LONG_PRESS_FILTERING: nat := 0
  const LONG_PRESS_FILTERING_ONCE: nat := 1
  const POWER_KEY_UP_SHORT_PRESS_FILTERING: nat := 2
  const POWER_KEY_UP_SHORT_PRESS_NOT_FILTERING: nat := 3
  const LID_CLOSE_FILTERING: nat := 1
  const SUSPEND_DEVICE_FILTERING: nat := 1
  const STRATEGY_MAX: nat := 2   // of the lid and the interface-call strategies

  /** A call of a client, with the strategy as the number that arrives. */
  datatype Call = PowerKeyCall(strategy: nat) | LidCall(strategy: nat) | InterfaceCall(strategy: nat)

  function TypeOf(c: Call): BlockType {
    match c
    case PowerKeyCall(_) => PowerKey
    case LidCall(_) => Lid
    case InterfaceCall(_) => SuspendDeviceInterface
  }

  /** Does the call write the block map and register a callback at all? */
  predicate Acts(c: Call) {
    match c
    case PowerKeyCall(s) => s == POWER_KEY_UP_SHORT_PRESS_FILTERING || s == POWER_KEY_UP_SHORT_PRESS_NOT_FILTERING
    case LidCall(s) => s < STRATEGY_MAX
    case InterfaceCall(s) => s < STRATEGY_MAX
  }

  predicate Blocks(c: Call) {
    match c
    case PowerKeyCall(s) => s == POWER_KEY_UP_SHORT_PRESS_FILTERING
    case LidCall(s) => s == LID_CLOSE_FILTERING
    case InterfaceCall(s) => s == SUSPEND_DEVICE_FILTERING
  }

  /** The first half of a call: the block map. The second half registers the callback. */
  function Applied(blocks: BlockMap, c: Call, token: Option<Token>): BlockMap {
    if !Acts(c) then blocks
    else if Blocks(c) then blocks[TypeOf(c) := token]
    else blocks - {TypeOf(c)}
  }

  class PowerMgrService {
    const table: BlockTable
    const manager: DeathRecipientManager
    var shutdownDialogForbid: bool

    constructor (table: BlockTable, manager: DeathRecipientManager)
      ensures this.table == table && this.manager == manager && !shutdownDialogForbid
    {
      this.table, this.manager, shutdownDialogForbid := table, manager, false;
    }

    method SetPowerKeyFilteringStrategy(strategy: nat, token: Option<Token>) returns (e: PowerErrors)
      requires manager.table == table
      modifies this, table, manager`clientDeathRecipientMap
      ensures e == ErrOk
      ensures table.screenOffBlockMap ==
              if strategy == 2 then old(table.screenOffBlockMap)[PowerKey := token]
              else if strategy == 3 then old(table.screenOffBlockMap) - {PowerKey}
              else old(table.screenOffBlockMap)
      ensures manager.Now() == WholeCall(old(manager.Now()), token, PowerKeyCall(strategy))
      ensures forall u: Token :: Covered(old(manager.Now()), u) ==> Covered(manager.Now(), u)
      ensures manager.clientDeathRecipientMap ==
              if strategy == 2 || strategy == 3
              then AddRecipient(old(manager.clientDeathRecipientMap), token, SetPowerKeyFiltering)
              else old(manager.clientDeathRecipientMap)
      ensures shutdownDialogForbid == if strategy <= 1 then strategy == 1 else old(shutdownDialogForbid)
    {
      WholeCallIs(manager.Now(), token, PowerKeyCall(strategy));
      if strategy == DISABLE_LONG_PRESS_FILTERING {
        shutdownDialogForbid := false;
      } else if strategy == LONG_PRESS_FILTERING_ONCE {
        shutdownDialogForbid := true;
      } else if strategy == POWER_KEY_UP_SHORT_PRESS_FILTERING {
        table.UpdateScreenOffBlock(PowerKey, token);
        manager.AddDeathRecipient(token, SetPowerKeyFiltering);
      } else if strategy == POWER_KEY_UP_SHORT_PRESS_NOT_FILTERING {
        table.RemoveScreenOffBlock(PowerKey);
        manager.AddDeathRecipient(token, SetPowerKeyFiltering);
      }
      return ErrOk;
    }

    method SetLidFilteringStrategy(strategy: nat, token: Option<Token>) returns (e: PowerErrors)
      requires manager.table == table
      modifies table, manager`clientDeathRecipientMap
      ensures e == if strategy < 2 then ErrOk else ErrParamInvalid
      ensures table.screenOffBlockMap ==
              if strategy == 1 then old(table.screenOffBlockMap)[Lid := token]
              else if strategy == 0 then old(table.screenOffBlockMap) - {Lid}
              else old(table.screenOffBlockMap)
      ensures manager.Now() == WholeCall(old(manager.Now()), token, LidCall(strategy))
      ensures forall u: Token :: Covered(old(manager.Now()), u) ==> Covered(manager.Now(), u)
      ensures manager.clientDeathRecipientMap ==
              if e.ErrOk? then AddRecipient(old(manager.clientDeathRecipientMap), token, SetLidFiltering)
              else old(manager.clientDeathRecipientMap)
    {
      WholeCallIs(manager.Now(), token, LidCall(strategy));
      if strategy >= STRATEGY_MAX {
        return ErrParamInvalid;
      }
      if strategy == LID_CLOSE_FILTERING {
        table.UpdateScreenOffBlock(Lid, token);
      } else {
        table.RemoveScreenOffBlock(Lid);
      }
      manager.AddDeathRecipient(token, SetLidFiltering);
      return ErrOk;
    }

    method SetInterfaceCallFilteringStrategy(strategy: nat, token: Option<Token>) returns (e: PowerErrors)
      requires manager.table == table
      modifies table, manager`clientDeathRecipientMap
      ensures e == if strategy < 2 then ErrOk else ErrParamInvalid
      ensures table.screenOffBlockMap ==
              if strategy == 1 then old(table.screenOffBlockMap)[SuspendDeviceInterface := token]
              else if strategy == 0 then old(table.screenOffBlockMap) - {SuspendDeviceInterface}
              else old(table.screenOffBlockMap)
      ensures manager.Now() == WholeCall(old(manager.Now()), token, InterfaceCall(strategy))
      ensures forall u: Token :: Covered(old(manager.Now()), u) ==> Covered(manager.Now(), u)
      ensures manager.clientDeathRecipientMap ==
              if e.ErrOk? then AddRecipient(old(manager.clientDeathRecipientMap), token, SetInterfaceCallFiltering)
              else old(manager.clientDeathRecipientMap)
    {
      WholeCallIs(manager.Now(), token, InterfaceCall(strategy));
      if strategy >= STRATEGY_MAX {
        return ErrParamInvalid;
      }
      if strategy == SUSPEND_DEVICE_FILTERING {
        table.UpdateScreenOffBlock(SuspendDeviceInterface, token);
      } else {
        table.RemoveScreenOffBlock(SuspendDeviceInterface);
      }
      manager.AddDeathRecipient(token, SetInterfaceCallFiltering);
      return ErrOk;
    }
  }

  // ---------------------------------------------------------------------------------------
  // Runs: calls in two halves, so that other clients' calls and deaths come in between

  /** A call between its two halves. */
  datatype InFlight = InFlight(token: Option<Token>, call: Call)

  /**
   * Both maps, the calls in flight, and two counts: callbacks that were run, and
   * registrations that were new.
   */
  datatype State = State(
    blocks: BlockMap, recipients: Recipients, calls: map<nat, InFlight>,
    fired: multiset<Firing>, registered: multiset<Firing>)

  datatype Event =
    | Begin(id: nat, client: Option<Token>, call: Call)
    | End(id: nat)
    | Register(client: Option<Token>, code: nat)  // some other function of the service
    | Died(token: Token)                          // the notice of death is handled
    | Withdraw(token: Token)                      // RemoveDeathRecipientObj

  predicate Legal(s: State, e: Event) {
    match e
    case Begin(id, _, c) => id !in s.calls && Acts(c)
    case End(id) => id in s.calls
    case _ => true
  }

  function Counted(s: State, token: Option<Token>, name: FuncName): multiset<Firing> {
    if token.None? || !token.value.proxy || name in Registered(s.recipients, token.value) then s.registered
    else s.registered + multiset{Firing(token.value, name)}
  }

  function Happens(s: State, e: Event): State
    requires Legal(s, e)
  {
    match e
    case Begin(id, token, c) => s.(blocks := Applied(s.blocks, c, token), calls := s.calls[id := InFlight(token, c)])
    case End(id) =>
      var token, name := s.calls[id].token, Clearer(TypeOf(s.calls[id].call));
      s.(recipients := AddRecipient(s.recipients, token, name), registered := Counted(s, token, name),
         calls := s.calls - {id})
    case Register(token, code) =>
      s.(recipients := AddRecipient(s.recipients, token, OtherFunction(code)),
         registered := Counted(s, token, OtherFunction(code)))
    case Died(token) =>
      var names := Registered(s.recipients, token);
      s.(blocks := Cleared(s.blocks, names), recipients := s.recipients - {token},
         fired := s.fired + multiset(Firings(token, names)))
    case Withdraw(token) => s.(recipients := s.recipients - {token})
  }

  /** A call with nothing in between its two halves. */
  function WholeCall(s: State, token: Option<Token>, c: Call): State
    requires s.calls == map[]
  {
    if !Acts(c) then s else Happens(Happens(s, Begin(0, token, c)), End(0)).(registered := s.registered)
  }

  /** What a whole call does to the maps, and that it leaves every client covered. */
  lemma WholeCallIs(s: State, token: Option<Token>, c: Call)
    requires s.calls == map[]
    ensures WholeCall(s, token, c) ==
            s.(blocks := Applied(s.blocks, c, token),
               recipients := if Acts(c) then AddRecipient(s.recipients, token, Clearer(TypeOf(c))) else s.recipients)
    ensures forall u: Token :: Covered(s, u) ==> Covered(WholeCall(s, token, c), u)
  {
    if Acts(c) {
      var s1 := Happens(s, Begin(0, token, c));
      var s2 := Happens(s1, End(0));
      assert s2.calls == map[];
      forall u: Token | Covered(s, u) ensures Covered(WholeCall(s, token, c), u) {
        StepCovers(s, Begin(0, token, c), u);
        StepCovers(s1, End(0), u);
        CoveredRegardless(s2, s.registered, u);
      }
    }
  }

  lemma CoveredRegardless(s: State, registered: multiset<Firing>, token: Token)
    ensures Covered(s.(registered := registered), token) <==> Covered(s, token)
  {
  }

  predicate LegalRun(s: State, es: seq<Event>)
    decreases |es|
  {
    es != [] ==> Legal(s, es[0]) && LegalRun(Happens(s, es[0]), es[1..])
  }

  function Run(s: State, es: seq<Event>): State
    requires LegalRun(s, es)
    decreases |es|
  {
    if es == [] then s else Run(Happens(s, es[0]), es[1..])
  }

  const IDLE: State := State(map[], map[], map[], multiset{}, multiset{})

  /** A call of this client on this type of block is in flight. */
  ghost predicate Calling(s: State, token: Token, t: BlockType) {
    exists id :: id in s.calls && s.calls[id].token == Some(token) && TypeOf(s.calls[id].call) == t
  }

  predicate Holds(s: State, token: Token, t: BlockType) { t in s.blocks && s.blocks[t] == Some(token) }

  /** A block of this client has its clearing callback registered, or is about to. */
  ghost predicate Covered(s: State, token: Token) {
    token.proxy ==>
      forall t :: Holds(s, token, t) ==> Clearer(t) in Registered(s.recipients, token) || Calling(s, token, t)
  }

  lemma StepCovers(s: State, e: Event, token: Token)
    requires Legal(s, e) && Covered(s, token) && e != Withdraw(token)
    ensures Covered(Happens(s, e), token)
  {
    var n := Happens(s, e);
    forall t | token.proxy && Holds(n, token, t)
      ensures Clearer(t) in Registered(n.recipients, token) || Calling(n, token, t)
    {
      StepCoversType(s, e, token, t);
    }
  }

  lemma StepCoversType(s: State, e: Event, token: Token, t: BlockType)
    requires Legal(s, e) && Covered(s, token) && e != Withdraw(token) && token.proxy && Holds(Happens(s, e), token, t)
    ensures var n := Happens(s, e); Clearer(t) in Registered(n.recipients, token) || Calling(n, token, t)
  {
    var n := Happens(s, e);
    match e
    case Begin(id, tok, c) =>
      if tok == Some(token) && TypeOf(c) == t {
        assert n.calls[id] == InFlight(tok, c);
      } else {
        assert Holds(s, token, t);
        if Calling(s, token, t) {
          var w :| w in s.calls && s.calls[w].token == Some(token) && TypeOf(s.calls[w].call) == t;
          assert n.calls[w] == s.calls[w];
        }
      }
    case End(id) =>
      assert Holds(s, token, t);
      if Clearer(t) !in Registered(s.recipients, token) {
        var w :| w in s.calls && s.calls[w].token == Some(token) && TypeOf(s.calls[w].call) == t;
        if w != id {
          assert n.calls[w] == s.calls[w];
        }
      }
    case _ => assert Holds(s, token, t);
  }

  /**
   * On every run that does not withdraw the client's registration: a block that a remote client
   * holds has its clearing callback registered under that client, or the client's call is still
   * between its two halves.
   */
  lemma {:induction false} BlocksAreCovered(s: State, es: seq<Event>, token: Token)
    requires LegalRun(s, es) && Covered(s, token) && Withdraw(token) !in es
    ensures Covered(Run(s, es), token)
    decreases |es|
  {
    hide Covered, Legal, Happens;
    if es != [] {
      StepCovers(s, es[0], token);
      BlocksAreCovered(Happens(s, es[0]), es[1..], token);
    }
  }

  /**
   * What a handled notice of death does to blocks, exactly: whoever holds a block keeps it iff
   * the dead client has not registered the clearing callback of its type.
   */
  lemma DeathClears(s: State, dead: Token, holder: Token, t: BlockType)
    ensures var n := Happens(s, Died(dead));
      && (Holds(n, holder, t) <==> Holds(s, holder, t) && Clearer(t) !in Registered(s.recipients, dead))
      && (Blocked(n.blocks, t) <==> Blocked(s.blocks, t) && Clearer(t) !in Registered(s.recipients, dead))
  {
  }

  /** The event ends a call of this client on this type of block. */
  predicate Completes(s: State, e: Event, token: Token, t: BlockType) {
    e.End? && e.id in s.calls && s.calls[e.id].token == Some(token) && TypeOf(s.calls[e.id].call) == t
  }

  /** The `i`-th event of the run does. */
  ghost predicate CompletesAt(s: State, es: seq<Event>, i: nat, token: Token, t: BlockType)
    requires LegalRun(s, es) && i < |es|
    decreases i
  {
    if i == 0 then Completes(s, es[0], token, t) else CompletesAt(Happens(s, es[0]), es[1..], i - 1, token, t)
  }

  predicate Drops(e: Event, token: Token) { e == Died(token) || e == Withdraw(token) }

  /** No event of the run from the `i`-th on drops what the client has registered. */
  predicate Stands(es: seq<Event>, i: nat, token: Token) { forall j :: i <= j < |es| ==> !Drops(es[j], token) }

  /** In the run, the client has completed a call on this type since its last death or withdrawal. */
  ghost predicate CalledSince(s: State, es: seq<Event>, token: Token, t: BlockType)
    requires LegalRun(s, es)
  {
    exists i: nat :: i < |es| && CompletesAt(s, es, i, token, t) && Stands(es, i + 1, token)
  }

  lemma StepRegisters(s: State, e: Event, token: Token, t: BlockType)
    requires Legal(s, e) && token.proxy
    ensures Clearer(t) in Registered(Happens(s, e).recipients, token) <==>
            Completes(s, e, token, t) || (Clearer(t) in Registered(s.recipients, token) && !Drops(e, token))
  {
    hide Applied, Cleared, Counted, Firings;
  }

  lemma CalledSinceStep(s: State, es: seq<Event>, token: Token, t: BlockType)
    requires LegalRun(s, es) && es != []
    ensures CalledSince(s, es, token, t) <==>
            CalledSince(Happens(s, es[0]), es[1..], token, t) || (Completes(s, es[0], token, t) && Stands(es, 1, token))
  {
    hide Completes, Drops, Happens;
    var n, rest := Happens(s, es[0]), es[1..];
    if CalledSince(s, es, token, t) {
      var i: nat :| i < |es| && CompletesAt(s, es, i, token, t) && Stands(es, i + 1, token);
      if i > 0 {
        StandsShifts(es, i, token);
        assert CompletesAt(n, rest, i - 1, token, t) && Stands(rest, i, token);
      }
    }
    if CalledSince(n, rest, token, t) {
      var i: nat :| i < |rest| && CompletesAt(n, rest, i, token, t) && Stands(rest, i + 1, token);
      StandsShifts(es, i + 1, token);
      assert CompletesAt(s, es, i + 1, token, t) && Stands(es, i + 2, token);
    }
    if Completes(s, es[0], token, t) && Stands(es, 1, token) {
      assert CompletesAt(s, es, 0, token, t);
    }
  }

  lemma StandsShifts(es: seq<Event>, i: nat, token: Token)
    requires es != []
    ensures Stands(es[1..], i, token) <==> Stands(es, i + 1, token)
  {
    if Stands(es[1..], i, token) {
      forall j | i + 1 <= j < |es| ensures !Drops(es[j], token) { assert es[j] == es[1..][j - 1]; }
    }
  }

  /**
   * On every run: a remote client's callback for a type of block is registered iff it has
   * completed a call on that type since its last death or withdrawal (or was registered at the
   * start, and no death or withdrawal has come).
   */
  lemma {:induction false} RegisteredSinceCall(s: State, es: seq<Event>, token: Token, t: BlockType)
    requires LegalRun(s, es) && token.proxy
    ensures Clearer(t) in Registered(Run(s, es).recipients, token) <==>
            CalledSince(s, es, token, t) || (Clearer(t) in Registered(s.recipients, token) && Stands(es, 0, token))
    decreases |es|
  {
    hide Happens, Completes, CompletesAt, Registered, Clearer, Drops;
    if es != [] {
      var n := Happens(s, es[0]);
      RegisteredSinceCall(n, es[1..], token, t);
      StepRegisters(s, es[0], token, t);
      CalledSinceStep(s, es, token, t);
      StandsShifts(es, 0, token);
      assert Stands(es, 0, token) <==> !Drops(es[0], token) && Stands(es, 1, token);
    }
  }

  /**
   * What a handled death does to the block of a type, in terms of the history since the service
   * started: whoever holds the block, it goes iff the dead client has completed a call on that
   * type since its last death or withdrawal.
   */
  lemma DeathClearsByHistory(es: seq<Event>, dead: Token, holder: Token, t: BlockType)
    requires LegalRun(IDLE, es) && dead.proxy && Holds(Run(IDLE, es), holder, t)
    ensures Holds(Happens(Run(IDLE, es), Died(dead)), holder, t) <==> !CalledSince(IDLE, es, dead, t)
  {
    hide LegalRun, Run, Clearer;
    RegisteredSinceCall(IDLE, es, dead, t);
    DeathClears(Run(IDLE, es), dead, holder, t);
  }

  /** A covered remote client without a call in flight holds nothing once its death is handled. */
  lemma DeadHoldsNothing(s: State, token: Token)
    requires token.proxy && Covered(s, token) && s.calls == map[]
    ensures forall t :: !Holds(Happens(s, Died(token)), token, t)
  {
    forall t ensures !Holds(Happens(s, Died(token)), token, t) { DeathClears(s, token, token, t); }
  }

  /** The client holds no block and is not about to. */
  ghost predicate Gone(s: State, token: Token) {
    && (forall t :: !Holds(s, token, t))
    && (forall id :: id in s.calls ==> s.calls[id].token != Some(token))
  }

  predicate BeginsNone(es: seq<Event>, token: Token) {
    forall e :: e in es ==> !(e.Begin? && e.client == Some(token))
  }

  lemma StaysGoneStep(s: State, e: Event, token: Token)
    requires Legal(s, e) && Gone(s, token) && !(e.Begin? && e.client == Some(token))
    ensures Gone(Happens(s, e), token)
  {
    var n := Happens(s, e);
    assert forall t :: Holds(n, token, t) ==> Holds(s, token, t);
  }

  lemma {:induction false} StaysGone(s: State, es: seq<Event>, token: Token)
    requires LegalRun(s, es) && Gone(s, token) && BeginsNone(es, token)
    ensures Gone(Run(s, es), token)
    decreases |es|
  {
    hide Gone, Legal, Happens;
    if es != [] {
      StaysGoneStep(s, es[0], token);
      StaysGone(Happens(s, es[0]), es[1..], token);
    }
  }

  lemma CallsShow(s: State, token: Token)
    ensures forall id :: id in s.calls && s.calls[id].token == Some(token) ==> Calling(s, token, TypeOf(s.calls[id].call))
  {
  }

  /**
   * No block outlives its client: whatever other clients do, once the notice of death of a
   * remote client that has no call in flight is handled, the client holds no block, for good.
   */
  lemma NoBlockOutlivesItsClient(es: seq<Event>, token: Token, later: seq<Event>)
    requires token.proxy && LegalRun(IDLE, es) && Withdraw(token) !in es
    requires var s := Run(IDLE, es);
      && (forall t :: !Calling(s, token, t))
      && LegalRun(Happens(s, Died(token)), later) && BeginsNone(later, token)
    ensures Gone(Run(Happens(Run(IDLE, es), Died(token)), later), token)
  {
    hide LegalRun, Run, Clearer;
    var s := Run(IDLE, es);
    assert Covered(IDLE, token);
    BlocksAreCovered(IDLE, es, token);
    var n := Happens(s, Died(token));
    forall t ensures !Holds(n, token, t) { DeathClears(s, token, token, t); }
    CallsShow(s, token);
    StaysGone(n, later, token);
  }

  // ---------------------------------------------------------------------------------------
  // Callbacks are run exactly once

  function One(b: bool): nat { if b then 1 else 0 }

  /** Each new registration has been paid for by one run of its callback, or still stands. */
  ghost predicate Balanced(s: State, p: Firing) {
    s.registered[p] == s.fired[p] + One(p.name in Registered(s.recipients, p.token))
  }

  lemma FiringsCount(token: Token, names: set<FuncName>, p: Firing)
    ensures multiset(Firings(token, names))[p] == One(p.token == token && p.name in names)
  {
    assert p in Firings(token, names) <==> p.token == token && p.name in names;
  }

  lemma StepBalances(s: State, e: Event, p: Firing)
    requires Legal(s, e) && Balanced(s, p) && e != Withdraw(p.token)
    ensures Balanced(Happens(s, e), p)
  {
    if e.Died? {
      FiringsCount(e.token, Registered(s.recipients, e.token), p);
    }
  }

  /**
   * On every run without a withdrawal, each callback has been run exactly as often as it was
   * newly registered, except for the registration that still stands.
   */
  lemma {:induction false} CallbacksRunOncePerRegistration(s: State, es: seq<Event>, p: Firing)
    requires LegalRun(s, es) && Balanced(s, p) && Withdraw(p.token) !in es
    ensures Balanced(Run(s, es), p)
    decreases |es|
  {
    hide Balanced, Legal, Happens;
    if es != [] {
      StepBalances(s, es[0], p);
      CallbacksRunOncePerRegistration(Happens(s, es[0]), es[1..], p);
    }
  }

  /** Nothing registers under this client: neither a new call or registration nor one in flight. */
  ghost predicate Silent(s: State, es: seq<Event>, token: Token) {
    && (forall id :: id in s.calls ==> s.calls[id].token != Some(token))
    && (forall e :: e in es ==> !((e.Begin? || e.Register?) && e.client == Some(token)))
  }

  lemma SilentStep(s: State, e: Event, token: Token, name: FuncName)
    requires Legal(s, e) && Silent(s, [e], token) && token !in s.recipients
    ensures var n := Happens(s, e);
      token !in n.recipients && n.fired[Firing(token, name)] == s.fired[Firing(token, name)] && Silent(n, [], token)
  {
    assert e in [e];
    if e.Died? {
      FiringsCount(e.token, Registered(s.recipients, e.token), Firing(token, name));
    }
  }

  lemma {:induction false} NothingMoreFires(s: State, es: seq<Event>, token: Token, name: FuncName)
    requires LegalRun(s, es) && Silent(s, es, token) && token !in s.recipients
    ensures Run(s, es).fired[Firing(token, name)] == s.fired[Firing(token, name)]
    decreases |es|
  {
    hide Legal, Happens;
    if es != [] {
      assert es[0] in es;
      SilentStep(s, es[0], token, name);
      NothingMoreFires(Happens(s, es[0]), es[1..], token, name);
    }
  }

  /**
   * A notice of death runs each callback that is registered under the client once, and no
   * other; further notices, among whatever else happens, run none of them again.
   */
  lemma RepeatedNoticesDoNothing(s: State, later: seq<Event>, token: Token, name: FuncName)
    requires var n := Happens(s, Died(token)); LegalRun(n, later) && Silent(n, later, token)
    ensures var n := Happens(s, Died(token));
      && Run(n, later).fired[Firing(token, name)] ==
         s.fired[Firing(token, name)] + One(name in Registered(s.recipients, token))
      && Happens(n, Died(token)) == n
  {
    hide LegalRun, Run, Silent;
    var n := Happens(s, Died(token));
    FiringsCount(token, Registered(s.recipients, token), Firing(token, name));
    NothingMoreFires(n, later, token, name);
    assert Firings(token, {}) == {};
    assert Cleared(n.blocks, {}) == n.blocks;
  }

  // ---------------------------------------------------------------------------------------
  // Two things the code does not prevent

  /** A client's death also clears a block that another client, still alive, has taken over. */
  lemma DeathClearsTheNextHoldersBlock(t: Token, u: Token)
    requires t.proxy && u.proxy && t != u
    ensures var es := [Begin(0, Some(t), LidCall(1)), End(0), Begin(1, Some(u), LidCall(1)), End(1)];
      && LegalRun(IDLE, es)
      && Holds(Run(IDLE, es), u, Lid)
      && !Blocked(Happens(Run(IDLE, es), Died(t)).blocks, Lid)
  {
    var c := LidCall(1);
    var s1 := Happens(IDLE, Begin(0, Some(t), c));
    var s2 := Happens(s1, End(0));
    var s3 := Happens(s2, Begin(1, Some(u), c));
    var s4 := Happens(s3, End(1));
    assert LegalRun(s3, [End(1)]) && Run(s3, [End(1)]) == s4;
    var es2 := [Begin(1, Some(u), c), End(1)];
    assert es2[1..] == [End(1)];
    assert LegalRun(s2, es2) && Run(s2, es2) == s4;
    var es1 := [End(0), Begin(1, Some(u), c), End(1)];
    assert es1[1..] == es2;
    assert LegalRun(s1, es1) && Run(s1, es1) == s4;
    var es := [Begin(0, Some(t), c), End(0), Begin(1, Some(u), c), End(1)];
    assert es[1..] == es1;
    DeathClears(s4, t, u, Lid);
  }

  /**
   * A client that dies between the two halves of its call leaves its block behind: the notice
   * finds nothing registered, and the registration that follows comes too late.
   */
  lemma DeathInsideACallLeavesTheBlock(t: Token)
    requires t.proxy
    ensures var es := [Begin(0, Some(t), LidCall(1)), Died(t), End(0)];
      LegalRun(IDLE, es) && Holds(Run(IDLE, es), t, Lid) && Run(IDLE, es).calls == map[]
  {
    var c := LidCall(1);
    var s1 := Happens(IDLE, Begin(0, Some(t), c));
    var s2 := Happens(s1, Died(t));
    var s3 := Happens(s2, End(0));
    assert LegalRun(s2, [End(0)]) && Run(s2, [End(0)]) == s3;
    var es1 := [Died(t), End(0)];
    assert es1[1..] == [End(0)];
    assert LegalRun(s1, es1) && Run(s1, es1) == s3;
    var es := [Begin(0, Some(t), c), Died(t), End(0)];
    assert es[1..] == es1;
  }
}
