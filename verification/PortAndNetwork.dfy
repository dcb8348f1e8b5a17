/**
 `Port` and `Network` of `rapi_core/include/core/port.hpp`, `rapi_core/src/port.cpp` and
 `rapi_core/include/core/network.hpp` with their fields, proved against `PortModel`. What other
 threads do to the two queues whenever the consumer has released `eventMutex_` is a list of
 batches, one for each such interval.
 */
module PortClass {
  import opened Options
  import opened PortModel
  import opened PriorityClass
  import opened DP = DispatcherPool
  import R = Runtime
  import A = ActorClass

  type PortId = nat

  // ----- arrivals -----

  datatype Arrival = Ordered(command: Command) | Published(id: nat, ty: EventType)

  function Arrive(p: Port_, arrival: Arrival): Port_ {
    match arrival
    case Ordered(command) => Issue(p, command)
    case Published(id, ty) => Enqueue(p, id, ty)
  }

  type Port_ = PortModel.Port

  function IdOf(arrival: Arrival): seq<nat> { if arrival.Published? then [arrival.id] else [] }

  function Ids(batch: seq<Arrival>): seq<nat> {
    if batch == [] then [] else IdOf(batch[0]) + Ids(batch[1..])
  }

  function AllIds(world: seq<seq<Arrival>>): seq<nat> {
    if world == [] then [] else Ids(world[0]) + AllIds(world[1..])
  }

  /** What the port has received and will receive, in order. */
  ghost function Coming(p: Port_, world: seq<seq<Arrival>>): seq<nat> { Received(p) + AllIds(world) }

  lemma ArriveKeeps(p: Port_, st: Stage, arrival: Arrival)
    requires PortInv(p, st)
    ensures PortInv(Arrive(p, arrival), st)
  {
    match arrival {
      case Ordered(command) => IssueKeeps(p, st, command);
      case Published(id, ty) => EnqueueKeeps(p, st, id, ty);
    }
  }

  lemma ArriveReceives(p: Port_, batch: seq<Arrival>, later: seq<nat>)
    requires batch != []
    ensures Received(Arrive(p, batch[0])) + Ids(batch[1..]) + later == Received(p) + Ids(batch) + later
  {
    ReceivesOne(p, batch[0]);
    Associate(Received(p), IdOf(batch[0]), Ids(batch[1..]));
  }

  lemma Associate(a: seq<nat>, b: seq<nat>, c: seq<nat>)
    ensures a + b + c == a + (b + c)
  {
  }

  lemma ReceivesOne(p: Port_, arrival: Arrival)
    ensures Received(Arrive(p, arrival)) == Received(p) + IdOf(arrival)
  {
    assert EventIds(Arrive(p, arrival).events) == EventIds(p.events) + IdOf(arrival);
  }

  // A listen for a new type, in one step.
  ghost function NewType(p: Port_, command: Command, netHandle: Handle): Port_
    requires command.Listen?
  {
    p.(table := p.table[command.ty := map[command.handle := command.callBack]], applied := p.applied + 1,
       registered := p.registered[command.ty := netHandle])
  }

  lemma NewTypeKeeps(p: Port_, n: nat, command: Command, netHandle: Handle)
    requires PortInv(p, RunCommand(n, command)) && command.Listen? && command.ty !in p.table
    ensures PortInv(NewType(p, command, netHandle), Process(n))
  {
    RunPoppedKeeps(p, n, command);
    var p1 := RunPopped(p, n, command).0;
    ObtainHandleKeeps(p1, n, command, netHandle);
    RegisteredKeeps(p1, n, command, netHandle);
    assert Registered(p1, n, command, netHandle).0 == NewType(p, command, netHandle);
  }

  lemma ComingSplits(p: Port_, world: seq<seq<Arrival>>)
    requires world != []
    ensures Coming(p, world) == Received(p) + Ids(world[0]) + AllIds(world[1..])
  {
  }

  lemma ComingIncreases(p: Port_, world: seq<seq<Arrival>>)
    requires Increasing(Coming(p, world))
    ensures Increasing(Received(p))
  {
    assert forall i :: 0 <= i < |Received(p)| ==> Coming(p, world)[i] == Received(p)[i];
  }

  lemma DropsOne(events: seq<Event>, consumed: nat)
    ensures consumed < |events| ==> events[consumed..][1..] == events[consumed + 1..]
  {
  }

  // ----- calls -----

  /** What was added to the calls are calls of one event. */
  ghost predicate OnlyCallsOf(before: seq<(nat, Handle)>, after: seq<(nat, Handle)>, id: nat) {
    before <= after && forall i :: |before| <= i < |after| ==> after[i].0 == id
  }

  lemma OneMoreCall(before: seq<(nat, Handle)>, after: seq<(nat, Handle)>, id: nat, handle: Handle)
    requires OnlyCallsOf(before, after, id)
    ensures OnlyCallsOf(before, after + [(id, handle)], id)
  {
  }

  lemma AllCalled(p: Port_, n: nat, event: Event)
    requires PortInv(p, Dispatching(n, event, {}))
    ensures forall h: Handle :: (event.id, h) in p.calls <==> h in Handles(p.table, event.ty)
  {
  }

  // ----- the network -----

  class Network {
    var callbacks: map<EventType, map<Handle, PortId>>
    var handleCounter: nat

    ghost predicate Valid()
      reads this
    {
      && (forall ty, h :: h in R.ListenersOf(callbacks, ty) ==> h <= handleCounter)
      && (forall ty, h, k ::
            (var listeners := R.ListenersOf(callbacks, ty);
             h in listeners && k in listeners && listeners[h] == listeners[k] ==> h == k))
    }

    ghost predicate Lists(ty: EventType, port: PortId)
      reads this
    {
      exists h :: h in R.ListenersOf(callbacks, ty) && R.ListenersOf(callbacks, ty)[h] == port
    }

    constructor ()
      ensures Valid() && callbacks == map[]
    {
      callbacks, handleCounter := map[], 0;
    }

    method NewHandle() returns (handle: Handle)
      requires Valid()
      modifies this`handleCounter
      ensures Valid() && handle == handleCounter == old(handleCounter) + 1
    {
      handleCounter := handleCounter + 1;
      handle := handleCounter;
    }

    /** A first registration of `port` for `ty` overwrites nobody's, and keeps every port listed at most once. */
    method Listen(ty: EventType, port: PortId) returns (handle: Handle)
      requires Valid() && !Lists(ty, port)
      modifies this
      ensures Valid() && Lists(ty, port)
      ensures forall t :: handle !in R.ListenersOf(old(callbacks), t)
      ensures callbacks == old(callbacks)[ty := R.ListenersOf(old(callbacks), ty)[handle := port]]
    {
      handle := NewHandle();
      callbacks := callbacks[ty := R.ListenersOf(callbacks, ty)[handle := port]];
      assert R.ListenersOf(callbacks, ty)[handle] == port;
      assert forall t :: t != ty ==> R.ListenersOf(callbacks, t) == R.ListenersOf(old(callbacks), t);
    }
  }

  // ----- the port -----

  class Port {
    const id: PortId
    const owner: A.Actor
    const network: Network
    var handleCounter: nat
    var scheduled: bool
    var commandsQueue: seq<Command>
    var eventQueue: seq<Event>
    var callbacks: Table
    // history: written here, read by no decision
    var issued: seq<Command>
    var popped: nat
    var applied: nat
    var taken: seq<nat>
    var calls: seq<(nat, Handle)>
    var mark: nat
    var registered: map<EventType, Handle>

    ghost function View(): Port_
      reads this
    {
      Port_.Port(scheduled, commandsQueue, eventQueue, callbacks, issued, popped, applied, taken, calls, mark, registered)
    }

    /** The network lists this port for a type exactly once if the port registered for it, and else not. */
    ghost predicate Linked()
      reads this`registered, network
    {
      && network.Valid()
      && (forall ty :: ty in registered <==> network.Lists(ty, id))
      && (forall ty :: ty in registered ==>
            registered[ty] in R.ListenersOf(network.callbacks, ty)
            && R.ListenersOf(network.callbacks, ty)[registered[ty]] == id)
    }

    constructor (id: PortId, owner: A.Actor, network: Network)
      ensures View() == EMPTY_PORT && handleCounter == 0
      ensures this.id == id && this.owner == owner && this.network == network
      ensures PortInv(View(), Out)
    {
      this.id, this.owner, this.network := id, owner, network;
      handleCounter, scheduled, commandsQueue, eventQueue, callbacks := 0, false, [], [], map[];
      issued, popped, applied, taken, calls, mark, registered := [], 0, 0, [], [], 0, map[];
    }

    method NewHandle() returns (handle: Handle)
      modifies this`handleCounter
      ensures handle == handleCounter == old(handleCounter) + 1
    {
      handleCounter := handleCounter + 1;
      handle := handleCounter;
    }

    // ----- producers -----

    /** Called with eventMutex_ held. */
    method ScheduleOnOwner(who: Option<R.Tid>) returns (status: Status)
      requires owner.Valid() && owner.priority.Valid() && owner.MayPush(who)
      modifies this`scheduled, owner, owner.priority
      ensures owner.Valid() && owner.priority.Valid() && owner.MayPush(who) && scheduled
      ensures owner.priority.state == old(owner.priority.state)
      ensures owner.callBackQueue == old(owner.callBackQueue) + (if old(scheduled) then [] else [id])
      ensures old(scheduled) || old(owner.scheduled) ==> status == Ok && owner.priority.View() == old(owner.priority.View())
      ensures status == Ok <==> old(scheduled) || old(owner.scheduled) || old(owner.priority.state) != STOPPED
      ensures !old(scheduled) && !old(owner.scheduled) && status == Ok ==>
                owner.priority.View() == DP.Apply(old(owner.priority.View()), R.PushAction(who, owner.id))
    {
      status := Ok;
      if !scheduled {
        scheduled := true;
        status := owner.Schedule(id, who);
      }
    }

    /** The same, with what a producer of commands needs to know of it. */
    method TellOwner(who: Option<R.Tid>) returns (status: Status)
      requires owner.Valid() && owner.priority.Valid() && owner.MayPush(who)
      modifies this`scheduled, owner, owner.priority
      ensures owner.Valid() && scheduled
      ensures owner.callBackQueue == old(owner.callBackQueue) + (if old(scheduled) then [] else [id])
      ensures status == Ok <==> old(scheduled) || old(owner.scheduled) || old(owner.priority.state) != STOPPED
    {
      status := ScheduleOnOwner(who);
    }

    method Listen(ty: EventType, handle: Handle, callBack: CallBack, who: Option<R.Tid>)
      returns (status: Status)
      requires owner.Valid() && owner.priority.Valid() && owner.MayPush(who)
      modifies this, owner, owner.priority
      ensures View() == Issue(old(View()), PortModel.Listen(ty, handle, callBack))
      ensures commandsQueue == old(commandsQueue) + [PortModel.Listen(ty, handle, callBack)] && scheduled
      ensures handleCounter == old(handleCounter)
      ensures owner.Valid() && owner.callBackQueue == old(owner.callBackQueue) + (if old(scheduled) then [] else [id])
      ensures status == Ok <==> old(scheduled) || old(owner.scheduled) || old(owner.priority.state) != STOPPED
    {
      commandsQueue := commandsQueue + [PortModel.Listen(ty, handle, callBack)];
      issued := issued + [PortModel.Listen(ty, handle, callBack)];
      status := TellOwner(who);
    }

    method Unlisten(ty: EventType, handle: Handle, who: Option<R.Tid>) returns (status: Status)
      requires owner.Valid() && owner.priority.Valid() && owner.MayPush(who)
      modifies this, owner, owner.priority
      ensures View() == Issue(old(View()), PortModel.Unlisten(ty, handle))
      ensures commandsQueue == old(commandsQueue) + [PortModel.Unlisten(ty, handle)] && scheduled
      ensures handleCounter == old(handleCounter)
      ensures owner.Valid() && owner.callBackQueue == old(owner.callBackQueue) + (if old(scheduled) then [] else [id])
      ensures status == Ok <==> old(scheduled) || old(owner.scheduled) || old(owner.priority.state) != STOPPED
    {
      commandsQueue := commandsQueue + [PortModel.Unlisten(ty, handle)];
      issued := issued + [PortModel.Unlisten(ty, handle)];
      status := TellOwner(who);
    }

    /** This one does not schedule the port. */
    method UnlistenAll(handle: Handle)
      modifies this
      ensures View() == Issue(old(View()), PortModel.UnlistenAll(handle))
      ensures commandsQueue == old(commandsQueue) + [PortModel.UnlistenAll(handle)] && scheduled == old(scheduled)
      ensures handleCounter == old(handleCounter)
    {
      commandsQueue := commandsQueue + [PortModel.UnlistenAll(handle)];
      issued := issued + [PortModel.UnlistenAll(handle)];
    }

    method Schedule(event: nat, ty: EventType, who: Option<R.Tid>) returns (status: Status)
      requires owner.Valid() && owner.priority.Valid() && owner.MayPush(who)
      modifies this, owner, owner.priority
      ensures View() == Enqueue(old(View()), event, ty)
      ensures eventQueue == old(eventQueue) + [Event(event, ty, old(|issued|))] && scheduled
      ensures handleCounter == old(handleCounter)
      ensures owner.Valid() && owner.callBackQueue == old(owner.callBackQueue) + (if old(scheduled) then [] else [id])
      ensures owner.priority.Valid() && owner.MayPush(who) && owner.priority.state == old(owner.priority.state)
      ensures status == Ok <==> old(scheduled) || old(owner.scheduled) || old(owner.priority.state) != STOPPED
    {
      eventQueue := eventQueue + [Event(event, ty, |issued|)];
      status := ScheduleOnOwner(who);
    }

    // ----- the consumer -----

    method TakeIn(arrival: Arrival, ghost st: Stage)
      requires PortInv(View(), st) && scheduled
      modifies this`commandsQueue, this`eventQueue, this`issued
      ensures PortInv(View(), st) && View() == Arrive(old(View()), arrival)
      ensures arrival.Ordered? ==> commandsQueue == old(commandsQueue) + [arrival.command] && eventQueue == old(eventQueue)
      ensures arrival.Published? ==>
                commandsQueue == old(commandsQueue) && eventQueue == old(eventQueue) + [Event(arrival.id, arrival.ty, old(|issued|))]
    {
      ArriveKeeps(View(), st, arrival);
      match arrival {
        case Ordered(command) =>
          commandsQueue, issued := commandsQueue + [command], issued + [command];
        case Published(event, ty) =>
          eventQueue := eventQueue + [Event(event, ty, |issued|)];
      }
    }

    /** The other threads, while the consumer has released eventMutex_ and the port is scheduled. */
    method Interfere(world: seq<seq<Arrival>>, ghost st: Stage) returns (rest: seq<seq<Arrival>>)
      requires PortInv(View(), st) && scheduled
      modifies this`commandsQueue, this`eventQueue, this`issued
      ensures PortInv(View(), st) && Coming(View(), rest) == old(Coming(View(), world))
      ensures |rest| < |world| || (rest == world == [] && View() == old(View()))
    {
      if world == [] {
        return [];
      }
      ComingSplits(View(), world);
      ghost var coming := Coming(View(), world);
      var batch := world[0];
      rest := world[1..];
      while batch != []
        invariant PortInv(View(), st) && scheduled
        invariant Received(View()) + Ids(batch) + AllIds(rest) == coming
        decreases |batch|
      {
        ArriveReceives(View(), batch, AllIds(rest));
        TakeIn(batch[0], st);
        batch := batch[1..];
      }
      assert Received(View()) + Ids([]) == Received(View());
    }

    method Register(ty: EventType) returns (netHandle: Handle)
      requires Linked() && ty !in registered
      modifies this`registered, network
      ensures Linked() && registered == old(registered)[ty := netHandle]
    {
      netHandle := network.Listen(ty, id);
      registered := registered[ty := netHandle];
      assert forall t :: t != ty ==> R.ListenersOf(network.callbacks, t) == R.ListenersOf(old(network.callbacks), t);
    }

    /** A listen for a type that the table does not have. */
    method ListenToNewType(command: Command, ghost n: nat)
      requires PortInv(View(), RunCommand(n, command)) && Linked() && command.Listen? && command.ty !in callbacks
      modifies this`callbacks, this`applied, this`registered, network
      ensures PortInv(View(), Process(n)) && Linked()
    {
      ghost var before := View();
      var netHandle := Register(command.ty);
      NewTypeKeeps(before, n, command, netHandle);
      var listeners: map<Handle, CallBack> := map[command.handle := command.callBack];
      callbacks := callbacks[command.ty := listeners];
      applied := applied + 1;
      assert View() == NewType(before, command, netHandle);
    }

    /** The body of a queued command. */
    method Execute(command: Command, ghost n: nat)
      requires PortInv(View(), RunCommand(n, command)) && Linked()
      modifies this`callbacks, this`applied, this`registered, network
      ensures PortInv(View(), Process(n)) && Linked()
    {
      if command.Listen? && command.ty !in callbacks {
        ListenToNewType(command, n);
        return;
      }
      RunPoppedKeeps(View(), n, command);
      match command {
        case Listen(ty, handle, callBack) =>
          var listeners: map<Handle, CallBack> := callbacks[ty];
          callbacks := callbacks[ty := listeners[handle := callBack]];
        case Unlisten(ty, handle) =>
          if ty in callbacks {
            callbacks := callbacks[ty := callbacks[ty] - {handle}];
          }
        case UnlistenAll(handle) =>
          callbacks := map ty | ty in callbacks :: callbacks[ty] - {handle};
      }
      applied := applied + 1;
    }

    method PopCommand(ghost n: nat) returns (command: Command)
      requires PortInv(View(), Process(n)) && commandsQueue != []
      modifies this`commandsQueue, this`popped
      ensures PortInv(View(), RunCommand(n, command)) && [command] + commandsQueue == old(commandsQueue)
    {
      NextCommandKeeps(View(), n);
      command := commandsQueue[0];
      commandsQueue, popped := commandsQueue[1..], popped + 1;
    }

    /** Pops a command and carries it out with the mutex released. */
    method RunNext(world: seq<seq<Arrival>>, ghost n: nat) returns (rest: seq<seq<Arrival>>)
      requires PortInv(View(), Process(n)) && scheduled && Linked() && commandsQueue != []
      modifies this, network
      ensures PortInv(View(), Process(n)) && scheduled && Linked()
      ensures Coming(View(), rest) == old(Coming(View(), world)) && taken == old(taken)
      ensures |rest| < |world| || (rest == world && eventQueue == old(eventQueue) && issued == old(issued)
                                   && |commandsQueue| < old(|commandsQueue|))
    {
      var command := PopCommand(n);
      rest := Interfere(world, RunCommand(n, command));
      Execute(command, n);
    }

    /** Carries out every command, and counts the events in the section that found no command left. */
    method ProcessCommandsAndGetQueuedEventsCount(world: seq<seq<Arrival>>, ghost n: nat)
      returns (count: nat, rest: seq<seq<Arrival>>)
      requires PortInv(View(), Process(n)) && scheduled && Linked()
      modifies this, network
      ensures PortInv(View(), Process(n)) && scheduled && Linked() && commandsQueue == [] && count == |eventQueue|
      ensures Coming(View(), rest) == old(Coming(View(), world)) && taken == old(taken)
      ensures |rest| < |world| || (rest == world && eventQueue == old(eventQueue) && issued == old(issued))
    {
      ghost var coming := Coming(View(), world);
      rest := world;
      while commandsQueue != []
        invariant PortInv(View(), Process(n)) && scheduled && Linked()
        invariant Coming(View(), rest) == coming && taken == old(taken)
        invariant |rest| < |world| || (rest == world && eventQueue == old(eventQueue) && issued == old(issued))
        decreases |rest|, |commandsQueue|
      {
        rest := RunNext(rest, n);
      }
      count := |eventQueue|;
    }

    method PopFront(ghost n: nat) returns (event: Event)
      requires PortInv(View(), Pop(n)) && Increasing(Received(View()))
      modifies this`eventQueue, this`taken
      ensures PortInv(View(), Dispatching(n, event, Handles(callbacks, event.ty)))
      ensures [event] + eventQueue == old(eventQueue) && taken == old(taken) + [event.id]
      ensures Received(View()) == old(Received(View()))
    {
      PopEventKeeps(View(), n);
      event := eventQueue[0];
      eventQueue := eventQueue[1..];
      taken := taken + [event.id];
    }

    method CallOne(event: Event, ghost todo: set<Handle>, handle: Handle, world: seq<seq<Arrival>>, ghost n: nat)
      returns (rest: seq<seq<Arrival>>)
      requires PortInv(View(), Dispatching(n, event, todo)) && handle in todo && scheduled
      modifies this`commandsQueue, this`eventQueue, this`issued, this`calls
      ensures PortInv(View(), Dispatching(n, event, todo - {handle}))
      ensures calls == old(calls) + [(event.id, handle)]
      ensures Coming(View(), rest) == old(Coming(View(), world))
      ensures |rest| < |world| || (rest == world && eventQueue == old(eventQueue) && issued == old(issued))
    {
      CallKeeps(View(), n, event, todo, handle);
      calls := calls + [(event.id, handle)];
      rest := Interfere(world, Dispatching(n, event, todo - {handle}));
    }

    /** Calls every listener of the event's type once, in any order. */
    method CallListeners(event: Event, world: seq<seq<Arrival>>, ghost n: nat) returns (rest: seq<seq<Arrival>>)
      requires PortInv(View(), Dispatching(n, event, Handles(callbacks, event.ty))) && scheduled
      modifies this`commandsQueue, this`eventQueue, this`issued, this`calls
      ensures PortInv(View(), Dispatching(n, event, {})) && scheduled
      ensures forall h: Handle :: (event.id, h) in calls <==> h in Handles(callbacks, event.ty)
      ensures OnlyCallsOf(old(calls), calls, event.id)
      ensures Coming(View(), rest) == old(Coming(View(), world))
      ensures |rest| < |world| || (rest == world && eventQueue == old(eventQueue) && issued == old(issued))
    {
      rest := Interfere(world, Dispatching(n, event, Handles(callbacks, event.ty)));
      rest := CallThem(event, Handles(callbacks, event.ty), rest, n);
      AllCalled(View(), n, event);
    }

    // The loop over the listeners.
    method CallThem(event: Event, listeners: set<Handle>, world: seq<seq<Arrival>>, ghost n: nat)
      returns (rest: seq<seq<Arrival>>)
      requires PortInv(View(), Dispatching(n, event, listeners)) && scheduled
      modifies this`commandsQueue, this`eventQueue, this`issued, this`calls
      ensures PortInv(View(), Dispatching(n, event, {})) && scheduled
      ensures OnlyCallsOf(old(calls), calls, event.id)
      ensures Coming(View(), rest) == old(Coming(View(), world))
      ensures |rest| < |world| || (rest == world && eventQueue == old(eventQueue) && issued == old(issued))
    {
      var todo := listeners;
      ghost var coming := Coming(View(), world);
      rest := world;
      while todo != {}
        invariant PortInv(View(), Dispatching(n, event, todo)) && scheduled
        invariant Coming(View(), rest) == coming && OnlyCallsOf(old(calls), calls, event.id)
        invariant |rest| < |world| || (rest == world && eventQueue == old(eventQueue) && issued == old(issued))
        decreases todo
      {
        var handle :| handle in todo;
        OneMoreCall(old(calls), calls, event.id, handle);
        rest := CallOne(event, todo, handle, rest, n);
        todo := todo - {handle};
      }
    }

    // The oldest event, handed to everybody who listens.
    method DispatchFront(world: seq<seq<Arrival>>, ghost n: nat) returns (event: Event, rest: seq<seq<Arrival>>)
      requires PortInv(View(), Pop(n)) && scheduled && Increasing(Coming(View(), world))
      modifies this`commandsQueue, this`eventQueue, this`issued, this`taken, this`calls
      ensures PortInv(View(), Dispatching(n, event, {})) && scheduled
      ensures Coming(View(), rest) == old(Coming(View(), world)) && |taken| == old(|taken|) + 1
      ensures |rest| < |world| || (rest == world && eventQueue == old(eventQueue)[1..] && issued == old(issued))
    {
      ComingIncreases(View(), world);
      event := PopFront(n);
      rest := CallListeners(event, world, n);
    }

    method DispatchOne(world: seq<seq<Arrival>>, ghost n: nat) returns (rest: seq<seq<Arrival>>)
      requires PortInv(View(), Pop(n)) && scheduled && Linked() && Increasing(Coming(View(), world))
      modifies this
      ensures PortInv(View(), Process(n + 1)) && scheduled && Linked()
      ensures Coming(View(), rest) == old(Coming(View(), world)) && |taken| == old(|taken|) + 1
      ensures |rest| < |world| || (rest == world && eventQueue == old(eventQueue)[1..] && issued == old(issued))
    {
      ghost var event;
      event, rest := DispatchFront(world, n);
      EndDispatch(event, n);
    }

    // The event command returns.
    method EndDispatch(ghost event: Event, ghost n: nat)
      requires PortInv(View(), Dispatching(n, event, {}))
      modifies this`mark
      ensures PortInv(View(), Process(n + 1)) && Received(View()) == old(Received(View()))
    {
      EndEventKeeps(View(), n, event);
      mark := |issued|;
    }

    /** The test of the loop in `consume`; the mutex is free again afterwards. */
    method Ready(consumed: nat, max: int, world: seq<seq<Arrival>>) returns (go: bool, rest: seq<seq<Arrival>>)
      requires PortInv(View(), Process(consumed)) && scheduled && Linked()
      modifies this, network
      ensures PortInv(View(), if go then Pop(consumed) else Leave) && scheduled && Linked()
      ensures Coming(View(), rest) == old(Coming(View(), world)) && taken == old(taken)
      ensures go ==> consumed < max
      ensures |rest| < |world| || (rest == world && eventQueue == old(eventQueue) && issued == old(issued))
      ensures world == [] ==> commandsQueue == [] && (go <==> eventQueue != [] && consumed < max)
    {
      var count;
      count, rest := ProcessCommandsAndGetQueuedEventsCount(world, consumed);
      CountEventsKeeps(View(), consumed, max);
      go := count > 0 && consumed < max;
      rest := Interfere(rest, if go then Pop(consumed) else Leave);
    }

    /** One pass through the loop of `consume`, up to its next test. */
    method Pass(consumed: nat, max: int, world: seq<seq<Arrival>>) returns (go: bool, rest: seq<seq<Arrival>>)
      requires PortInv(View(), Pop(consumed)) && scheduled && Linked() && Increasing(Coming(View(), world))
      modifies this, network
      ensures PortInv(View(), if go then Pop(consumed + 1) else Leave) && scheduled && Linked()
      ensures Coming(View(), rest) == old(Coming(View(), world)) && |taken| == old(|taken|) + 1
      ensures go ==> consumed + 1 < max
      ensures |rest| < |world| || (rest == world && eventQueue == old(eventQueue)[1..] && issued == old(issued))
      ensures world == [] ==> commandsQueue == [] && (go <==> eventQueue != [] && consumed + 1 < max)
    {
      rest := DispatchOne(world, consumed);
      go, rest := Ready(consumed + 1, max, rest);
    }

    /** The loop of `consume`: it serves at most `max` events, each after all commands that came before it. */
    method Serve(max: int, world: seq<seq<Arrival>>) returns (consumed: nat, rest: seq<seq<Arrival>>)
      requires PortInv(View(), Process(0)) && scheduled && Linked() && Increasing(Coming(View(), world))
      modifies this, network
      ensures PortInv(View(), Leave) && scheduled && Linked()
      ensures Coming(View(), rest) == old(Coming(View(), world)) && |taken| == old(|taken|) + consumed
      ensures consumed <= if max > 0 then max else 0
      ensures world == [] ==> commandsQueue == [] && issued == old(issued)
      ensures world == [] ==> consumed <= old(|eventQueue|) && eventQueue == old(eventQueue)[consumed..]
      ensures world == [] ==> eventQueue == [] || consumed >= max
    {
      var go;
      go, rest := Ready(0, max, world);
      consumed, rest := ServeWhile(go, max, rest, world == []);
    }

    /** With nobody else about: the oldest `consumed` events have been served, nothing has come, and the loop goes on while it should. */
    ghost predicate ServedAlone(go: bool, consumed: nat, max: int, rest: seq<seq<Arrival>>, events: seq<Event>, commands: seq<Command>)
      reads this`commandsQueue, this`issued, this`eventQueue
    {
      && rest == [] && commandsQueue == [] && issued == commands
      && consumed <= |events| && eventQueue == events[consumed..]
      && (go || eventQueue == [] || consumed >= max)
    }

    // One pass, as the loop sees it.
    method PassOn(consumed: nat, max: int, world: seq<seq<Arrival>>, ghost alone: bool, ghost events: seq<Event>,
                  ghost commands: seq<Command>)
      returns (go: bool, rest: seq<seq<Arrival>>)
      requires PortInv(View(), Pop(consumed)) && scheduled && Linked() && Increasing(Coming(View(), world))
      requires alone ==> ServedAlone(true, consumed, max, world, events, commands)
      modifies this, network
      ensures PortInv(View(), if go then Pop(consumed + 1) else Leave) && scheduled && Linked()
      ensures Coming(View(), rest) == old(Coming(View(), world)) && |taken| == old(|taken|) + 1
      ensures go ==> consumed + 1 < max
      ensures alone ==> ServedAlone(go, consumed + 1, max, rest, events, commands)
    {
      DropsOne(events, consumed);
      go, rest := Pass(consumed, max, world);
    }

    // The loop itself, entered with the outcome of its first test.
    method ServeWhile(first: bool, max: int, world: seq<seq<Arrival>>, ghost alone: bool)
      returns (consumed: nat, rest: seq<seq<Arrival>>)
      requires PortInv(View(), if first then Pop(0) else Leave) && scheduled && Linked() && Increasing(Coming(View(), world))
      requires first ==> 0 < max
      requires alone ==> ServedAlone(first, 0, max, world, eventQueue, issued)
      modifies this, network
      ensures PortInv(View(), Leave) && scheduled && Linked()
      ensures Coming(View(), rest) == old(Coming(View(), world)) && |taken| == old(|taken|) + consumed
      ensures consumed <= if max > 0 then max else 0
      ensures alone ==> ServedAlone(false, consumed, max, rest, old(eventQueue), old(issued))
    {
      ghost var coming, events, commands := Coming(View(), world), eventQueue, issued;
      var go := first;
      consumed, rest := 0, world;
      while go
        invariant PortInv(View(), if go then Pop(consumed) else Leave) && scheduled && Linked()
        invariant Coming(View(), rest) == coming && |taken| == old(|taken|) + consumed
        invariant if go then consumed < max else consumed <= if max > 0 then max else 0
        invariant alone ==> ServedAlone(go, consumed, max, rest, events, commands)
        decreases max - consumed
      {
        go, rest := PassOn(consumed, max, rest, alone, events, commands);
        consumed := consumed + 1;
      }
    }

    /**
     `consume`: nothing received is lost or reordered, and the port stays announced exactly if
     something is queued. Alone, it empties the command queue and serves the oldest events.
     */
    method Consume(max: int, world: seq<seq<Arrival>>, who: R.Tid) returns (consumed: nat, rest: seq<seq<Arrival>>)
      requires PortInv(View(), Process(0)) && scheduled && Linked() && Increasing(Coming(View(), world))
      requires owner.Valid() && owner.scheduled && owner.priority.Valid() && owner.MayPush(Some(who))
      modifies this, network, owner, owner.priority
      ensures PortInv(View(), Out) && Linked()
      ensures Coming(View(), rest) == old(Coming(View(), world)) && |taken| == old(|taken|) + consumed
      ensures consumed <= if max > 0 then max else 0
      ensures scheduled <==> eventQueue != [] || commandsQueue != []
      ensures owner.callBackQueue == old(owner.callBackQueue) + (if scheduled then [id] else [])
      ensures owner.priority.View() == old(owner.priority.View())
      ensures world == [] ==> commandsQueue == [] && callbacks == Fold(issued) && issued == old(issued)
      ensures world == [] ==> consumed <= old(|eventQueue|) && eventQueue == old(eventQueue)[consumed..]
      ensures world == [] && max >= old(|eventQueue|) ==> eventQueue == [] && !scheduled
    {
      consumed, rest := Serve(max, world);
      Quit(who);
    }

    /** The last section of `consume`: give the token back, or keep it by scheduling again. */
    method Quit(who: R.Tid)
      requires PortInv(View(), Leave)
      requires owner.Valid() && owner.scheduled && owner.priority.Valid() && owner.MayPush(Some(who))
      modifies this`scheduled, owner, owner.priority
      ensures PortInv(View(), Out) && (scheduled <==> eventQueue != [] || commandsQueue != [])
      ensures commandsQueue == [] ==> callbacks == Fold(issued)
      ensures owner.callBackQueue == old(owner.callBackQueue) + (if scheduled then [id] else [])
      ensures owner.priority.View() == old(owner.priority.View())
    {
      LeaveKeeps(View());
      scheduled := false;
      if eventQueue != [] || commandsQueue != [] {
        var status := ScheduleOnOwner(Some(who));
      }
      assert issued[..|issued|] == issued;
    }
  }

  // ----- publishing -----

  /** Ports and owners are different objects, ports carry their position, and one pool serves them all. */
  ghost predicate Wired(ports: seq<Port>, priority: Priority) {
    && (forall a :: 0 <= a < |ports| ==> ports[a].id == a && ports[a].owner.priority == priority)
    && (forall a, b :: 0 <= a < b < |ports| ==> ports[a] != ports[b] && ports[a].owner != ports[b].owner)
  }

  function Owners(ports: seq<Port>): (r: set<A.Actor>)
    ensures forall a :: 0 <= a < |ports| ==> ports[a].owner in r
  {
    set a | 0 <= a < |ports| :: ports[a].owner
  }

  ghost function Views(ports: seq<Port>): (views: seq<Port_>)
    reads ports
    ensures |views| == |ports|
  {
    if ports == [] then [] else Views(ports[..|ports| - 1]) + [ports[|ports| - 1].View()]
  }

  lemma {:induction false} ViewsAt(ports: seq<Port>)
    ensures forall a :: 0 <= a < |ports| ==> Views(ports)[a] == ports[a].View()
  {
    if ports != [] { ViewsAt(ports[..|ports| - 1]); }
  }

  /** Every owner can be scheduled by the publisher. */
  ghost predicate Ready(ports: seq<Port>, priority: Priority, who: Option<R.Tid>)
    reads ports, Owners(ports), priority
  {
    && priority.Valid()
    && (forall a :: 0 <= a < |ports| ==> ports[a].owner.Valid())
    && (who.Some? ==> who.value < |priority.dispatchers| && priority.dispatchers[who.value].Executing?)
  }

  method Offer(event: nat, ty: EventType, ports: seq<Port>, a: PortId, priority: Priority, who: Option<R.Tid>)
    returns (status: Status)
    requires a < |ports| && Wired(ports, priority) && Ready(ports, priority, who)
    modifies ports[a], ports[a].owner, priority
    ensures Ready(ports, priority, who) && priority.state == old(priority.state)
    ensures ports[a].View() == Enqueue(old(ports[a].View()), event, ty)
    ensures forall b :: 0 <= b < |ports| && b != a ==> ports[b].View() == old(ports[b].View())
    ensures old(priority.state) != STOPPED ==> status == Ok
  {
    status := ports[a].Schedule(event, ty, who);
  }

  method HandOver(event: nat, ty: EventType, ports: seq<Port>, a: PortId, priority: Priority, who: Option<R.Tid>)
    returns (status: Status)
    requires a < |ports| && Wired(ports, priority) && Ready(ports, priority, who)
    modifies ports[a], ports[a].owner, priority
    ensures Ready(ports, priority, who) && priority.state == old(priority.state)
    ensures Views(ports) == old(Views(ports))[a := Enqueue(old(Views(ports))[a], event, ty)]
    ensures old(priority.state) != STOPPED ==> status == Ok
  {
    ViewsAt(ports);
    status := Offer(event, ty, ports, a, priority, who);
    ViewsAt(ports);
  }

  /** The ports after the event was handed to `targets`, one after the other. */
  ghost function Handed(views: seq<Port_>, targets: seq<PortId>, event: nat, ty: EventType): (r: seq<Port_>)
    requires forall i :: 0 <= i < |targets| ==> targets[i] < |views|
    ensures |r| == |views|
  {
    if targets == [] then views
    else
      var before, a := Handed(views, targets[..|targets| - 1], event, ty), targets[|targets| - 1];
      before[a := Enqueue(before[a], event, ty)]
  }

  ghost predicate NoDuplicates(s: seq<nat>) { forall i, j :: 0 <= i < j < |s| ==> s[i] != s[j] }

  /** In whatever order, each target gets the event once and the others do not. */
  lemma {:induction false} HandedOnce(views: seq<Port_>, targets: seq<PortId>, event: nat, ty: EventType, a: PortId)
    requires forall i :: 0 <= i < |targets| ==> targets[i] < |views|
    requires NoDuplicates(targets) && a < |views|
    ensures Handed(views, targets, event, ty)[a]
            == if a in targets
               then views[a].(events := views[a].events + [Event(event, ty, |views[a].issued|)], scheduled := true) else views[a]
  {
    if targets != [] {
      var first := targets[..|targets| - 1];
      HandedOnce(views, first, event, ty, a);
      assert targets == first + [targets[|targets| - 1]];
    }
  }

  /** `Network::publish`: every port listed for the type gets the event once, no other port gets it. */
  method Publish(network: Network, event: nat, ty: EventType, ports: seq<Port>, priority: Priority,
                 who: Option<R.Tid>)
    returns (status: Status)
    requires network.Valid() && Wired(ports, priority) && Ready(ports, priority, who)
    requires forall h :: h in R.ListenersOf(network.callbacks, ty) ==> R.ListenersOf(network.callbacks, ty)[h] < |ports|
    modifies ports, Owners(ports), priority
    ensures status == Ok ==>
              forall a :: 0 <= a < |ports| ==>
                var was := old(Views(ports))[a];
                Views(ports)[a] == if network.Lists(ty, a)
                                   then was.(events := was.events + [Event(event, ty, |was.issued|)], scheduled := true) else was
    ensures old(priority.state) != STOPPED ==> status == Ok
  {
    ghost var before := Views(ports);
    var targets := Iteration(R.ListenersOf(network.callbacks, ty));
    assert forall i :: 0 <= i < |targets| ==> targets[i] in targets;
    status := HandToAll(targets, event, ty, ports, priority, who);
    if status == Ok {
      forall a | 0 <= a < |ports|
        ensures Views(ports)[a] == if network.Lists(ty, a) then Enqueue(before[a], event, ty) else before[a]
      {
        HandedOnce(before, targets, event, ty, a);
      }
    }
  }

  /** `targets` are the ports of the handles that are no longer to do, without repetition. */
  ghost predicate Served(listeners: map<Handle, PortId>, todo: set<Handle>, targets: seq<PortId>) {
    && NoDuplicates(targets)
    && (forall a :: a in targets <==> exists h :: h in listeners && h !in todo && listeners[h] == a)
  }

  lemma ServeOne(listeners: map<Handle, PortId>, todo: set<Handle>, targets: seq<PortId>, handle: Handle)
    requires forall h, k :: h in listeners && k in listeners && listeners[h] == listeners[k] ==> h == k
    requires Served(listeners, todo, targets) && handle in todo && handle in listeners
    ensures Served(listeners, todo - {handle}, targets + [listeners[handle]])
  {
    assert listeners[handle] !in targets;
  }

  /** The order in which the container is iterated: some order. */
  method Iteration(listeners: map<Handle, PortId>) returns (targets: seq<PortId>)
    requires forall h, k :: h in listeners && k in listeners && listeners[h] == listeners[k] ==> h == k
    ensures Served(listeners, {}, targets)
  {
    var todo := listeners.Keys;
    targets := [];
    while todo != {}
      invariant todo <= listeners.Keys && Served(listeners, todo, targets)
      decreases todo
    {
      var handle :| handle in todo;
      ServeOne(listeners, todo, targets, handle);
      todo := todo - {handle};
      targets := targets + [listeners[handle]];
    }
  }

  // The loop of publish.
  method HandToAll(targets: seq<PortId>, event: nat, ty: EventType, ports: seq<Port>, priority: Priority,
                   who: Option<R.Tid>)
    returns (status: Status)
    requires Wired(ports, priority) && Ready(ports, priority, who)
    requires forall i :: 0 <= i < |targets| ==> targets[i] < |ports|
    modifies ports, Owners(ports), priority
    ensures status == Ok ==> Views(ports) == Handed(old(Views(ports)), targets, event, ty)
    ensures old(priority.state) != STOPPED ==> status == Ok
  {
    ghost var before := Views(ports);
    for i := 0 to |targets|
      invariant Ready(ports, priority, who) && priority.state == old(priority.state)
      invariant Views(ports) == Handed(before, targets[..i], event, ty)
    {
      assert targets[..i + 1][..i] == targets[..i];
      status := HandOver(event, ty, ports, targets[i], priority, who);
      if status != Ok {
        return;
      }
    }
    assert targets[..|targets|] == targets;
    status := Ok;
  }
}
