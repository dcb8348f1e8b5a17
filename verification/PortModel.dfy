/**
 The port of `rapi_core/include/core/port.hpp` and `rapi_core/src/port.cpp` as values: the two
 queues, the callback table, and the consumer that runs commands before events. Each function
 below is one critical section of `eventMutex_` or `callbacksMutex_`.
 */
module PortModel {
  type EventType = nat
  type Handle = nat
  type CallBack = nat

  datatype Command =
    | Listen(ty: EventType, handle: Handle, callBack: CallBack)
    | Unlisten(ty: EventType, handle: Handle)
    | UnlistenAll(handle: Handle)

  /** `id` numbers the publications of the network; `stamp` is history: how many commands the port had been given. */
  datatype Event = Event(id: nat, ty: EventType, stamp: nat)

  type Table = map<EventType, map<Handle, CallBack>>

  /**
   `scheduled`, `commands`, `events` and `table` are the fields of the class. The rest is
   history: every command ever issued, how many of them were popped and how many carried out,
   the publications popped for dispatch, the calls made, how many commands had been issued when
   the last dispatch ended, and the network handle under which each type was registered.
   */
  datatype Port = Port(
    scheduled: bool,
    commands: seq<Command>,
    events: seq<Event>,
    table: Table,
    issued: seq<Command>,
    popped: nat,
    applied: nat,
    taken: seq<nat>,
    calls: seq<(nat, Handle)>,
    mark: nat,
    registered: map<EventType, Handle>
  )

  const EMPTY_PORT: Port := Port(false, [], [], map[], [], 0, 0, [], [], 0, map[])

  /** Where the consumer of a port is; `n` counts the events it has consumed. */
  datatype Stage =
    | Out
    | Process(n: nat)                                     // about to take eventMutex_ for the commands
    | RunCommand(n: nat, command: Command)                // popped a command
    | ObtainHandle(n: nat, command: Command)              // new type: about to ask the network for a handle
    | Register(n: nat, command: Command, netHandle: Handle) // about to register with the network
    | Pop(n: nat)                                         // has seen an event, about to pop it
    | Dispatching(n: nat, event: Event, todo: set<Handle>) // calling the listeners
    | Leave                                               // about to take eventMutex_ for the last time

  // ----- the callback table -----

  function ApplyCommand(table: Table, command: Command): Table {
    match command
    case Listen(ty, handle, callBack) =>
      table[ty := (if ty in table then table[ty] else map[])[handle := callBack]]
    case Unlisten(ty, handle) => if ty in table then table[ty := table[ty] - {handle}] else table
    case UnlistenAll(handle) => map ty | ty in table :: table[ty] - {handle}
  }

  /** The table after a list of commands, each carried out at once. */
  function Fold(commands: seq<Command>): Table {
    if commands == [] then map[]
    else ApplyCommand(Fold(commands[..|commands| - 1]), commands[|commands| - 1])
  }

  function Handles(table: Table, ty: EventType): set<Handle> {
    if ty in table then table[ty].Keys else {}
  }

  // ----- the producers: any thread, under eventMutex_ -----

  function Issue(p: Port, command: Command): Port {
    p.(commands := p.commands + [command], issued := p.issued + [command],
       scheduled := p.scheduled || !command.UnlistenAll?)
  }

  function Enqueue(p: Port, id: nat, ty: EventType): Port {
    p.(events := p.events + [Event(id, ty, |p.issued|)], scheduled := true)
  }

  // ----- the consumer -----

  function NextCommand(p: Port, n: nat): (Port, Stage)
    requires p.commands != []
  {
    (p.(commands := p.commands[1..], popped := p.popped + 1), RunCommand(n, p.commands[0]))
  }

  function CountEvents(p: Port, n: nat, max: int): Stage {
    if |p.events| > 0 && n < max then Pop(n) else Leave
  }

  function RunPopped(p: Port, n: nat, command: Command): (Port, Stage) {
    if command.Listen? && command.ty !in p.table then
      (p.(table := p.table[command.ty := map[]]), ObtainHandle(n, command))
    else
      (p.(table := ApplyCommand(p.table, command), applied := p.applied + 1), Process(n))
  }

  function Registered(p: Port, n: nat, command: Command, netHandle: Handle): (Port, Stage)
    requires command.Listen?
  {
    (p.(table := ApplyCommand(p.table, command), applied := p.applied + 1,
        registered := p.registered[command.ty := netHandle]), Process(n))
  }

  function PopEvent(p: Port, n: nat): (Port, Stage)
    requires p.events != []
  {
    (p.(events := p.events[1..], taken := p.taken + [p.events[0].id]),
     Dispatching(n, p.events[0], Handles(p.table, p.events[0].ty)))
  }

  function Call(p: Port, n: nat, event: Event, todo: set<Handle>, handle: Handle): (Port, Stage) {
    (p.(calls := p.calls + [(event.id, handle)]), Dispatching(n, event, todo - {handle}))
  }

  function EndEvent(p: Port, n: nat): (Port, Stage) {
    (p.(mark := |p.issued|), Process(n + 1))
  }

  function LeavePort(p: Port): Port {
    p.(scheduled := p.events != [] || p.commands != [])
  }

  // ----- the invariant of a port and its only consumer -----

  function EventIds(events: seq<Event>): (r: seq<nat>)
    ensures |r| == |events|
    ensures forall i :: 0 <= i < |r| ==> r[i] == events[i].id
  {
    seq(|events|, i requires 0 <= i < |events| => events[i].id)
  }

  /** Everything the network has handed to the port, in order. */
  function Received(p: Port): seq<nat> { p.taken + EventIds(p.events) }

  ghost predicate Increasing(s: seq<nat>) { forall i, j :: 0 <= i < j < |s| ==> s[i] < s[j] }

  predicate InCommand(st: Stage) { st.RunCommand? || st.ObtainHandle? || st.Register? }

  predicate Registering(st: Stage) { st.ObtainHandle? || st.Register? }

  /** Queued work is announced: an unscheduled port holds at most `UnlistenAll` commands. */
  ghost predicate Announced(p: Port, st: Stage) {
    && (!st.Out? ==> p.scheduled)
    && (!p.scheduled ==> p.events == [] && forall i :: 0 <= i < |p.commands| ==> p.commands[i].UnlistenAll?)
  }

  /** The command queue is the rest of what was issued; the table is the fold of what was carried out. */
  ghost predicate Deferred(p: Port, st: Stage) {
    && p.applied <= p.popped <= |p.issued|
    && p.commands == p.issued[p.popped..]
    && (!InCommand(st) ==> p.popped == p.applied)
    && (InCommand(st) ==> p.popped == p.applied + 1 && st.command == p.issued[p.applied])
    && (!Registering(st) ==> p.table == Fold(p.issued[..p.applied]))
    && (Registering(st) ==>
          && st.command.Listen?
          && st.command.ty !in Fold(p.issued[..p.applied])
          && p.table == Fold(p.issued[..p.applied])[st.command.ty := map[]])
    && (forall ty :: ty in p.registered <==> ty in p.table && !(Registering(st) && st.command.ty == ty))
  }

  /** Commands come before events: an event about to be served finds every earlier command carried out. */
  ghost predicate CommandsFirst(p: Port, st: Stage) {
    && p.mark <= |p.issued|
    && (forall i :: 0 <= i < |p.events| ==> p.events[i].stamp <= |p.issued|)
    && (st.Pop? ==> p.events != [] && p.events[0].stamp <= p.applied && p.mark <= p.applied)
    && (st.Dispatching? ==> st.event.stamp <= p.applied && p.mark <= p.applied)
  }

  /** Every call is made once, and of the event in hand exactly the handles still to do are uncalled. */
  ghost predicate CalledOnce(p: Port, st: Stage) {
    && (forall i, j :: 0 <= i < j < |p.calls| ==> p.calls[i] != p.calls[j])
    && (forall c :: c in p.calls ==> c.0 in p.taken)
    && (st.Dispatching? ==>
          && p.taken != [] && st.event.id == p.taken[|p.taken| - 1]
          && st.todo <= Handles(p.table, st.event.ty)
          && (forall h: Handle :: (st.event.id, h) in p.calls <==> h in Handles(p.table, st.event.ty) - st.todo))
  }

  ghost predicate PortInv(p: Port, st: Stage) {
    Announced(p, st) && Deferred(p, st) && CommandsFirst(p, st) && CalledOnce(p, st)
  }

  // ----- what keeps it -----

  lemma IssueKeeps(p: Port, st: Stage, command: Command)
    requires PortInv(p, st)
    ensures PortInv(Issue(p, command), st)
    ensures var p' := Issue(p, command);
            && p'.commands == p.commands + [command] && p'.issued == p.issued + [command]
            && (p'.scheduled <==> p.scheduled || !command.UnlistenAll?)
            && p'.events == p.events && p'.table == p.table && p'.taken == p.taken && p'.calls == p.calls
  {
    var p' := Issue(p, command);
    assert p'.issued[..p.applied] == p.issued[..p.applied];
  }

  lemma EnqueueKeeps(p: Port, st: Stage, id: nat, ty: EventType)
    requires PortInv(p, st)
    ensures PortInv(Enqueue(p, id, ty), st)
    ensures Received(Enqueue(p, id, ty)) == Received(p) + [id]
    ensures var p' := Enqueue(p, id, ty);
            && p'.events == p.events + [Event(id, ty, |p.issued|)] && p'.scheduled
            && p'.commands == p.commands && p'.issued == p.issued && p'.table == p.table
            && p'.taken == p.taken && p'.calls == p.calls
  {
  }

  lemma NextCommandKeeps(p: Port, n: nat)
    requires PortInv(p, Process(n)) && p.commands != []
    ensures PortInv(NextCommand(p, n).0, NextCommand(p, n).1)
    ensures NextCommand(p, n).1 == RunCommand(n, p.commands[0]) && NextCommand(p, n).0.commands == p.commands[1..]
    ensures NextCommand(p, n).0.events == p.events
  {
  }

  lemma CountEventsKeeps(p: Port, n: nat, max: int)
    requires PortInv(p, Process(n)) && p.commands == []
    ensures PortInv(p, CountEvents(p, n, max))
    ensures CountEvents(p, n, max) == if p.events != [] && n < max then Pop(n) else Leave
  {
  }

  lemma FoldStep(issued: seq<Command>, k: nat)
    requires k < |issued|
    ensures Fold(issued[..k + 1]) == ApplyCommand(Fold(issued[..k]), issued[k])
  {
    assert issued[..k + 1][..k] == issued[..k];
  }

  lemma RunPoppedKeeps(p: Port, n: nat, command: Command)
    requires PortInv(p, RunCommand(n, command))
    ensures PortInv(RunPopped(p, n, command).0, RunPopped(p, n, command).1)
    ensures RunPopped(p, n, command).1 == if command.Listen? && command.ty !in p.table then ObtainHandle(n, command) else Process(n)
    ensures RunPopped(p, n, command).0.commands == p.commands && RunPopped(p, n, command).0.events == p.events
  {
    FoldStep(p.issued, p.applied);
  }

  lemma ObtainHandleKeeps(p: Port, n: nat, command: Command, netHandle: Handle)
    requires PortInv(p, ObtainHandle(n, command))
    ensures PortInv(p, Register(n, command, netHandle))
  {
  }

  lemma RegisteredKeeps(p: Port, n: nat, command: Command, netHandle: Handle)
    requires PortInv(p, Register(n, command, netHandle))
    ensures PortInv(Registered(p, n, command, netHandle).0, Process(n))
  {
    FoldStep(p.issued, p.applied);
    assert ApplyCommand(p.table, command) == ApplyCommand(Fold(p.issued[..p.applied]), command);
  }

  lemma PopEventKeeps(p: Port, n: nat)
    requires PortInv(p, Pop(n)) && Increasing(Received(p))
    ensures PortInv(PopEvent(p, n).0, PopEvent(p, n).1)
    ensures Received(PopEvent(p, n).0) == Received(p)
    ensures PopEvent(p, n).1 == Dispatching(n, p.events[0], Handles(p.table, p.events[0].ty))
    ensures PopEvent(p, n).0.events == p.events[1..] && PopEvent(p, n).0.taken == p.taken + [p.events[0].id]
  {
    var id := p.events[0].id;
    assert Received(p)[|p.taken|] == id;
    assert forall i :: 0 <= i < |p.taken| ==> p.taken[i] == Received(p)[i];
    assert id !in p.taken;
    assert forall h: Handle :: (id, h) !in p.calls;
  }

  lemma CallKeeps(p: Port, n: nat, event: Event, todo: set<Handle>, handle: Handle)
    requires PortInv(p, Dispatching(n, event, todo)) && handle in todo
    ensures PortInv(Call(p, n, event, todo, handle).0, Call(p, n, event, todo, handle).1)
    ensures Call(p, n, event, todo, handle).0.calls == p.calls + [(event.id, handle)]
    ensures Call(p, n, event, todo, handle).1 == Dispatching(n, event, todo - {handle})
  {
  }

  lemma EndEventKeeps(p: Port, n: nat, event: Event)
    requires PortInv(p, Dispatching(n, event, {}))
    ensures PortInv(EndEvent(p, n).0, EndEvent(p, n).1) && EndEvent(p, n).1 == Process(n + 1)
    ensures EndEvent(p, n).0 == p.(mark := |p.issued|)
  {
  }

  lemma LeaveKeeps(p: Port)
    requires PortInv(p, Leave)
    ensures PortInv(LeavePort(p), Out)
    ensures LeavePort(p).scheduled <==> p.events != [] || p.commands != []
    ensures LeavePort(p).events == p.events && LeavePort(p).commands == p.commands
  {
  }
}
