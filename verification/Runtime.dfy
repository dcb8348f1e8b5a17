/**
 Actors, ports and the network on top of the dispatcher pool, as one interleaving step system.

 The pool of `DispatcherPool` is a component: its callbacks are `Actor::consume` calls, so a
 job is the number of an actor. Each actor has one port and each port one owner; both carry
 the actor's number. A step is one critical section. Sections nested without an intermediate
 release (port, then owner, then pool) are one step; publishing, which takes and releases the
 listeners' ports one after the other under the network's mutex, is many.
 */
module Runtime {
  import opened Chains
  import opened Options
  import opened DispatcherPool
  import opened PortModel

  type ActorId = nat
  type Tid = nat

  /** Where a dispatcher is while it executes a callback of the pool. */
  datatype Place =
    | Away                         // not executing a callback
    | Enter(a: ActorId)            // Actor::consume, about to take callBackMutex_
    | Inside(a: ActorId, st: Stage) // Port::consume of the actor's port

  /** `runner` is history: the dispatcher that executes the actor's `consume`. */
  datatype Actor = Actor(constructing: bool, scheduled: bool, mailbox: nat, runner: Option<Tid>)

  /** A publication under way: who is still to be handed the event, by whom (nobody: a thread outside the pool). */
  datatype Broadcast = Broadcast(ty: EventType, pending: set<Handle>, who: Option<Tid>)

  /** `listeners` is `callbacks_`, `busy` tells that `callbacksMutex_` is held for a publication. */
  datatype Network = Network(listeners: map<EventType, map<Handle, ActorId>>, handleCounter: nat, busy: Option<Broadcast>)

  /** One entry of the global publish order: the type and the ports registered for it at that time. */
  datatype Publication = Publication(ty: EventType, targets: set<ActorId>)

  /** `max` is the bound handed to `Port::consume`; `log` is history. */
  datatype World = World(
    pool: Pool,
    places: seq<Place>,
    actors: seq<Actor>,
    ports: seq<Port>,
    net: Network,
    log: seq<Publication>,
    max: int
  )

  function CreatedWorld(dispatcherCount: nat, actorCount: nat, max: int): World {
    World(Created(dispatcherCount), seq(dispatcherCount, _ => Away),
          seq(actorCount, _ => Actor(true, true, 0, None)), seq(actorCount, _ => EMPTY_PORT),
          Network(map[], 0, None), [], max)
  }

  datatype Step =
    | PoolMove(action: Action)              // any step of the pool but schedule and the end of a callback
    | TakeMail(t: Tid)                      // Actor::consume: pop a port's callback
    | FinishActor(t: Tid)                   // Actor::consume: nothing left
    | TakeCommand(t: Tid)                   // Port: pop a command
    | Count(t: Tid)                         // Port: no command left, count the events
    | RunIt(t: Tid)                         // Port: carry the command out
    | AskHandle(t: Tid)                     // Network::newHandle
    | RegisterIt(t: Tid)                    // Network::listen
    | TakeEvent(t: Tid)                     // Port: pop an event
    | CallListener(t: Tid, handle: Handle)
    | EndDispatch(t: Tid)
    | QuitPort(t: Tid)                      // Port::consume: the final section
    | Give(who: Option<Tid>, a: ActorId, command: Command) // listen, unlisten, unlistenAll
    | Publish(who: Option<Tid>, ty: EventType)
    | Deliver(handle: Handle)               // the publisher hands the event to one listener
    | EndPublish
    | FinishCtor(who: Option<Tid>, a: ActorId) // in a callback, for a child created there, or outside

  // ----- scheduling upwards -----

  function PushAction(who: Option<Tid>, a: ActorId): Action {
    if who.Some? then ScheduleInside(who.value, a) else ScheduleOutside(a)
  }

  /** Actor::schedule for one callback of the actor's port. */
  function ScheduleActor(w: World, a: ActorId, who: Option<Tid>): World
    requires a < |w.actors|
    requires !w.actors[a].scheduled ==> Enabled(w.pool, PushAction(who, a))
  {
    var actor := w.actors[a].(mailbox := w.actors[a].mailbox + 1, scheduled := true);
    var pool := if w.actors[a].scheduled then w.pool else Apply(w.pool, PushAction(who, a));
    w.(actors := w.actors[a := actor], pool := pool)
  }

  /** The port changes to `p`; if that makes it scheduled, it has just scheduled itself on its owner. */
  function UpdatePort(w: World, a: ActorId, p: Port, who: Option<Tid>): World
    requires a < |w.ports| && a < |w.actors|
    requires CanUpdate(w, a, p, who)
  {
    var w1 := w.(ports := w.ports[a := p]);
    if p.scheduled && !w.ports[a].scheduled then ScheduleActor(w1, a, who) else w1
  }

  predicate CanUpdate(w: World, a: ActorId, p: Port, who: Option<Tid>)
    requires a < |w.ports| && a < |w.actors|
  {
    p.scheduled && !w.ports[a].scheduled && !w.actors[a].scheduled ==> Enabled(w.pool, PushAction(who, a))
  }

  // ----- steps -----

  predicate At(w: World, t: Tid) {
    t < |w.places| && w.places[t].Inside? && w.places[t].a < |w.ports| && w.places[t].a < |w.actors|
  }

  // A user callback can act: it is running and not in the middle of a publication.
  predicate Free(w: World, t: Tid) {
    At(w, t) && w.places[t].st.Dispatching? && !(w.net.busy.Some? && w.net.busy.value.who == Some(t))
  }

  predicate CanAct(w: World, who: Option<Tid>) { who.Some? ==> Free(w, who.value) }

  function ListenersOf(listeners: map<EventType, map<Handle, ActorId>>, ty: EventType): map<Handle, ActorId> {
    if ty in listeners then listeners[ty] else map[]
  }

  predicate Possible(w: World, s: Step) {
    match s
    case PoolMove(action) =>
      Enabled(w.pool, action) && !action.Return? && !action.ScheduleInside? && !action.ScheduleOutside?
    case TakeMail(t) =>
      t < |w.places| && w.places[t].Enter? && w.places[t].a < |w.actors| && w.actors[w.places[t].a].mailbox > 0
    case FinishActor(t) =>
      && t < |w.places| && w.places[t].Enter? && w.places[t].a < |w.actors| && w.actors[w.places[t].a].mailbox == 0
      && Enabled(w.pool, Return(t))
    case TakeCommand(t) => At(w, t) && w.places[t].st.Process? && w.ports[w.places[t].a].commands != []
    case Count(t) => At(w, t) && w.places[t].st.Process? && w.ports[w.places[t].a].commands == []
    case RunIt(t) => At(w, t) && w.places[t].st.RunCommand?
    case AskHandle(t) => At(w, t) && w.places[t].st.ObtainHandle? && w.net.busy == None
    case RegisterIt(t) =>
      At(w, t) && w.places[t].st.Register? && w.places[t].st.command.Listen? && w.net.busy == None
    // the size test was made in an earlier section: popping an empty queue is undefined behaviour
    case TakeEvent(t) => At(w, t) && w.places[t].st.Pop? && w.ports[w.places[t].a].events != []
    case CallListener(t, handle) => Free(w, t) && handle in w.places[t].st.todo
    case EndDispatch(t) => Free(w, t) && w.places[t].st.todo == {}
    case QuitPort(t) =>
      At(w, t) && w.places[t].st.Leave? &&
      var a := w.places[t].a;
      (LeavePort(w.ports[a]).scheduled && !w.actors[a].scheduled ==> Enabled(w.pool, PushAction(Some(t), a)))
    case Give(who, a, command) =>
      a < |w.ports| && a < |w.actors| && CanAct(w, who) && CanUpdate(w, a, Issue(w.ports[a], command), who)
    case Publish(who, _) => CanAct(w, who) && w.net.busy == None
    case Deliver(handle) =>
      w.net.busy.Some? &&
      var b := w.net.busy.value;
      && handle in b.pending && handle in ListenersOf(w.net.listeners, b.ty)
      && var a := ListenersOf(w.net.listeners, b.ty)[handle];
      && a < |w.ports| && a < |w.actors| && |w.log| > 0
      && CanUpdate(w, a, Enqueue(w.ports[a], |w.log| - 1, b.ty), b.who)
    case EndPublish => w.net.busy.Some? && w.net.busy.value.pending == {}
    case FinishCtor(who, a) =>
      && a < |w.actors| && w.actors[a].constructing && CanAct(w, who)
      && (w.actors[a].mailbox > 0 ==> Enabled(w.pool, PushAction(who, a)))
  }

  // The consumer `t` moves to `next`, leaving its port as `p`.
  function Go(w: World, t: Tid, next: (Port, Stage)): World
    requires At(w, t)
  {
    var a := w.places[t].a;
    w.(ports := w.ports[a := next.0], places := w.places[t := Inside(a, next.1)])
  }

  function MovePool(w: World, action: Action): World
    requires Possible(w, PoolMove(action))
  {
    var pool := Apply(w.pool, action);
    if (action.Loop? || action.Wake?) && pool.threads[action.t].Executing? && action.t < |w.places|
       && pool.threads[action.t].job < |w.actors| then
      var a := pool.threads[action.t].job;
      w.(pool := pool, places := w.places[action.t := Enter(a)],
         actors := w.actors[a := w.actors[a].(runner := Some(action.t))])
    else
      w.(pool := pool)
  }

  function Finish(w: World, t: Tid): World
    requires Possible(w, FinishActor(t))
  {
    var a := w.places[t].a;
    w.(pool := Apply(w.pool, Return(t)), places := w.places[t := Away],
       actors := w.actors[a := w.actors[a].(scheduled := false, runner := None)])
  }

  function Mail(w: World, t: Tid): World
    requires Possible(w, TakeMail(t))
  {
    var a := w.places[t].a;
    w.(places := w.places[t := Inside(a, Process(0))],
       actors := w.actors[a := w.actors[a].(mailbox := w.actors[a].mailbox - 1)])
  }

  function NewHandle(w: World, t: Tid): World
    requires Possible(w, AskHandle(t))
  {
    var a := w.places[t].a;
    var h := w.net.handleCounter + 1;
    w.(net := w.net.(handleCounter := h),
       places := w.places[t := Inside(a, Register(w.places[t].st.n, w.places[t].st.command, h))])
  }

  function AddListener(w: World, t: Tid): World
    requires Possible(w, RegisterIt(t))
  {
    var a, st := w.places[t].a, w.places[t].st;
    var ty := st.command.ty;
    Go(w, t, Registered(w.ports[a], st.n, st.command, st.netHandle))
      .(net := w.net.(listeners := w.net.listeners[ty := ListenersOf(w.net.listeners, ty)[st.netHandle := a]]))
  }

  function Quit(w: World, t: Tid): World
    requires Possible(w, QuitPort(t))
  {
    var a := w.places[t].a;
    var w1 := w.(places := w.places[t := Enter(a)], ports := w.ports[a := LeavePort(w.ports[a])]);
    if LeavePort(w.ports[a]).scheduled then ScheduleActor(w1, a, Some(t)) else w1
  }

  function BeginPublish(w: World, who: Option<Tid>, ty: EventType): World {
    var listeners := ListenersOf(w.net.listeners, ty);
    w.(net := w.net.(busy := Some(Broadcast(ty, listeners.Keys, who))),
       log := w.log + [Publication(ty, listeners.Values)])
  }

  function HandOver(w: World, handle: Handle): World
    requires Possible(w, Deliver(handle))
  {
    var b := w.net.busy.value;
    var a := ListenersOf(w.net.listeners, b.ty)[handle];
    UpdatePort(w, a, Enqueue(w.ports[a], |w.log| - 1, b.ty), b.who)
      .(net := w.net.(busy := Some(b.(pending := b.pending - {handle}))))
  }

  function CtorFinished(w: World, who: Option<Tid>, a: ActorId): World
    requires Possible(w, FinishCtor(who, a))
  {
    var idle := w.actors[a].mailbox == 0;
    w.(actors := w.actors[a := w.actors[a].(constructing := false, scheduled := !idle)],
       pool := if idle then w.pool else Apply(w.pool, PushAction(who, a)))
  }

  function Do(w: World, s: Step): World
    requires Possible(w, s)
  {
    match s
    case PoolMove(action) => MovePool(w, action)
    case TakeMail(t) => Mail(w, t)
    case FinishActor(t) => Finish(w, t)
    case TakeCommand(t) => Go(w, t, NextCommand(w.ports[w.places[t].a], w.places[t].st.n))
    case Count(t) =>
      var p := w.ports[w.places[t].a];
      Go(w, t, (p, CountEvents(p, w.places[t].st.n, w.max)))
    case RunIt(t) => Go(w, t, RunPopped(w.ports[w.places[t].a], w.places[t].st.n, w.places[t].st.command))
    case AskHandle(t) => NewHandle(w, t)
    case RegisterIt(t) => AddListener(w, t)
    case TakeEvent(t) => Go(w, t, PopEvent(w.ports[w.places[t].a], w.places[t].st.n))
    case CallListener(t, handle) =>
      var st := w.places[t].st;
      Go(w, t, Call(w.ports[w.places[t].a], st.n, st.event, st.todo, handle))
    case EndDispatch(t) => Go(w, t, EndEvent(w.ports[w.places[t].a], w.places[t].st.n))
    case QuitPort(t) => Quit(w, t)
    case Give(who, a, command) => UpdatePort(w, a, Issue(w.ports[a], command), who)
    case Publish(who, ty) => BeginPublish(w, who, ty)
    case Deliver(handle) => HandOver(w, handle)
    case EndPublish => w.(net := w.net.(busy := None))
    case FinishCtor(who, a) => CtorFinished(w, who, a)
  }

  ghost predicate Happens(w: World, s: Step, w': World) { Possible(w, s) && w' == Do(w, s) }

  ghost predicate IsHistory(worlds: seq<World>, steps: seq<Step>) { IsChain(Happens, worlds, steps) }

  ghost predicate CanHappen(dispatcherCount: nat, actorCount: nat, max: int, w: World) {
    exists worlds: seq<World>, steps: seq<Step> ::
      IsHistory(worlds, steps) && worlds[0] == CreatedWorld(dispatcherCount, actorCount, max) && worlds[|steps|] == w
  }

  // ----- the invariant -----

  /** A dispatcher is inside `Actor::consume` exactly while the pool has it executing that actor's job. */
  ghost predicate InStep(w: World) {
    && |w.places| == |w.pool.threads| && |w.ports| == |w.actors|
    && (forall t :: 0 <= t < |w.places| ==>
          && (w.places[t].Away? <==> !w.pool.threads[t].Executing?)
          && (!w.places[t].Away? ==> w.pool.threads[t].job == w.places[t].a)
          && (w.places[t].Inside? ==> !w.places[t].st.Out?))
  }

  /** Nobody else runs the actor, and nobody runs it unless history says so. */
  ghost predicate OneRunner(w: World) {
    && (forall t :: 0 <= t < |w.places| && !w.places[t].Away? ==>
          w.places[t].a < |w.actors| && w.actors[w.places[t].a].runner == Some(t))
    && (forall a :: 0 <= a < |w.actors| && w.actors[a].runner.Some? ==>
          var t := w.actors[a].runner.value;
          t < |w.places| && !w.places[t].Away? && w.places[t].a == a)
  }

  /** An actor waits in the queue of the pool at most once, and not while it runs. */
  ghost predicate OneToken(w: World) {
    && (forall i :: 0 <= i < |w.pool.queue| ==>
          w.pool.queue[i] < |w.actors| && w.actors[w.pool.queue[i]].runner == None)
    && (forall i, j :: 0 <= i < j < |w.pool.queue| ==> w.pool.queue[i] != w.pool.queue[j])
  }

  /** `scheduled_` of an actor: its token exists, or it is under construction and has none. */
  ghost predicate ActorToken(w: World) {
    forall a :: 0 <= a < |w.actors| ==>
      var actor := w.actors[a];
      && (actor.constructing ==> actor.scheduled && a !in w.pool.queue && actor.runner == None)
      && (!actor.constructing ==> (actor.scheduled <==> a in w.pool.queue || actor.runner.Some?))
      && (actor.mailbox > 0 ==> actor.scheduled)
  }

  function StageOf(w: World, a: ActorId): Stage {
    if a < |w.actors| && w.actors[a].runner.Some? && w.actors[a].runner.value < |w.places|
       && w.places[w.actors[a].runner.value].Inside?
    then w.places[w.actors[a].runner.value].st else Out
  }

  /** `scheduled_` of a port: its one token is in the owner's mailbox or being consumed. */
  ghost predicate PortToken(w: World) {
    forall a :: 0 <= a < |w.ports| && a < |w.actors| ==>
      && w.actors[a].mailbox == (if w.ports[a].scheduled && StageOf(w, a).Out? then 1 else 0)
      && (!StageOf(w, a).Out? ==> w.ports[a].scheduled)
  }

  ghost predicate Tokens(w: World) {
    InStep(w) && OneRunner(w) && OneToken(w) && ActorToken(w) && PortToken(w)
  }

  ghost predicate PortsSound(w: World) {
    forall a :: 0 <= a < |w.ports| ==> PortInv(w.ports[a], StageOf(w, a))
  }

  /** A port is registered for a type under its own handle, and every registration is of that kind. */
  ghost predicate OneRegistration(w: World) {
    && (forall a, ty :: 0 <= a < |w.ports| && ty in w.ports[a].registered ==>
          var h := w.ports[a].registered[ty];
          h in ListenersOf(w.net.listeners, ty) && ListenersOf(w.net.listeners, ty)[h] == a)
    && (forall ty, h :: h in ListenersOf(w.net.listeners, ty) ==>
          var a := ListenersOf(w.net.listeners, ty)[h];
          a < |w.ports| && ty in w.ports[a].registered && w.ports[a].registered[ty] == h && h <= w.net.handleCounter)
  }

  /** A handle obtained but not yet used is nobody else's. */
  ghost predicate FreshHandles(w: World) {
    && (forall a :: 0 <= a < |w.ports| && StageOf(w, a).Register? ==>
          && StageOf(w, a).netHandle <= w.net.handleCounter
          && forall ty :: StageOf(w, a).netHandle !in ListenersOf(w.net.listeners, ty))
    && (forall a, b :: 0 <= a < b < |w.ports| && StageOf(w, a).Register? && StageOf(w, b).Register? ==>
          StageOf(w, a).netHandle != StageOf(w, b).netHandle)
  }

  /** The first `k` publications, as the sequence of those addressed to port `a`. */
  function Addressed(log: seq<Publication>, k: nat, a: ActorId): seq<nat>
    requires k <= |log|
  {
    if k == 0 then []
    else Addressed(log, k - 1, a) + (if a in log[k - 1].targets then [k - 1] else [])
  }

  /** The publication under way has not reached port `a` yet. */
  predicate Owed(w: World, a: ActorId) {
    w.net.busy.Some? && a < |w.ports| && w.net.busy.value.ty in w.ports[a].registered
    && w.ports[a].registered[w.net.busy.value.ty] in w.net.busy.value.pending
  }

  ghost predicate BroadcastSound(w: World) {
    && (w.net.busy.Some? ==>
          var b := w.net.busy.value;
          && |w.log| > 0 && w.log[|w.log| - 1].ty == b.ty
          && w.log[|w.log| - 1].targets == ListenersOf(w.net.listeners, b.ty).Values
          && b.pending <= ListenersOf(w.net.listeners, b.ty).Keys
          && (b.who.Some? ==> b.who.value < |w.places| && w.places[b.who.value].Inside? && w.places[b.who.value].st.Dispatching?))
    && forall a :: 0 <= a < |w.ports| ==>
         Received(w.ports[a]) == Addressed(w.log, if Owed(w, a) then |w.log| - 1 else |w.log|, a)
  }

  ghost predicate Sound(w: World) {
    Inv(w.pool) && Tokens(w) && PortsSound(w) && OneRegistration(w) && FreshHandles(w) && BroadcastSound(w)
  }
}
