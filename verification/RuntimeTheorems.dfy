/** What holds in every state the runtime can reach, with any number of dispatchers, actors and publishers. */
module RuntimeTheorems {
  import opened Options
  import opened DispatcherPool
  import opened DispatcherPoolSafety
  import opened PortModel
  import opened PortTable
  import opened Runtime
  import opened RuntimeTokens
  import opened RuntimePorts
  import opened RuntimeBroadcast
  import opened RuntimeTypes
  import opened Chains

  lemma SoundKept(w: World, s: Step)
    requires Sound(w) && Possible(w, s)
    ensures Sound(Do(w, s))
  {
    PoolKept(w, s);
    TokensKept(w, s);
    ReceivedIncreasing(w);
    PortsKept(w, s);
    RegistrationsKept(w, s);
    BroadcastKept(w, s);
  }

  lemma SoundAtStart(dispatcherCount: nat, actorCount: nat, max: int)
    requires dispatcherCount > 0
    ensures Sound(CreatedWorld(dispatcherCount, actorCount, max))
  {
    var w := CreatedWorld(dispatcherCount, actorCount, max);
    InvAtStart(dispatcherCount);
    TrafficAtStart(w);
    TokensAtStart(dispatcherCount, actorCount, max);
    PortsAtStart(w);
  }

  lemma TokensAtStart(dispatcherCount: nat, actorCount: nat, max: int)
    ensures Tokens(CreatedWorld(dispatcherCount, actorCount, max))
  {
  }

  lemma PortsAtStart(w: World)
    requires forall a :: 0 <= a < |w.ports| ==> w.ports[a] == EMPTY_PORT && StageOf(w, a) == Out
    ensures PortsSound(w) && FreshHandles(w)
  {
  }

  lemma TrafficAtStart(w: World)
    requires w.log == [] && w.net == Network(map[], 0, None)
    requires forall a :: 0 <= a < |w.ports| ==> w.ports[a] == EMPTY_PORT
    ensures BroadcastSound(w) && OneRegistration(w)
  {
    assert forall a :: 0 <= a < |w.ports| ==> Received(w.ports[a]) == [];
  }

  lemma {:induction false} HistorySound(worlds: seq<World>, steps: seq<Step>, k: nat)
    requires IsHistory(worlds, steps) && Sound(worlds[0]) && k <= |steps|
    ensures Sound(worlds[k])
  {
    if k > 0 {
      HistorySound(worlds, steps, k - 1);
      SoundNext(worlds[k - 1], steps[k - 1], worlds[k]);
    }
  }

  lemma SoundNext(w: World, s: Step, w': World)
    requires Sound(w) && Possible(w, s) && w' == Do(w, s)
    ensures Sound(w')
  {
    SoundKept(w, s);
  }

  lemma {:induction false} HistoryPool(dispatcherCount: nat, worlds: seq<World>, steps: seq<Step>, k: nat)
    requires IsHistory(worlds, steps) && worlds[0].pool == Created(dispatcherCount) && k <= |steps|
    ensures Reachable(dispatcherCount, worlds[k].pool)
  {
    if k == 0 {
      assert IsRun([worlds[0].pool], []);
    } else {
      HistoryPool(dispatcherCount, worlds, steps, k - 1);
      var w, s := worlds[k - 1], steps[k - 1];
      PoolFollows(w, s);
      if Do(w, s).pool != w.pool {
        var action :| Enabled(w.pool, action) && Do(w, s).pool == Apply(w.pool, action);
        ReachableStep(dispatcherCount, w.pool, action);
      }
    }
  }

  /** The runtime drives its pool only through reachable states, so all that is proved of the pool applies. */
  lemma RuntimeSound(dispatcherCount: nat, actorCount: nat, max: int, w: World)
    requires dispatcherCount > 0 && CanHappen(dispatcherCount, actorCount, max, w)
    ensures Sound(w) && Reachable(dispatcherCount, w.pool)
  {
    var worlds: seq<World>, steps: seq<Step> :|
      IsHistory(worlds, steps) && worlds[0] == CreatedWorld(dispatcherCount, actorCount, max) && worlds[|steps|] == w;
    SoundAtStart(dispatcherCount, actorCount, max);
    HistorySound(worlds, steps, |steps|);
    HistoryPool(dispatcherCount, worlds, steps, |steps|);
  }

  // ----- tokens -----

  ghost predicate Runs(w: World, t: Tid, a: ActorId) {
    t < |w.places| && !w.places[t].Away? && w.places[t].a == a
  }

  /** No two dispatchers ever run the same actor, and none runs an actor that waits in the queue. */
  lemma MutualExclusion(n: nat, m: nat, max: int, w: World, t: Tid, u: Tid, a: ActorId)
    requires n > 0 && CanHappen(n, m, max, w) && Runs(w, t, a)
    ensures Runs(w, u, a) ==> t == u
    ensures a !in w.pool.queue
  {
    RuntimeSound(n, m, max, w);
  }

  /**
   After construction an actor is scheduled exactly when it waits in the queue (once) or is
   being run; under construction it is scheduled without a token; mail implies scheduled.
   */
  lemma ActorTokenExact(n: nat, m: nat, max: int, w: World, a: ActorId)
    requires n > 0 && CanHappen(n, m, max, w) && a < |w.actors|
    ensures !w.actors[a].constructing ==> (w.actors[a].scheduled <==> a in w.pool.queue || exists t: Tid :: Runs(w, t, a))
    ensures w.actors[a].constructing ==> w.actors[a].scheduled && a !in w.pool.queue && !exists t: Tid :: Runs(w, t, a)
    ensures w.actors[a].mailbox > 0 ==> w.actors[a].scheduled
    ensures forall i, j :: 0 <= i < j < |w.pool.queue| ==> w.pool.queue[i] != w.pool.queue[j]
  {
    RuntimeSound(n, m, max, w);
    if w.actors[a].runner.Some? {
      assert Runs(w, w.actors[a].runner.value, a);
    }
  }

  /**
   The port is going to be consumed: its callback is in the owner's mailbox or being run; the owner
   is in the pool's queue, being run, or still under construction; and with the owner queued no
   dispatcher that sleeps has been left without a wakeup.
   */
  ghost predicate Served(w: World, a: ActorId) {
    && a < |w.actors|
    && (w.actors[a].mailbox == 1 || exists t: Tid :: Runs(w, t, a) && w.places[t].Inside?)
    && (w.actors[a].constructing || a in w.pool.queue || exists t: Tid :: Runs(w, t, a))
    && (a in w.pool.queue ==> forall t :: 0 <= t < |w.pool.threads| ==> w.pool.threads[t] != Parked(false))
  }

  lemma SoundServed(w: World, a: ActorId)
    requires Sound(w) && a < |w.actors| && a < |w.ports|
    ensures Served(w, a) <==> w.ports[a].scheduled
  {
    if w.actors[a].runner.Some? {
      assert Runs(w, w.actors[a].runner.value, a);
    }
    if t: Tid :| Runs(w, t, a) && w.places[t].Inside? {
      StageAt(w, t);
    }
  }

  /** A port is going to be consumed exactly when its `scheduled_` is set. */
  lemma ServedExactly(n: nat, m: nat, max: int, w: World, a: ActorId)
    requires n > 0 && CanHappen(n, m, max, w) && a < |w.actors| && a < |w.ports|
    ensures Served(w, a) <==> w.ports[a].scheduled
  {
    RuntimeSound(n, m, max, w);
    SoundServed(w, a);
  }

  /** No stranded work, whatever bound `consume` is given: an event, or a command other than `UnlistenAll`, is going to be served. */
  lemma NoStrandedWork(n: nat, m: nat, max: int, w: World, a: ActorId)
    requires n > 0 && CanHappen(n, m, max, w) && a < |w.actors| && a < |w.ports|
    ensures w.ports[a].events != [] ==> Served(w, a)
    ensures (exists i :: 0 <= i < |w.ports[a].commands| && !w.ports[a].commands[i].UnlistenAll?) ==> Served(w, a)
    ensures !Served(w, a) ==> forall i :: 0 <= i < |w.ports[a].commands| ==> w.ports[a].commands[i].UnlistenAll?
  {
    RuntimeSound(n, m, max, w);
    assert PortInv(w.ports[a], StageOf(w, a));
    SoundServed(w, a);
  }

  /** `unlistenAll` is served if and only if its port was scheduled already when it was called. */
  lemma UnlistenAllServedExactly(n: nat, m: nat, max: int, w: World, who: Option<Tid>, a: ActorId, handle: Handle)
    requires n > 0 && CanHappen(n, m, max, w) && Possible(w, Give(who, a, UnlistenAll(handle)))
    ensures var w' := Do(w, Give(who, a, UnlistenAll(handle)));
            && a < |w'.ports| && w'.ports[a].commands == w.ports[a].commands + [UnlistenAll(handle)]
            && (Served(w', a) <==> w.ports[a].scheduled)
  {
    var s := Give(who, a, UnlistenAll(handle));
    RuntimeSound(n, m, max, w);
    SoundKept(w, s);
    UpdateOnly(w, a, Issue(w.ports[a], UnlistenAll(handle)), who);
    SoundServed(Do(w, s), a);
  }

  /** A command given to a port is the last of its queue, and nothing else in the runtime changes but who is scheduled. */
  lemma GiveExact(n: nat, m: nat, max: int, w: World, who: Option<Tid>, a: ActorId, command: Command)
    requires n > 0 && CanHappen(n, m, max, w) && Possible(w, Give(who, a, command))
    ensures var w' := Do(w, Give(who, a, command));
            && w'.ports[a].commands == w.ports[a].commands + [command] && w'.ports[a].issued == w.ports[a].issued + [command]
            && (w'.ports[a].scheduled <==> w.ports[a].scheduled || !command.UnlistenAll?)
            && w'.ports[a].events == w.ports[a].events && w'.ports[a].table == w.ports[a].table
            && (forall b :: 0 <= b < |w.ports| && b != a ==> w'.ports[b] == w.ports[b])
            && w'.places == w.places && w'.net == w.net && w'.log == w.log
  {
    RuntimeSound(n, m, max, w);
    PortIsSound(n, m, max, w, a);
    IssueKeeps(w.ports[a], StageOf(w, a), command);
    UpdateOnly(w, a, Issue(w.ports[a], command), who);
  }

  /** The end of a construction gives the actor one token exactly if mail has come, and lowers its flag otherwise. */
  lemma CtorExact(w: World, who: Option<Tid>, a: ActorId)
    requires Possible(w, FinishCtor(who, a))
    ensures var w' := Do(w, FinishCtor(who, a));
            && w'.actors == w.actors[a := w.actors[a].(constructing := false, scheduled := w.actors[a].mailbox > 0)]
            && w'.pool.queue == w.pool.queue + (if w.actors[a].mailbox > 0 then [a] else [])
            && w'.ports == w.ports && w'.places == w.places && w'.net == w.net && w'.log == w.log
  {
  }

  /**
   Before STOPPED nothing keeps a thread from giving a command or ending a construction, nor from
   publishing while nobody else publishes.
   */
  lemma ProducersAreFree(n: nat, m: nat, max: int, w: World, who: Option<Tid>)
    requires n > 0 && CanHappen(n, m, max, w)
    requires if who.Some? then Free(w, who.value) else w.pool.phase != STOPPED
    ensures forall a, command: Command :: 0 <= a < |w.ports| ==> Possible(w, Give(who, a, command))
    ensures forall ty: EventType :: Possible(w, Publish(who, ty)) <==> w.net.busy == None
    ensures forall a :: 0 <= a < |w.actors| && w.actors[a].constructing ==> Possible(w, FinishCtor(who, a))
  {
    RuntimeSound(n, m, max, w);
    MayPush(w, who);
    forall a, command: Command | 0 <= a < |w.ports| ensures Possible(w, Give(who, a, command)) {
      GiveIsPossible(w, who, a, command);
    }
    forall a | 0 <= a < |w.actors| && w.actors[a].constructing ensures Possible(w, FinishCtor(who, a)) {
      CtorIsPossible(w, who, a);
    }
    PublishIsPossible(w, who);
  }

  lemma CtorIsPossible(w: World, who: Option<Tid>, a: ActorId)
    requires a < |w.actors| && w.actors[a].constructing && CanAct(w, who) && Enabled(w.pool, PushAction(who, a))
    ensures Possible(w, FinishCtor(who, a))
  {
  }

  lemma PublishIsPossible(w: World, who: Option<Tid>)
    requires CanAct(w, who)
    ensures forall ty: EventType :: Possible(w, Publish(who, ty)) <==> w.net.busy == None
  {
  }

  lemma GiveIsPossible(w: World, who: Option<Tid>, a: ActorId, command: Command)
    requires |w.ports| == |w.actors| && a < |w.ports| && CanAct(w, who) && Enabled(w.pool, PushAction(who, a))
    ensures Possible(w, Give(who, a, command))
  {
  }

  lemma MayPush(w: World, who: Option<Tid>)
    requires Inv(w.pool) && InStep(w) && if who.Some? then Free(w, who.value) else w.pool.phase != STOPPED
    ensures forall a: ActorId :: Enabled(w.pool, PushAction(who, a))
  {
    SleepBounds(w.pool);
  }

  /** What is stranded stays: until something else makes the port scheduled, nothing carries its commands out. */
  lemma StrandedStays(n: nat, m: nat, max: int, w: World, s: Step, a: ActorId)
    requires n > 0 && CanHappen(n, m, max, w) && a < |w.ports| && !w.ports[a].scheduled && Possible(w, s)
    ensures a < |Do(w, s).ports|
    ensures !Do(w, s).ports[a].scheduled ==>
              w.ports[a].commands <= Do(w, s).ports[a].commands && Do(w, s).ports[a].table == w.ports[a].table
  {
    RuntimeSound(n, m, max, w);
    IdlePortStays(w, s, a);
  }

  // A port with no consumer changes only at the hands of producers.
  lemma IdlePortStays(w: World, s: Step, a: ActorId)
    requires Sound(w) && a < |w.ports| && !w.ports[a].scheduled && Possible(w, s)
    ensures a < |Do(w, s).ports|
    ensures !Do(w, s).ports[a].scheduled ==>
              w.ports[a].commands <= Do(w, s).ports[a].commands && Do(w, s).ports[a].table == w.ports[a].table
  {
    if WithinPort(s) || s.QuitPort? {
      ConsumersStay(w, s, a);
    } else if s.Give? || s.Deliver? {
      ProducersIssue(w, s, a);
    } else if !s.TakeMail? {
      StillUnmoved(w, s);
    }
  }

  lemma ConsumersStay(w: World, s: Step, a: ActorId)
    requires Sound(w) && a < |w.ports| && !w.ports[a].scheduled && Possible(w, s) && (WithinPort(s) || s.QuitPort?)
    ensures a < |Do(w, s).ports| && Do(w, s).ports[a] == w.ports[a]
  {
    SomewhereElse(w, s.t, a);
    if WithinPort(s) { ElsewhereStays(w, s, a); }
  }

  lemma ProducersIssue(w: World, s: Step, a: ActorId)
    requires Tokens(w) && a < |w.ports| && !w.ports[a].scheduled && Possible(w, s) && (s.Give? || s.Deliver?)
    ensures a < |Do(w, s).ports|
    ensures !Do(w, s).ports[a].scheduled ==>
              w.ports[a].commands <= Do(w, s).ports[a].commands && Do(w, s).ports[a].table == w.ports[a].table
  {
    if s.Give? {
      UpdateOnly(w, s.a, Issue(w.ports[s.a], s.command), s.who);
    } else {
      HandOverStays(w, s.handle, a);
    }
  }

  lemma ElsewhereStays(w: World, s: Step, a: ActorId)
    requires a < |w.ports| && Possible(w, s) && WithinPort(s) && w.places[s.t].a != a
    ensures a < |Do(w, s).ports| && Do(w, s).ports[a] == w.ports[a]
  {
  }

  lemma SomewhereElse(w: World, t: Tid, a: ActorId)
    requires Sound(w) && At(w, t) && a < |w.ports| && !w.ports[a].scheduled
    ensures w.places[t].a != a
  {
    StageAt(w, t);
    assert PortInv(w.ports[w.places[t].a], w.places[t].st);
  }

  lemma HandOverStays(w: World, handle: Handle, a: ActorId)
    requires a < |w.ports| && Possible(w, Deliver(handle))
    ensures a < |HandOver(w, handle).ports|
    ensures !HandOver(w, handle).ports[a].scheduled ==> HandOver(w, handle).ports[a] == w.ports[a]
  {
  }

  // The only actor is constructed, and is told to unlisten.
  lemma OrdersUnlistenAll(w0: World, handle: Handle) returns (w1: World, w2: World)
    requires |w0.ports| == |w0.actors| == 1 && w0.ports[0] == EMPTY_PORT && w0.actors[0] == Actor(true, true, 0, None)
    ensures Happens(w0, FinishCtor(None, 0), w1) && Happens(w1, Give(None, 0, UnlistenAll(handle)), w2)
    ensures |w2.ports| == |w2.actors| == 1 && w2.ports[0].commands == [UnlistenAll(handle)] && w2.pool == w0.pool
    ensures !w2.ports[0].scheduled && !w2.actors[0].scheduled
  {
    w1 := Do(w0, FinishCtor(None, 0));
    assert w1.actors == [Actor(false, false, 0, None)] && w1.ports == w0.ports;
    w2 := Do(w1, Give(None, 0, UnlistenAll(handle)));
  }

  /** `UnlistenAll` is the exception: it can be left in an idle port for ever. */
  lemma StrandedUnlistenAll(handle: Handle, max: int)
    ensures exists w :: CanHappen(1, 1, max, w) && |w.ports| == |w.actors| == 1 && w.ports[0].commands == [UnlistenAll(handle)]
                        && !w.ports[0].scheduled && !w.actors[0].scheduled && w.pool.queue == []
  {
    var w0 := CreatedWorld(1, 1, max);
    var w1, w2 := OrdersUnlistenAll(w0, handle);
    var s := Give(None, 0, UnlistenAll(handle));
    assert Happens(w0, FinishCtor(None, 0), w1) && Happens(w1, s, w2);
    assert IsHistory([w0, w1, w2], [FinishCtor(None, 0), s]);
    assert CanHappen(1, 1, max, w2);
  }

  /** `waitForReadyToDtor` returns with `scheduled_` false: then no token of the actor is left. */
  lemma ReadyToDtor(n: nat, m: nat, max: int, w: World, a: ActorId)
    requires n > 0 && CanHappen(n, m, max, w) && a < |w.actors| && a < |w.ports| && !w.actors[a].scheduled
    ensures a !in w.pool.queue && w.actors[a].mailbox == 0 && !w.ports[a].scheduled
    ensures forall t :: !Runs(w, t, a)
  {
    RuntimeSound(n, m, max, w);
    assert PortInv(w.ports[a], StageOf(w, a));
  }

  // ----- progress -----

  /** The queue is never empty at `pop_front`, although its size was tested in an earlier critical section. */
  lemma CheckThenPop(n: nat, m: nat, max: int, w: World, t: Tid)
    requires n > 0 && CanHappen(n, m, max, w) && At(w, t) && w.places[t].st.Pop?
    ensures w.ports[w.places[t].a].events != [] && Possible(w, TakeEvent(t))
  {
    RuntimeSound(n, m, max, w);
    StageAt(w, t);
    assert PortInv(w.ports[w.places[t].a], w.places[t].st);
  }

  // The step a dispatcher inside an actor takes next.
  ghost function NextOf(w: World, t: Tid): Step
    requires t < |w.places| && !w.places[t].Away?
  {
    match w.places[t]
    case Enter(a) => if a < |w.actors| && w.actors[a].mailbox > 0 then TakeMail(t) else FinishActor(t)
    case Inside(a, st) =>
      match st
      case Process(_) => if a < |w.ports| && w.ports[a].commands != [] then TakeCommand(t) else Count(t)
      case RunCommand(_, _) => RunIt(t)
      case ObtainHandle(_, _) => AskHandle(t)
      case Register(_, _, _) => RegisterIt(t)
      case Pop(_) => TakeEvent(t)
      case Dispatching(_, _, todo) => if todo == {} then EndDispatch(t) else var h :| h in todo; CallListener(t, h)
      case _ => QuitPort(t)
  }

  lemma PublicationAdvances(w: World)
    requires Sound(w) && w.net.busy.Some? && w.net.busy.value.who.Some?
    ensures exists s :: Possible(w, s) && (s.Deliver? || s.EndPublish?)
  {
    var b := w.net.busy.value;
    if b.pending == {} {
      assert Possible(w, EndPublish);
    } else {
      var h :| h in b.pending;
      HandOverPossible(w, h);
    }
  }

  lemma HandOverPossible(w: World, h: Handle)
    requires Sound(w) && w.net.busy.Some? && w.net.busy.value.who.Some? && h in w.net.busy.value.pending
    ensures Possible(w, Deliver(h))
  {
    var b := w.net.busy.value;
    var a := ListenersOf(w.net.listeners, b.ty)[h];
    PublisherCanPush(w, a);
    assert CanUpdate(w, a, Enqueue(w.ports[a], |w.log| - 1, b.ty), b.who);
  }

  lemma PublisherCanPush(w: World, a: ActorId)
    requires Sound(w) && w.net.busy.Some? && w.net.busy.value.who.Some?
    ensures Enabled(w.pool, PushAction(w.net.busy.value.who, a))
  {
    SleepBounds(w.pool);
    PublisherExecutes(w);
  }

  lemma PublisherExecutes(w: World)
    requires Sound(w) && w.net.busy.Some? && w.net.busy.value.who.Some?
    ensures var t := w.net.busy.value.who.value; t < |w.pool.threads| && w.pool.threads[t].Executing? && |w.log| > 0
  {
  }

  lemma ConsumerAdvances(w: World, t: Tid)
    requires Sound(w) && t < |w.places| && w.places[t].Inside? && (!NeedsNetwork(w, t) || w.net.busy == None)
    ensures Possible(w, NextOf(w, t))
  {
    StageAt(w, t);
    assert PortInv(w.ports[w.places[t].a], w.places[t].st);
    if w.places[t].st.Leave? { PortCanLeave(w, t); }
  }

  lemma PortCanLeave(w: World, t: Tid)
    requires Inv(w.pool) && Tokens(w) && t < |w.places| && w.places[t].Inside? && w.places[t].st.Leave?
    ensures Possible(w, QuitPort(t))
  {
    SleepBounds(w.pool);
  }

  lemma ActorAdvances(w: World, t: Tid)
    requires Sound(w) && t < |w.places| && w.places[t].Enter?
    ensures Possible(w, NextOf(w, t))
  {
    StageAt(w, t);
  }

  /** The next step of `t` needs the mutex of the network, or `t` is publishing itself. */
  predicate NeedsNetwork(w: World, t: Tid)
    requires t < |w.places|
  {
    && w.places[t].Inside?
    && (w.places[t].st.ObtainHandle? || w.places[t].st.Register?
        || (w.net.busy.Some? && w.net.busy.value.who == Some(t)))
  }

  /**
   A dispatcher inside an actor can take its next step whenever that step does not need the
   network, and also if it does but the network is free. A publication by a dispatcher can
   always advance.
   */
  lemma DispatcherAdvances(n: nat, m: nat, max: int, w: World, t: Tid)
    requires n > 0 && CanHappen(n, m, max, w) && t < |w.places| && !w.places[t].Away?
    ensures !NeedsNetwork(w, t) || w.net.busy == None ==> Possible(w, NextOf(w, t))
    ensures w.net.busy.Some? && w.net.busy.value.who.Some? ==> exists s :: Possible(w, s) && (s.Deliver? || s.EndPublish?)
  {
    RuntimeSound(n, m, max, w);
    if w.net.busy.Some? && w.net.busy.value.who.Some? { PublicationAdvances(w); }
    if w.places[t].Enter? {
      ActorAdvances(w, t);
    } else if !NeedsNetwork(w, t) || w.net.busy == None {
      ConsumerAdvances(w, t);
    }
  }

  // ----- broadcast -----

  /** A publication is addressed to exactly the ports registered for its type at that moment. */
  lemma PublishTargets(w: World, who: Option<Tid>, ty: EventType)
    requires Sound(w) && Possible(w, Publish(who, ty))
    ensures Do(w, Publish(who, ty)).log == w.log + [Publication(ty, set a | 0 <= a < |w.ports| && ty in w.ports[a].registered)]
  {
    var listeners := ListenersOf(w.net.listeners, ty);
    forall a | 0 <= a < |w.ports| && ty in w.ports[a].registered ensures a in listeners.Values {
      assert listeners[w.ports[a].registered[ty]] == a;
    }
    assert listeners.Values == set a | 0 <= a < |w.ports| && ty in w.ports[a].registered;
  }

  /**
   Total-order, exactly-once broadcast: what a port has dispatched, has in hand and has queued is
   the global publish order restricted to the publications addressed to it, except that the
   publication under way may not have reached it yet.
   */
  lemma TotalOrder(n: nat, m: nat, max: int, w: World, a: ActorId)
    requires n > 0 && CanHappen(n, m, max, w) && a < |w.ports|
    ensures Owed(w, a) ==> |w.log| > 0
    ensures Received(w.ports[a]) == Addressed(w.log, if Owed(w, a) then |w.log| - 1 else |w.log|, a)
    ensures Increasing(Received(w.ports[a]))
    ensures forall id: nat :: id < |w.log| && a in w.log[id].targets && !(Owed(w, a) && id == |w.log| - 1) ==> id in Received(w.ports[a])
    ensures forall id :: id in Received(w.ports[a]) ==> id < |w.log| && a in w.log[id].targets
  {
    RuntimeSound(n, m, max, w);
    AddressedIncreasing(w.log, if Owed(w, a) then |w.log| - 1 else |w.log|, a);
  }

  lemma TypedNext(w: World, s: Step, w': World)
    requires Sound(w) && AllTyped(w) && Happens(w, s, w')
    ensures Sound(w') && AllTyped(w')
  {
    SoundKept(w, s);
    TypesKept(w, s);
  }

  /** What a port has queued, and what it dispatches, has the type it was published with. */
  lemma EventTypesExact(n: nat, m: nat, max: int, w: World, a: ActorId)
    requires n > 0 && CanHappen(n, m, max, w) && a < |w.ports|
    ensures forall i :: 0 <= i < |w.ports[a].events| ==>
              var event := w.ports[a].events[i]; event.id < |w.log| && event.ty == w.log[event.id].ty && a in w.log[event.id].targets
    ensures StageOf(w, a).Dispatching? ==>
              var event := StageOf(w, a).event; event.id < |w.log| && event.ty == w.log[event.id].ty && a in w.log[event.id].targets
  {
    var worlds: seq<World>, steps: seq<Step> :|
      IsHistory(worlds, steps) && worlds[0] == CreatedWorld(n, m, max) && worlds[|steps|] == w;
    SoundAtStart(n, m, max);
    forall v: World, s: Step, v': World | (Sound(v) && AllTyped(v)) && Happens(v, s, v') ensures Sound(v') && AllTyped(v') {
      TypedNext(v, s, v');
    }
    ChainKeeps(Happens, v => Sound(v) && AllTyped(v), worlds, steps, |steps|);
    assert TypedPort(w, a);
    EventsAreAddressed(n, m, max, w, a);
  }

  lemma EventsAreAddressed(n: nat, m: nat, max: int, w: World, a: ActorId)
    requires n > 0 && CanHappen(n, m, max, w) && a < |w.ports|
    ensures forall i :: 0 <= i < |w.ports[a].events| ==>
              w.ports[a].events[i].id < |w.log| && a in w.log[w.ports[a].events[i].id].targets
    ensures StageOf(w, a).Dispatching? ==> StageOf(w, a).event.id < |w.log| && a in w.log[StageOf(w, a).event.id].targets
  {
    TotalOrder(n, m, max, w, a);
    PortIsSound(n, m, max, w, a);
    EventsAreReceived(w.ports[a], StageOf(w, a));
  }

  lemma PortIsSound(n: nat, m: nat, max: int, w: World, a: ActorId)
    requires n > 0 && CanHappen(n, m, max, w) && a < |w.ports|
    ensures PortInv(w.ports[a], StageOf(w, a))
  {
    RuntimeSound(n, m, max, w);
  }

  lemma EventsAreReceived(p: Port, st: Stage)
    requires CalledOnce(p, st)
    ensures forall i :: 0 <= i < |p.events| ==> p.events[i].id in Received(p)
    ensures st.Dispatching? ==> st.event.id in Received(p)
  {
    forall i | 0 <= i < |p.events| ensures p.events[i].id in Received(p) {
      assert Received(p)[|p.taken| + i] == p.events[i].id;
    }
    assert p.taken != [] ==> Received(p)[|p.taken| - 1] == p.taken[|p.taken| - 1];
  }

  /** Any two ports dispatch their common events in the same order. */
  lemma SameOrder(n: nat, m: nat, max: int, w: World, a: ActorId, b: ActorId, i: nat, j: nat, k: nat, l: nat)
    requires n > 0 && CanHappen(n, m, max, w) && a < |w.ports| && b < |w.ports|
    requires i < j < |w.ports[a].taken| && k < |w.ports[b].taken| && l < |w.ports[b].taken|
    requires w.ports[a].taken[i] == w.ports[b].taken[k] && w.ports[a].taken[j] == w.ports[b].taken[l]
    ensures k < l
  {
    TotalOrder(n, m, max, w, a);
    TotalOrder(n, m, max, w, b);
    assert Received(w.ports[a])[i] < Received(w.ports[a])[j];
    InOrder(Received(w.ports[b]), k, l);
  }

  lemma InOrder(s: seq<nat>, k: nat, l: nat)
    requires Increasing(s) && k < |s| && l < |s| && s[k] < s[l]
    ensures k < l
  {
  }

  // ----- the deferred callback table -----

  /**
   While a port dispatches an event its table is the fold of a prefix of its commands in issue
   order, and the prefix contains every command issued before the event was enqueued and every
   command issued before the previous dispatch ended.
   */
  lemma DispatchTable(n: nat, m: nat, max: int, w: World, t: Tid)
    requires n > 0 && CanHappen(n, m, max, w) && At(w, t) && w.places[t].st.Dispatching?
    ensures var p := w.ports[w.places[t].a];
            && p.applied <= |p.issued| && p.table == Fold(p.issued[..p.applied])
            && w.places[t].st.event.stamp <= p.applied && p.mark <= p.applied
  {
    RuntimeSound(n, m, max, w);
    StageAt(w, t);
    assert PortInv(w.ports[w.places[t].a], w.places[t].st);
  }

  /**
   When a dispatch can end, each handle that the table lists for the type of the publication has
   been called exactly once for it, and no other handle.
   */
  lemma EachHandleOnce(n: nat, m: nat, max: int, w: World, t: Tid)
    requires n > 0 && CanHappen(n, m, max, w) && Possible(w, EndDispatch(t))
    ensures var p, id := w.ports[w.places[t].a], w.places[t].st.event.id;
            && id < |w.log| && w.places[t].a in w.log[id].targets
            && (forall h: Handle :: (id, h) in p.calls <==> h in Handles(p.table, w.log[id].ty))
            && (forall i, j :: 0 <= i < j < |p.calls| ==> p.calls[i] != p.calls[j])
  {
    DispatchIsTyped(n, m, max, w, t);
    assert PortInv(w.ports[w.places[t].a], w.places[t].st);
  }

  lemma DispatchIsTyped(n: nat, m: nat, max: int, w: World, t: Tid)
    requires n > 0 && CanHappen(n, m, max, w) && At(w, t) && w.places[t].st.Dispatching?
    ensures Sound(w) && StageOf(w, w.places[t].a) == w.places[t].st
    ensures var event := w.places[t].st.event;
            event.id < |w.log| && event.ty == w.log[event.id].ty && w.places[t].a in w.log[event.id].targets
  {
    RuntimeSound(n, m, max, w);
    StageAt(w, t);
    EventTypesExact(n, m, max, w, w.places[t].a);
  }

  /**
   A handle removed by a command issued before the event was enqueued, or before the previous
   dispatch ended (in its own callback, say), and not listened to again, is not called.
   */
  lemma UnlistenedIsNotCalled(n: nat, m: nat, max: int, w: World, t: Tid, k: nat, ty: EventType, handle: Handle)
    requires n > 0 && CanHappen(n, m, max, w) && At(w, t) && w.places[t].st.Dispatching?
    requires w.places[t].st.event.id < |w.log| ==> ty == w.log[w.places[t].st.event.id].ty
    requires var p := w.ports[w.places[t].a];
             && k < |p.issued| && (k < w.places[t].st.event.stamp || k < p.mark)
             && !p.issued[k].Listen? && Concerns(p.issued[k], ty, handle)
             && forall i :: k < i < |p.issued| ==> !(p.issued[i].Listen? && Concerns(p.issued[i], ty, handle))
    ensures handle !in w.places[t].st.todo && (w.places[t].st.event.id, handle) !in w.ports[w.places[t].a].calls
  {
    DispatchIsTyped(n, m, max, w, t);
    var p := w.ports[w.places[t].a];
    assert PortInv(p, w.places[t].st);
    UnlistenedStaysOut(p.issued[..p.applied], k, ty, handle);
  }

  /** The network holds a callback of port `a` for the type. */
  ghost predicate Listed(w: World, a: ActorId, ty: EventType) {
    var listeners := ListenersOf(w.net.listeners, ty);
    exists h :: h in listeners && listeners[h] == a
  }

  /**
   Outside a listen command's own sections a port has a table entry for a type exactly when the
   network holds a callback of that port for the type, and it never holds two.
   */
  lemma RegisteredOnce(n: nat, m: nat, max: int, w: World, a: ActorId, ty: EventType)
    requires n > 0 && CanHappen(n, m, max, w) && a < |w.ports|
    requires !(Registering(StageOf(w, a)) && StageOf(w, a).command.Listen? && StageOf(w, a).command.ty == ty)
    ensures var listeners := ListenersOf(w.net.listeners, ty);
            && (ty in w.ports[a].table <==> Listed(w, a, ty))
            && forall h, g :: h in listeners && g in listeners && listeners[h] == a && listeners[g] == a ==> h == g
  {
    RuntimeSound(n, m, max, w);
    assert PortInv(w.ports[a], StageOf(w, a));
    if ty in w.ports[a].table {
      var h := w.ports[a].registered[ty];
      assert h in ListenersOf(w.net.listeners, ty);
    }
  }

  // ----- idle and stop -----

  lemma NobodyRuns(w: World)
    requires Tokens(w) && w.pool.queue == [] && forall t :: 0 <= t < |w.pool.threads| ==> !w.pool.threads[t].Executing?
    ensures forall t :: 0 <= t < |w.places| ==> w.places[t].Away?
    ensures forall a :: 0 <= a < |w.actors| && !w.actors[a].constructing ==>
              !w.actors[a].scheduled && w.actors[a].mailbox == 0 && !w.ports[a].scheduled && StageOf(w, a) == Out
  {
  }

  lemma NoListenWaits(p: Port)
    requires PortInv(p, Out) && !p.scheduled
    ensures forall i :: 0 <= i < |p.issued| && p.issued[i].Listen? ==> i < p.applied
    ensures p.applied <= |p.issued| && p.table == Fold(p.issued[..p.applied])
    ensures p.commands == [] ==> p.issued[..p.applied] == p.issued
  {
    assert forall i :: p.applied <= i < |p.issued| ==> p.issued[i] == p.commands[i - p.applied];
  }

  lemma IdlePort(w: World, a: ActorId)
    requires PortsSound(w) && a < |w.ports| && StageOf(w, a) == Out && !w.ports[a].scheduled
    ensures var p := w.ports[a];
            && p.events == [] && p.applied <= |p.issued| && p.table == Fold(p.issued[..p.applied])
            && (forall i :: 0 <= i < |p.issued| && p.issued[i].Listen? ==> i < p.applied)
            && (p.commands == [] ==> p.table == Fold(p.issued))
  {
    NoListenWaits(w.ports[a]);
  }

  // A listen carried out is in the table and in the network.
  lemma ListenIsInstalled(n: nat, m: nat, max: int, w: World, a: ActorId, i: nat)
    requires n > 0 && CanHappen(n, m, max, w) && a < |w.ports| && StageOf(w, a) == Out
    requires var p := w.ports[a]; i < p.applied <= |p.issued| && p.issued[i].Listen? && p.table == Fold(p.issued[..p.applied])
    ensures w.ports[a].issued[i].ty in w.ports[a].table && Listed(w, a, w.ports[a].issued[i].ty)
  {
    var p := w.ports[a];
    TypeStays(p.issued[..p.applied], i);
    RegisteredOnce(n, m, max, w, a, p.issued[i].ty);
  }

  /**
   When `waitForIdle` returns in `Core::run`, and no thread outside the pool scheduled while all
   dispatchers slept, every dispatcher is parked, every constructed actor and its port are unscheduled, and every
   listen its constructor issued is in its table and in the network.
   */
  lemma IdleMeansInstalled(n: nat, m: nat, max: int, w: World, action: Action, a: ActorId)
    requires n > 0 && CanHappen(n, m, max, w) && !w.pool.intruder && w.pool.phase == RUNNING
    requires action in {BeginIdleWait, TestIdle} && Enabled(w.pool, action) && Apply(w.pool, action).main == Idle
    requires a < |w.actors| && a < |w.ports| && !w.actors[a].constructing
    ensures w.pool.queue == [] && forall t :: 0 <= t < |w.pool.threads| ==> w.pool.threads[t].Parked?
    ensures !w.actors[a].scheduled && !w.ports[a].scheduled && w.ports[a].events == []
    ensures forall i :: 0 <= i < |w.ports[a].issued| && w.ports[a].issued[i].Listen? ==>
              w.ports[a].issued[i].ty in w.ports[a].table && Listed(w, a, w.ports[a].issued[i].ty)
    ensures w.ports[a].commands == [] ==> w.ports[a].table == Fold(w.ports[a].issued)
  {
    RuntimeSound(n, m, max, w);
    WaitForIdleExact(n, w.pool, action);
    NobodyRuns(w);
    IdlePort(w, a);
    forall i: nat | i < |w.ports[a].issued| && w.ports[a].issued[i].Listen?
      ensures w.ports[a].issued[i].ty in w.ports[a].table && Listed(w, a, w.ports[a].issued[i].ty)
    {
      ListenIsInstalled(n, m, max, w, a, i);
    }
  }

  lemma IdleReturns(w: World, action: Action, w': World)
    requires Sound(w) && action in {BeginIdleWait, TestIdle} && Happens(w, PoolMove(action), w')
    ensures Sound(w') && w'.ports == w.ports && w'.log == w.log
  {
    SoundKept(w, PoolMove(action));
  }

  lemma IdleMeansRegistered(n: nat, m: nat, max: int, w: World, action: Action, a: ActorId, i: nat)
    requires n > 0 && CanHappen(n, m, max, w) && !w.pool.intruder && w.pool.phase == RUNNING
    requires action in {BeginIdleWait, TestIdle} && Enabled(w.pool, action) && Apply(w.pool, action).main == Idle
    requires a < |w.actors| && a < |w.ports| && !w.actors[a].constructing
    requires i < |w.ports[a].issued| && w.ports[a].issued[i].Listen?
    ensures Sound(w) && w.ports[a].issued[i].ty in w.ports[a].registered
  {
    IdleMeansInstalled(n, m, max, w, action, a);
    RuntimeSound(n, m, max, w);
    assert Listed(w, a, w.ports[a].issued[i].ty);
  }

  lemma RegisteredIsAddressed(w: World, a: ActorId, ty: EventType, w': World)
    requires Sound(w) && Happens(w, Publish(None, ty), w') && a < |w.ports| && ty in w.ports[a].registered
    ensures |w'.log| == |w.log| + 1 && a in w'.log[|w.log|].targets
  {
    PublishTargets(w, None, ty);
  }

  /**
   What `Core::run` does when `waitForIdle` has returned: the request it publishes is addressed to
   the port of every constructed actor whose constructor listened to it, the root's among them.
   */
  lemma StartReqIsAddressed(n: nat, m: nat, max: int, w: World, action: Action, w': World, w'': World, a: ActorId, i: nat)
    requires n > 0 && CanHappen(n, m, max, w) && !w.pool.intruder && w.pool.phase == RUNNING
    requires action in {BeginIdleWait, TestIdle} && Happens(w, PoolMove(action), w') && w'.pool.main == Idle
    requires a < |w.actors| && a < |w.ports| && !w.actors[a].constructing
    requires i < |w.ports[a].issued| && w.ports[a].issued[i].Listen?
    requires Happens(w', Publish(None, w.ports[a].issued[i].ty), w'')
    ensures |w''.log| == |w.log| + 1 && a in w''.log[|w.log|].targets
  {
    IdleMeansRegistered(n, m, max, w, action, a, i);
    IdleReturns(w, action, w');
    RegisteredIsAddressed(w', a, w.ports[a].issued[i].ty, w'');
  }

  /** After `stop` every publication has been dispatched by every constructed actor it was addressed to. */
  lemma StopDispatchesAll(n: nat, m: nat, max: int, w: World, a: ActorId)
    requires n > 0 && CanHappen(n, m, max, w) && w.pool.phase == STOPPED && w.net.busy == None
    requires a < |w.actors| && a < |w.ports| && !w.actors[a].constructing
    ensures w.ports[a].taken == Addressed(w.log, |w.log|, a) && w.ports[a].events == []
  {
    RuntimeSound(n, m, max, w);
    StopDrains(n, w.pool);
    NobodyRuns(w);
    assert PortInv(w.ports[a], Out);
    assert Received(w.ports[a]) == w.ports[a].taken;
  }
}
