/** That the runtime comes to the end of its work, and how much of it a consumer does at a time. */
module RuntimeProgress {
  import opened Options
  import opened Totals
  import opened Chains
  import opened DispatcherPool
  import opened DispatcherPoolSafety
  import opened DispatcherPoolProgress
  import opened DispatcherPoolRunning
  import opened PortModel
  import opened Runtime
  import opened RuntimeTokens
  import opened RuntimePorts
  import opened RuntimeBroadcast
  import opened RuntimeLoad
  import opened RuntimeTheorems

  // ----- bounded runs -----

  /** Nobody gives a command, publishes or ends a construction. */
  predicate NoNewWork(s: Step) { !s.Give? && !s.Publish? && !s.FinishCtor? }

  /** Four steps for each spurious wakeup and each call of `waitForIdle`. */
  function NudgeCost(s: Step): nat { if Own(s) then 0 else 4 }

  ghost predicate Busy(w: World) { Sound(w) && Active(w) && w.max > 0 }

  /** A step that brings no new work, in the same phase. */
  ghost predicate Proceeds(w: World, s: Step, w': World) { Happens(w, s, w') && NoNewWork(s) && w'.pool.phase == w.pool.phase }

  lemma StepCosts(w: World, s: Step, w': World)
    requires Busy(w) && Proceeds(w, s, w')
    ensures Busy(w') && Load(w') + 1 <= Load(w) + NudgeCost(s)
  {
    SoundKept(w, s);
    MaxStays(w, s);
    if Own(s) { OwnStepLessens(w, s); } else { NudgedLoad(w, s.action); }
  }

  lemma MaxStays(w: World, s: Step)
    requires Possible(w, s)
    ensures Do(w, s).max == w.max
  {
  }

  /** The bound handed to `Port::consume` is the one the runtime was made with. */
  lemma MaxExact(n: nat, m: nat, max: int, w: World)
    requires CanHappen(n, m, max, w)
    ensures w.max == max
  {
    var worlds: seq<World>, steps: seq<Step> :|
      IsHistory(worlds, steps) && worlds[0] == CreatedWorld(n, m, max) && worlds[|steps|] == w;
    forall v: World, s: Step, v': World | v.max == max && Happens(v, s, v') ensures v'.max == max { MaxStays(v, s); }
    ChainKeeps(Happens, (v: World) => v.max == max, worlds, steps, |steps|);
  }

  lemma ProceedsIsBounded(worlds: seq<World>, steps: seq<Step>)
    requires IsChain(Proceeds, worlds, steps) && Busy(worlds[0])
    ensures |steps| <= Load(worlds[0]) + Total(steps, NudgeCost)
  {
    forall w: World, s: Step, w': World | Busy(w) && Proceeds(w, s, w')
      ensures Busy(w') && Load(w') + 1 <= Load(w) + NudgeCost(s)
    {
      StepCosts(w, s, w');
    }
    ChainIsBounded(Proceeds, w => Busy(w), Load, NudgeCost, worlds, steps);
  }

  // ----- somebody can go on -----

  /** No publication is under way, and every constructed actor has dispatched all that was addressed to it. */
  ghost predicate AllDispatched(w: World) {
    && w.net.busy == None
    && forall a :: 0 <= a < |w.ports| && a < |w.actors| && !w.actors[a].constructing ==>
         && w.ports[a].events == [] && w.ports[a].taken == Addressed(w.log, |w.log|, a)
         && forall i :: 0 <= i < |w.ports[a].commands| ==> w.ports[a].commands[i].UnlistenAll?
  }

  lemma ServedIsDispatched(w: World)
    requires Sound(w) && AllServed(w.pool) && w.net.busy == None
    ensures AllDispatched(w)
  {
    NobodyRuns(w);
    forall a | 0 <= a < |w.ports| && a < |w.actors| && !w.actors[a].constructing
      ensures w.ports[a].events == [] && w.ports[a].taken == Addressed(w.log, |w.log|, a)
      ensures forall i :: 0 <= i < |w.ports[a].commands| ==> w.ports[a].commands[i].UnlistenAll?
    {
      assert PortInv(w.ports[a], Out) && !w.ports[a].scheduled;
      assert !Owed(w, a) && Received(w.ports[a]) == w.ports[a].taken;
    }
  }

  lemma PublicationGoesOn(w: World) returns (s: Step)
    requires Sound(w) && Active(w) && w.net.busy.Some?
    ensures Possible(w, s) && Own(s)
  {
    var b := w.net.busy.value;
    if b.pending == {} {
      s := EndPublish;
    } else {
      var h :| h in b.pending;
      s := Deliver(h);
      if b.who.Some? { HandOverPossible(w, h); } else { OutsiderHandsOver(w, h); }
    }
  }

  lemma OutsiderHandsOver(w: World, h: Handle)
    requires Active(w) && OneRegistration(w) && BroadcastSound(w) && InStep(w)
    requires w.net.busy.Some? && w.net.busy.value.who == None && h in w.net.busy.value.pending
    ensures Possible(w, Deliver(h))
  {
    var b := w.net.busy.value;
    var a := ListenersOf(w.net.listeners, b.ty)[h];
    assert Enabled(w.pool, PushAction(None, a));
  }

  /** The next action of the pool is one of the runtime, or stands for the way of a dispatcher through its actor. */
  lemma PoolGoesOn(w: World, action: Action) returns (s: Step)
    requires Sound(w) && w.net.busy == None && Enabled(w.pool, action) && !Nudge(action)
    ensures Possible(w, s) && Own(s)
  {
    if action.Return? {
      s := NextOf(w, action.t);
      ExecutingAdvances(w, action.t);
    } else {
      s := PoolMove(action);
    }
  }

  lemma ExecutingAdvances(w: World, t: Tid)
    requires Sound(w) && w.net.busy == None && t < |w.pool.threads| && w.pool.threads[t].Executing?
    ensures t < |w.places| && !w.places[t].Away? && Possible(w, NextOf(w, t)) && Own(NextOf(w, t))
  {
    IsInside(w, t);
    if w.places[t].Enter? { ActorAdvances(w, t); } else { ConsumerAdvances(w, t); }
  }

  lemma IsInside(w: World, t: Tid)
    requires InStep(w) && t < |w.pool.threads| && w.pool.threads[t].Executing?
    ensures t < |w.places| && !w.places[t].Away? && Own(NextOf(w, t))
  {
  }

  lemma DispatchGoesOn(w: World) returns (s: Step)
    requires Sound(w) && Active(w)
    requires if w.pool.phase == RUNNING then !AllDispatched(w) else !Hopeless(w.pool)
    ensures Possible(w, s) && Own(s)
  {
    if w.net.busy.Some? {
      s := PublicationGoesOn(w);
    } else {
      if w.pool.phase == RUNNING && AllServed(w.pool) { ServedIsDispatched(w); }
      var action := PoolHasStep(w.pool);
      s := PoolGoesOn(w, action);
    }
  }

  lemma PoolHasStep(s: Pool) returns (action: Action)
    requires Inv(s) && ((s.phase == RUNNING && !AllServed(s)) || (s.phase == STOPPING && !Hopeless(s)))
    ensures Enabled(s, action) && !Nudge(action)
  {
    if s.phase == RUNNING {
      action := ServiceGoesOn(s);
    } else {
      action := NextStep(s);
      assert !action.BeginIdleWait?;
    }
  }

  /**
   Every publication is dispatched by every constructed actor it is addressed to: with no new work
   and some bound of events at a time, a history that stays RUNNING, or that stays STOPPING, is
   bounded by the work it began with; and as long as something is left to dispatch, or to stop, a
   step that is no spurious wakeup can follow.
   */
  lemma EveryEventIsDispatched(n: nat, m: nat, max: int, worlds: seq<World>, steps: seq<Step>)
    requires n > 0 && max > 0 && IsHistory(worlds, steps) && CanHappen(n, m, max, worlds[0])
    requires forall i :: 0 <= i < |steps| ==> NoNewWork(steps[i])
    requires Active(worlds[0]) && forall i :: 0 <= i < |worlds| ==> worlds[i].pool.phase == worlds[0].pool.phase
    ensures |steps| <= Load(worlds[0]) + Total(steps, NudgeCost)
    ensures worlds[0].pool.phase == RUNNING ==>
              AllDispatched(worlds[|steps|]) || exists s :: Possible(worlds[|steps|], s) && Own(s)
    ensures worlds[0].pool.phase == STOPPING ==>
              Hopeless(worlds[|steps|].pool) || exists s :: Possible(worlds[|steps|], s) && Own(s)
  {
    RuntimeSound(n, m, max, worlds[0]);
    MaxExact(n, m, max, worlds[0]);
    forall i {:trigger steps[i]} | 0 <= i < |steps| ensures Proceeds(worlds[i], steps[i], worlds[i + 1]) {
      assert Happens(worlds[i], steps[i], worlds[i + 1]);
    }
    ProceedsIsBounded(worlds, steps);
    HistorySound(worlds, steps, |steps|);
    var w := worlds[|steps|];
    if (w.pool.phase == RUNNING && !AllDispatched(w)) || (w.pool.phase == STOPPING && !Hopeless(w.pool)) {
      var s := DispatchGoesOn(w);
    }
  }

  // ----- one consumer -----

  /** A history of steps of consumer `t` within its port, and of nobody else. */
  ghost predicate OfConsumer(worlds: seq<World>, steps: seq<Step>, t: Tid) {
    IsHistory(worlds, steps) && forall i :: 0 <= i < |steps| ==> WithinPort(steps[i]) && steps[i].t == t
  }

  /** How many events the consumer has popped. */
  function Popped(st: Stage): nat {
    match st
    case Process(n) => n
    case RunCommand(n, _) => n
    case ObtainHandle(n, _) => n
    case Register(n, _, _) => n
    case Pop(n) => n
    case Dispatching(n, _, _) => n + 1
    case _ => 0
  }

  function Least(count: nat, max: int): nat { if max < 0 then 0 else if count < max then count else max }

  /** Since `events` were queued and `taken` had been dispatched, the oldest have been popped, `max` at most. */
  ghost predicate ServesAlone(w: World, t: Tid, a: ActorId, events: seq<Event>, taken: seq<nat>) {
    && At(w, t) && w.places[t].a == a
    && var st, p := w.places[t].st, w.ports[a];
    var k := if st.Leave? then Least(|events|, w.max) else Popped(st);
    && !st.Out? && k <= Least(|events|, w.max)
    && p.events == events[k..] && p.taken == taken + EventIds(events[..k])
    && (st.Pop? ==> k < w.max && k < |events|)
  }

  lemma OneMoreTaken(events: seq<Event>, taken: seq<nat>, k: nat)
    requires k < |events|
    ensures taken + EventIds(events[..k]) + [events[k].id] == taken + EventIds(events[..k + 1])
    ensures events[k..][0] == events[k] && events[k..][1..] == events[k + 1..]
  {
  }

  lemma ServesOn(w: World, s: Step, w': World, t: Tid, a: ActorId, events: seq<Event>, taken: seq<nat>)
    requires ServesAlone(w, t, a, events, taken) && Happens(w, s, w') && WithinPort(s) && s.t == t
    ensures ServesAlone(w', t, a, events, taken)
  {
    if s.TakeEvent? {
      TakesOn(w, w', t, a, events, taken);
    } else if s.Count? {
      CountDecides(w.ports[a], w.places[t].st.n, w.max);
    } else {
      CarriesOn(w, s, w', t, a, events, taken);
    }
  }

  lemma TakesOn(w: World, w': World, t: Tid, a: ActorId, events: seq<Event>, taken: seq<nat>)
    requires ServesAlone(w, t, a, events, taken) && Happens(w, TakeEvent(t), w')
    ensures ServesAlone(w', t, a, events, taken)
  {
    OneMoreTaken(events, taken, w.places[t].st.n);
  }

  lemma CarriesOn(w: World, s: Step, w': World, t: Tid, a: ActorId, events: seq<Event>, taken: seq<nat>)
    requires ServesAlone(w, t, a, events, taken) && Happens(w, s, w') && WithinPort(s) && s.t == t && !s.TakeEvent? && !s.Count?
    ensures ServesAlone(w', t, a, events, taken)
  {
  }

  lemma CountDecides(p: Port, n: nat, max: int)
    ensures CountEvents(p, n, max) == if p.events != [] && n < max then Pop(n) else Leave
  {
  }

  /**
   A consumer that begins on a port and takes every step, with no arrivals, dispatches the oldest
   events, as many as there are but no more than `max`, and only then leaves.
   */
  lemma ConsumerServesExactly(worlds: seq<World>, steps: seq<Step>, t: Tid)
    requires OfConsumer(worlds, steps, t) && At(worlds[0], t) && worlds[0].places[t].st == Process(0)
    ensures var w, a := worlds[|steps|], worlds[0].places[t].a;
            && At(w, t) && w.places[t].a == a
            && (w.places[t].st.Leave? ==>
                  var events := worlds[0].ports[a].events;
                  var k := Least(|events|, worlds[0].max);
                  w.ports[a].events == events[k..] && w.ports[a].taken == worlds[0].ports[a].taken + EventIds(events[..k]))
  {
    var a := worlds[0].places[t].a;
    ServesThrough(worlds, steps, t, a, worlds[0].ports[a].events, worlds[0].ports[a].taken, |steps|);
  }

  lemma {:induction false} ServesThrough(worlds: seq<World>, steps: seq<Step>, t: Tid, a: ActorId,
                                         events: seq<Event>, taken: seq<nat>, k: nat)
    requires OfConsumer(worlds, steps, t) && At(worlds[0], t) && worlds[0].places[t].st == Process(0) && worlds[0].places[t].a == a
    requires events == worlds[0].ports[a].events && taken == worlds[0].ports[a].taken && k <= |steps|
    ensures ServesAlone(worlds[k], t, a, events, taken) && worlds[k].max == worlds[0].max
  {
    if k == 0 {
      assert events[0..] == events && taken + EventIds(events[..0]) == taken;
    } else {
      ServesThrough(worlds, steps, t, a, events, taken, k - 1);
      assert Happens(worlds[k - 1], steps[k - 1], worlds[k]);
      ServesOn(worlds[k - 1], steps[k - 1], worlds[k], t, a, events, taken);
      MaxStays(worlds[k - 1], steps[k - 1]);
    }
  }

  /** The network is free, and `t` is within its port. */
  ghost predicate Undisturbed(w: World, t: Tid) { Sound(w) && w.net.busy == None && At(w, t) }

  lemma NextIsWithin(w: World, t: Tid)
    requires At(w, t) && !w.places[t].st.Leave? && !w.places[t].st.Out?
    ensures WithinPort(NextOf(w, t)) && NextOf(w, t).t == t
  {
  }

  lemma StaysWithin(w: World, s: Step, w': World)
    requires Happens(w, s, w') && WithinPort(s) && w.net.busy == None
    ensures At(w', s.t) && w'.net.busy == None
  {
  }

  lemma ConsumerHasStep(w: World, t: Tid) returns (s: Step, w': World)
    requires Undisturbed(w, t) && !w.places[t].st.Leave?
    ensures Happens(w, s, w') && WithinPort(s) && s.t == t && Undisturbed(w', t) && Load(w') < Load(w)
  {
    s := NextOf(w, t);
    NotOut(w, t);
    NextIsWithin(w, t);
    ConsumerAdvances(w, t);
    w' := Do(w, s);
    SoundKept(w, s);
    StaysWithin(w, s, w');
    WithinPortLessens(w, s);
  }

  lemma NotOut(w: World, t: Tid)
    requires InStep(w) && At(w, t)
    ensures !w.places[t].st.Out?
  {
  }

  lemma BeginsEarlier(w: World, s: Step, later: seq<World>, rest: seq<Step>, t: Tid) returns (worlds: seq<World>, steps: seq<Step>)
    requires OfConsumer(later, rest, t) && Happens(w, s, later[0]) && WithinPort(s) && s.t == t
    ensures OfConsumer(worlds, steps, t) && worlds[0] == w && worlds[|steps|] == later[|rest|]
  {
    ChainBeginsEarlier(Happens, w, s, later, rest);
    worlds, steps := [w] + later, [s] + rest;
  }

  lemma {:induction false} ConsumerComesToLeave(w: World, t: Tid) returns (worlds: seq<World>, steps: seq<Step>)
    requires Undisturbed(w, t)
    ensures OfConsumer(worlds, steps, t) && worlds[0] == w
    ensures At(worlds[|steps|], t) && worlds[|steps|].places[t].st.Leave?
    decreases Load(w)
  {
    if w.places[t].st.Leave? {
      worlds, steps := [w], [];
    } else {
      var s, w' := ConsumerHasStep(w, t);
      var later, rest := ConsumerComesToLeave(w', t);
      worlds, steps := BeginsEarlier(w, s, later, rest, t);
    }
  }

  /** And it does come to leave, if the network is free: the history below is its own steps and no others. */
  lemma ConsumerServesAll(n: nat, m: nat, max: int, w: World, t: Tid) returns (worlds: seq<World>, steps: seq<Step>)
    requires n > 0 && CanHappen(n, m, max, w) && w.net.busy == None && At(w, t) && w.places[t].st == Process(0)
    ensures OfConsumer(worlds, steps, t) && worlds[0] == w
    ensures var w', a := worlds[|steps|], w.places[t].a;
            var k := Least(|w.ports[a].events|, max);
            && At(w', t) && w'.places[t].a == a && w'.places[t].st == Leave
            && w'.ports[a].events == w.ports[a].events[k..]
            && w'.ports[a].taken == w.ports[a].taken + EventIds(w.ports[a].events[..k])
  {
    RuntimeSound(n, m, max, w);
    MaxExact(n, m, max, w);
    worlds, steps := ConsumerComesToLeave(w, t);
    ConsumerServesExactly(worlds, steps, t);
  }
}
