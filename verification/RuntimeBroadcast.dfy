/** Every step of the runtime keeps the broadcast order: each port has received what was addressed to it. */
module RuntimeBroadcast {
  import opened Options
  import opened DispatcherPool
  import opened PortModel
  import opened Runtime
  import opened RuntimeTokens
  import opened RuntimePorts

  lemma {:induction false} AddressedPrefix(log: seq<Publication>, more: seq<Publication>, k: nat, a: ActorId)
    requires k <= |log|
    ensures Addressed(log + more, k, a) == Addressed(log, k, a)
  {
    if k > 0 {
      AddressedPrefix(log, more, k - 1, a);
      assert (log + more)[k - 1] == log[k - 1];
    }
  }

  lemma {:induction false} AddressedIncreasing(log: seq<Publication>, k: nat, a: ActorId)
    requires k <= |log|
    ensures Increasing(Addressed(log, k, a))
    ensures forall i :: 0 <= i < |Addressed(log, k, a)| ==> Addressed(log, k, a)[i] < k
    ensures forall id: nat :: id in Addressed(log, k, a) <==> id < k && a in log[id].targets
  {
    if k > 0 {
      AddressedIncreasing(log, k - 1, a);
    }
  }

  lemma ReceivedIncreasing(w: World)
    requires BroadcastSound(w)
    ensures forall b :: 0 <= b < |w.ports| ==> Increasing(Received(w.ports[b]))
  {
    forall b | 0 <= b < |w.ports| ensures Increasing(Received(w.ports[b])) {
      AddressedIncreasing(w.log, if Owed(w, b) then |w.log| - 1 else |w.log|, b);
    }
  }

  /** Nothing received, published, registered or owed changes, and the publisher stays where it is. */
  ghost predicate SameTraffic(w: World, w': World) {
    && w'.log == w.log && w'.net.busy == w.net.busy
    && |w'.ports| == |w.ports| && |w'.places| == |w.places|
    && (w.net.busy.Some? ==>
          && w'.net.listeners == w.net.listeners
          && (forall b :: 0 <= b < |w.ports| ==> w'.ports[b].registered == w.ports[b].registered)
          && (var who := w.net.busy.value.who;
              who.Some? && who.value < |w.places| && w.places[who.value].Inside? && w.places[who.value].st.Dispatching? ==>
                w'.places[who.value].Inside? && w'.places[who.value].st.Dispatching?))
    && (forall b :: 0 <= b < |w.ports| ==> Received(w'.ports[b]) == Received(w.ports[b]))
  }

  lemma TrafficFrame(w: World, w': World)
    requires BroadcastSound(w) && SameTraffic(w, w')
    ensures BroadcastSound(w')
  {
    assert forall b :: 0 <= b < |w.ports| ==> Owed(w', b) == Owed(w, b);
  }

  lemma TakeEventKeepsTraffic(w: World, t: Tid)
    requires Tokens(w) && Possible(w, TakeEvent(t))
    ensures SameTraffic(w, Do(w, TakeEvent(t)))
  {
    var p := w.ports[w.places[t].a];
    assert Received(PopEvent(p, w.places[t].st.n).0) == Received(p);
  }

  lemma ConsumerKeepsTraffic(w: World, s: Step)
    requires Tokens(w) && Possible(w, s) && WithinPort(s)
    ensures SameTraffic(w, Do(w, s))
  {
    if s.TakeEvent? {
      TakeEventKeepsTraffic(w, s.t);
    } else if s.AskHandle? || s.RegisterIt? {
      NetworkStepsKeepTraffic(w, s);
    }
  }

  lemma NetworkStepsKeepTraffic(w: World, s: Step)
    requires Tokens(w) && Possible(w, s) && (s.AskHandle? || s.RegisterIt?)
    ensures SameTraffic(w, Do(w, s))
  {
  }

  lemma GiveKeepsTraffic(w: World, who: Option<Tid>, a: ActorId, command: Command)
    requires Tokens(w) && Possible(w, Give(who, a, command))
    ensures SameTraffic(w, Do(w, Give(who, a, command)))
  {
    UpdateOnly(w, a, Issue(w.ports[a], command), who);
  }

  lemma OthersKeepTraffic(w: World, s: Step)
    requires Tokens(w) && Possible(w, s)
    requires s.PoolMove? || s.TakeMail? || s.FinishActor? || s.QuitPort? || s.FinishCtor?
    ensures SameTraffic(w, Do(w, s))
  {
    if s.QuitPort? || s.FinishCtor? {
      SchedulersKeepTraffic(w, s);
    } else if s.PoolMove? {
      PoolKeepsTraffic(w, s.action);
    }
  }

  lemma SchedulersKeepTraffic(w: World, s: Step)
    requires Tokens(w) && Possible(w, s) && (s.QuitPort? || s.FinishCtor?)
    ensures SameTraffic(w, Do(w, s))
  {
  }

  lemma PoolKeepsTraffic(w: World, action: Action)
    requires Tokens(w) && Possible(w, PoolMove(action))
    ensures SameTraffic(w, MovePool(w, action))
  {
  }

  lemma PublishKeeps(w: World, who: Option<Tid>, ty: EventType)
    requires OneRegistration(w) && BroadcastSound(w) && Possible(w, Publish(who, ty))
    ensures BroadcastSound(BeginPublish(w, who, ty))
  {
    var w' := BeginPublish(w, who, ty);
    var listeners := ListenersOf(w.net.listeners, ty);
    forall a | 0 <= a < |w'.ports|
      ensures Received(w'.ports[a]) == Addressed(w'.log, if Owed(w', a) then |w'.log| - 1 else |w'.log|, a)
    {
      AddressedPrefix(w.log, [Publication(ty, listeners.Values)], |w.log|, a);
      if ty in w.ports[a].registered {
        assert w.ports[a].registered[ty] in listeners;
        assert Owed(w', a);
      } else {
        assert a !in listeners.Values;
        assert !Owed(w', a);
      }
    }
  }

  /** Port `a`, registered under `handle`, receives the publication under way. */
  ghost predicate HandsOver(w: World, w': World, a: ActorId, handle: Handle) {
    && w.net.busy.Some? && w'.log == w.log && |w.log| > 0
    && handle in ListenersOf(w.net.listeners, w.net.busy.value.ty)
    && ListenersOf(w.net.listeners, w.net.busy.value.ty)[handle] == a
    && handle in w.net.busy.value.pending
    && w'.net == w.net.(busy := Some(w.net.busy.value.(pending := w.net.busy.value.pending - {handle})))
    && w'.places == w.places
    && a < |w.ports| == |w'.ports| && w'.ports == w.ports[a := w'.ports[a]]
    && w'.ports[a].registered == w.ports[a].registered
    && Received(w'.ports[a]) == Received(w.ports[a]) + [|w.log| - 1]
  }

  lemma HandOverHandsOver(w: World, handle: Handle)
    requires Tokens(w) && Possible(w, Deliver(handle))
    ensures var a := ListenersOf(w.net.listeners, w.net.busy.value.ty)[handle];
            HandsOver(w, HandOver(w, handle), a, handle)
  {
    var b := w.net.busy.value;
    var a := ListenersOf(w.net.listeners, b.ty)[handle];
    UpdateOnly(w, a, Enqueue(w.ports[a], |w.log| - 1, b.ty), b.who);
    assert Received(Enqueue(w.ports[a], |w.log| - 1, b.ty)) == Received(w.ports[a]) + [|w.log| - 1];
  }

  /** The debt to `a` is paid; the debts to the others stand. */
  lemma HandsOverOwed(w: World, w': World, a: ActorId, handle: Handle)
    requires OneRegistration(w) && HandsOver(w, w', a, handle)
    ensures Owed(w, a) && !Owed(w', a)
    ensures forall c :: 0 <= c < |w.ports| && c != a ==> Owed(w', c) == Owed(w, c)
  {
  }

  lemma HandsOverKeeps(w: World, w': World, a: ActorId, handle: Handle)
    requires OneRegistration(w) && BroadcastSound(w) && HandsOver(w, w', a, handle)
    ensures BroadcastSound(w')
  {
    HandsOverOwed(w, w', a, handle);
    var k := |w.log| - 1;
    assert a in w.log[k].targets;
    assert Addressed(w.log, k + 1, a) == Addressed(w.log, k, a) + [k];
    forall c | 0 <= c < |w'.ports|
      ensures Received(w'.ports[c]) == Addressed(w'.log, if Owed(w', c) then |w'.log| - 1 else |w'.log|, c)
    {
      if c != a { assert w'.ports[c] == w.ports[c]; }
    }
  }

  lemma EndPublishKeeps(w: World)
    requires BroadcastSound(w) && Possible(w, EndPublish)
    ensures BroadcastSound(Do(w, EndPublish))
  {
  }

  lemma OtherStepsKeepTraffic(w: World, s: Step)
    requires Tokens(w) && Possible(w, s) && !s.Publish? && !s.Deliver? && !s.EndPublish?
    ensures SameTraffic(w, Do(w, s))
  {
    if WithinPort(s) {
      ConsumerKeepsTraffic(w, s);
    } else if s.Give? {
      GiveKeepsTraffic(w, s.who, s.a, s.command);
    } else {
      OthersKeepTraffic(w, s);
    }
  }

  lemma BroadcastKept(w: World, s: Step)
    requires Tokens(w) && OneRegistration(w) && BroadcastSound(w) && Possible(w, s)
    ensures BroadcastSound(Do(w, s))
  {
    if s.Publish? {
      PublishKeeps(w, s.who, s.ty);
    } else if s.Deliver? {
      HandOverHandsOver(w, s.handle);
      HandsOverKeeps(w, Do(w, s), ListenersOf(w.net.listeners, w.net.busy.value.ty)[s.handle], s.handle);
    } else if s.EndPublish? {
      EndPublishKeeps(w);
    } else {
      OtherStepsKeepTraffic(w, s);
      TrafficFrame(w, Do(w, s));
    }
  }
}
