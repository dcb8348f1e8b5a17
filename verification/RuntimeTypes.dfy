/** Every event keeps the type it was published with, in the queue and while it is dispatched. */
module RuntimeTypes {
  import opened Options
  import opened PortModel
  import opened Runtime
  import opened RuntimeTokens
  import opened RuntimePorts

  /** The event carries the number and the type of an entry in the publish order. */
  predicate Typed(log: seq<Publication>, event: Event) { event.id < |log| && event.ty == log[event.id].ty }

  ghost predicate TypedPort(w: World, a: ActorId)
    requires a < |w.ports|
  {
    && (forall i :: 0 <= i < |w.ports[a].events| ==> Typed(w.log, w.ports[a].events[i]))
    && (StageOf(w, a).Dispatching? ==> Typed(w.log, StageOf(w, a).event))
  }

  ghost predicate AllTyped(w: World) { forall a :: 0 <= a < |w.ports| ==> TypedPort(w, a) }

  lemma TypedStays(w: World, w': World, a: ActorId)
    requires a < |w.ports| && a < |w'.ports| && TypedPort(w, a) && w.log <= w'.log
    requires w'.ports[a].events == w.ports[a].events && StageOf(w', a) == StageOf(w, a)
    ensures TypedPort(w', a)
  {
    assert forall event :: Typed(w.log, event) ==> Typed(w'.log, event);
  }

  // The consumer of `a` takes a step.
  lemma ConsumerTyped(w: World, s: Step)
    requires Tokens(w) && Possible(w, s) && WithinPort(s) && TypedPort(w, w.places[s.t].a)
    ensures TypedPort(Do(w, s), w.places[s.t].a)
  {
    WithinPortOnly(w, s);
    var p, st := w.ports[w.places[s.t].a], w.places[s.t].st;
    var w' := Do(w, s);
    assert w'.log == w.log;
    var p' := w'.ports[w.places[s.t].a];
    assert s.TakeEvent? ==> p'.events == p.events[1..] && w'.places[s.t].st.event == p.events[0];
    assert !s.TakeEvent? ==> p'.events == p.events;
  }

  lemma HandOverTyped(w: World, handle: Handle)
    requires Tokens(w) && BroadcastSound(w) && AllTyped(w) && Possible(w, Deliver(handle))
    ensures AllTyped(HandOver(w, handle))
  {
    var b := w.net.busy.value;
    var a := ListenersOf(w.net.listeners, b.ty)[handle];
    var p := Enqueue(w.ports[a], |w.log| - 1, b.ty);
    var w1, w' := UpdatePort(w, a, p, b.who), HandOver(w, handle);
    UpdateOnly(w, a, p, b.who);
    assert p.events == w.ports[a].events + [Event(|w.log| - 1, b.ty, |w.ports[a].issued|)];
    forall c | 0 <= c < |w'.ports| ensures TypedPort(w', c) {
      assert TypedPort(w, c) && StageOf(w', c) == StageOf(w1, c);
    }
  }

  lemma TypesKept(w: World, s: Step)
    requires Tokens(w) && BroadcastSound(w) && AllTyped(w) && PortsSound(w) && Possible(w, s)
    ensures AllTyped(Do(w, s))
  {
    if s.Deliver? {
      HandOverTyped(w, s.handle);
    } else {
      forall a | 0 <= a < |Do(w, s).ports| ensures TypedPort(Do(w, s), a) {
        if WithinPort(s) { ConsumerStepTyped(w, s, a); } else { OtherStepTyped(w, s, a); }
      }
    }
  }

  lemma ConsumerStepTyped(w: World, s: Step, a: ActorId)
    requires Tokens(w) && AllTyped(w) && Possible(w, s) && WithinPort(s) && a < |w.ports|
    ensures a < |Do(w, s).ports| && TypedPort(Do(w, s), a)
  {
    assert TypedPort(w, a) && TypedPort(w, w.places[s.t].a);
    WithinPortOnly(w, s);
    if a == w.places[s.t].a { ConsumerTyped(w, s); } else { TypedStays(w, Do(w, s), a); }
  }

  lemma StillTyped(w: World, s: Step, a: ActorId)
    requires Tokens(w) && AllTyped(w) && Possible(w, s) && Still(s) && a < |w.ports|
    ensures a < |Do(w, s).ports| && TypedPort(Do(w, s), a)
  {
    assert TypedPort(w, a);
    StillUnmoved(w, s);
    TypedStays(w, Do(w, s), a);
  }

  lemma GiveTyped(w: World, s: Step, a: ActorId)
    requires Tokens(w) && AllTyped(w) && Possible(w, s) && s.Give? && a < |w.ports|
    ensures a < |Do(w, s).ports| && TypedPort(Do(w, s), a)
  {
    assert TypedPort(w, a);
    UpdateOnly(w, s.a, Issue(w.ports[s.a], s.command), s.who);
    TypedStays(w, Do(w, s), a);
  }

  lemma OtherStepTyped(w: World, s: Step, a: ActorId)
    requires Tokens(w) && AllTyped(w) && PortsSound(w) && Possible(w, s) && !WithinPort(s) && !s.Deliver?
    requires a < |Do(w, s).ports|
    ensures TypedPort(Do(w, s), a)
  {
    assert a < |w.ports| ==> TypedPort(w, a);
    if Still(s) {
      StillTyped(w, s, a);
    } else if s.Give? {
      GiveTyped(w, s, a);
    } else if s.TakeMail? {
      MailStage(w, s.t);
    } else {
      QuitSound(w, s.t);
    }
  }
}
