/** Every step of the runtime keeps the tokens: one per scheduled actor, one per scheduled port. */
module RuntimeTokens {
  import opened Options
  import opened DispatcherPool
  import opened DispatcherPoolSafety
  import opened PortModel
  import opened Runtime

  // ----- the runtime moves its pool only by steps of the pool -----

  lemma PoolFollows(w: World, s: Step)
    requires Possible(w, s)
    ensures Do(w, s).pool == w.pool || exists action :: Enabled(w.pool, action) && Do(w, s).pool == Apply(w.pool, action)
  {
    match s {
      case PoolMove(action) => assert Enabled(w.pool, action);
      case FinishActor(t) => assert Enabled(w.pool, Return(t));
      case QuitPort(t) => assert Enabled(w.pool, PushAction(Some(t), w.places[t].a)) || Do(w, s).pool == w.pool;
      case Give(who, a, _) => assert Enabled(w.pool, PushAction(who, a)) || Do(w, s).pool == w.pool;
      case Deliver(handle) =>
        var b := w.net.busy.value;
        var a := ListenersOf(w.net.listeners, b.ty)[handle];
        assert Enabled(w.pool, PushAction(b.who, a)) || Do(w, s).pool == w.pool;
      case FinishCtor(who, a) => assert Enabled(w.pool, PushAction(who, a)) || Do(w, s).pool == w.pool;
      case _ =>
    }
  }

  lemma PoolKept(w: World, s: Step)
    requires Inv(w.pool) && Possible(w, s)
    ensures Inv(Do(w, s).pool)
  {
    PoolFollows(w, s);
    if Do(w, s).pool != w.pool {
      var action :| Enabled(w.pool, action) && Do(w, s).pool == Apply(w.pool, action);
      InvKept(w.pool, action);
    }
  }

  // ----- frames -----

  predicate Inside1(w: World, t: Tid, a: ActorId) {
    t < |w.places| && w.places[t].Inside? && w.places[t].a == a && !w.places[t].st.Out?
    && a < |w.ports| && a < |w.actors|
  }

  /** The consumer of port `a` moves within the port. */
  lemma TokensFrame(w: World, w': World, t: Tid, a: ActorId)
    requires Tokens(w) && Inside1(w, t, a) && Inside1(w', t, a)
    requires w'.pool == w.pool && w'.actors == w.actors && |w'.ports| == |w.ports|
    requires |w'.places| == |w.places| && w'.places == w.places[t := w'.places[t]]
    requires forall b :: 0 <= b < |w.ports| ==> w'.ports[b].scheduled == w.ports[b].scheduled
    ensures Tokens(w')
  {
    assert forall b :: 0 <= b < |w.ports| ==> StageOf(w', b).Out? == StageOf(w, b).Out?;
  }

  // A stage change of one runner is seen by its actor only.
  lemma StageFrame(w: World, w': World, t: Tid, a: ActorId)
    requires Tokens(w) && t < |w.places| && !w.places[t].Away? && w.places[t].a == a
    requires |w'.places| == |w.places| && forall u :: 0 <= u < |w.places| && u != t ==> w'.places[u] == w.places[u]
    requires |w'.actors| == |w.actors| && forall b :: 0 <= b < |w.actors| && b != a ==> w'.actors[b].runner == w.actors[b].runner
    ensures forall b :: 0 <= b < |w.actors| && b != a ==> StageOf(w', b) == StageOf(w, b)
  {
  }

  lemma StageAt(w: World, t: Tid)
    requires OneRunner(w) && InStep(w) && t < |w.places| && !w.places[t].Away?
    ensures w.places[t].a < |w.actors| && w.actors[w.places[t].a].runner == Some(t)
    ensures StageOf(w, w.places[t].a) == if w.places[t].Inside? then w.places[t].st else Out
  {
  }

  // ----- the pool hands out an actor, or gets it back -----

  lemma MovePoolTokens(w: World, action: Action)
    requires Tokens(w) && Possible(w, PoolMove(action))
    ensures Tokens(MovePool(w, action))
  {
    var pool := Apply(w.pool, action);
    var w' := MovePool(w, action);
    if (action.Loop? || action.Wake?) && pool.threads[action.t].Executing? {
      TakenFromPool(w, w', action.t);
    } else {
      PoolAloneTokens(w, w');
    }
  }

  lemma PoolAloneTokens(w: World, w': World)
    requires Tokens(w) && w' == w.(pool := w'.pool) && w'.pool.queue == w.pool.queue
    requires |w'.pool.threads| == |w.pool.threads|
    requires forall t :: 0 <= t < |w.pool.threads| ==>
               (w.pool.threads[t].Executing? || w'.pool.threads[t].Executing? ==> w'.pool.threads[t] == w.pool.threads[t])
    ensures Tokens(w')
  {
    assert forall b :: 0 <= b < |w.ports| ==> StageOf(w', b) == StageOf(w, b);
  }

  lemma TakenFromPool(w: World, w': World, t: Tid)
    requires Tokens(w) && w.pool.queue != [] && t < |w.places| && !w.pool.threads[t].Executing?
    requires |w'.pool.threads| == |w.pool.threads| && w'.pool.queue == w.pool.queue[1..]
    requires w'.pool.threads[t].Executing? && w'.pool.threads[t].job == w.pool.queue[0]
    requires forall u :: 0 <= u < |w.places| && u != t ==> w'.pool.threads[u] == w.pool.threads[u]
    requires var a := w.pool.queue[0];
             w' == w.(pool := w'.pool, places := w.places[t := Enter(a)],
                      actors := w.actors[a := w.actors[a].(runner := Some(t))])
    ensures Tokens(w')
  {
    var a := w.pool.queue[0];
    assert forall b :: 0 <= b < |w.ports| ==> StageOf(w', b) == StageOf(w, b);
    assert forall b :: 0 <= b < |w.actors| && b != a ==> (b in w'.pool.queue <==> b in w.pool.queue);
  }

  lemma FinishTokens(w: World, t: Tid)
    requires Tokens(w) && Possible(w, FinishActor(t))
    ensures Tokens(Finish(w, t))
  {
    var w' := Finish(w, t);
    assert forall b :: 0 <= b < |w.ports| ==> StageOf(w', b) == StageOf(w, b);
  }

  lemma MailTokens(w: World, t: Tid)
    requires Tokens(w) && Possible(w, TakeMail(t))
    ensures Tokens(Mail(w, t))
  {
    StageFrame(w, Mail(w, t), t, w.places[t].a);
  }

  // ----- scheduling -----

  lemma PushedTokens(w: World, w': World, who: Option<Tid>, a: ActorId)
    requires InStep(w) && OneRunner(w) && OneToken(w) && a < |w.actors| && a !in w.pool.queue && w.actors[a].runner == None
    requires Enabled(w.pool, PushAction(who, a)) && w'.pool == Apply(w.pool, PushAction(who, a))
    requires w'.places == w.places && |w'.actors| == |w.actors| == |w'.ports|
    requires forall b :: 0 <= b < |w.actors| ==> w'.actors[b].runner == w.actors[b].runner
    ensures InStep(w') && OneRunner(w') && OneToken(w')
    ensures forall b :: b in w'.pool.queue <==> b in w.pool.queue || b == a
  {
    assert w'.pool.queue == w.pool.queue + [a];
  }

  // The port's token brings the owner's with it.
  lemma AwakenedTokens(w: World, a: ActorId, p: Port, who: Option<Tid>)
    requires Tokens(w) && a < |w.ports| && CanUpdate(w, a, p, who)
    requires p.scheduled && !w.ports[a].scheduled && !w.actors[a].scheduled
    ensures Tokens(UpdatePort(w, a, p, who))
  {
    var w' := UpdatePort(w, a, p, who);
    assert forall b :: 0 <= b < |w.ports| ==> StageOf(w', b) == StageOf(w, b);
    PushedTokens(w, w', who, a);
  }

  lemma UpdatePortTokens(w: World, a: ActorId, p: Port, who: Option<Tid>)
    requires Tokens(w) && a < |w.ports| && CanUpdate(w, a, p, who) && (w.ports[a].scheduled ==> p.scheduled)
    ensures Tokens(UpdatePort(w, a, p, who))
  {
    var w' := UpdatePort(w, a, p, who);
    if p.scheduled && !w.ports[a].scheduled && !w.actors[a].scheduled {
      AwakenedTokens(w, a, p, who);
    } else {
      assert forall b :: 0 <= b < |w.ports| ==> StageOf(w', b) == StageOf(w, b);
    }
  }

  lemma QuitTokens(w: World, t: Tid)
    requires Tokens(w) && Possible(w, QuitPort(t))
    ensures Tokens(Quit(w, t))
  {
    StageFrame(w, Quit(w, t), t, w.places[t].a);
  }

  lemma CtorPushes(w: World, who: Option<Tid>, a: ActorId)
    requires Tokens(w) && Possible(w, FinishCtor(who, a)) && w.actors[a].mailbox > 0
    ensures Tokens(CtorFinished(w, who, a))
  {
    var w' := CtorFinished(w, who, a);
    assert forall b :: 0 <= b < |w.ports| ==> StageOf(w', b) == StageOf(w, b);
    PushedTokens(w, w', who, a);
  }

  lemma CtorTokens(w: World, who: Option<Tid>, a: ActorId)
    requires Tokens(w) && Possible(w, FinishCtor(who, a))
    ensures Tokens(CtorFinished(w, who, a))
  {
    if w.actors[a].mailbox > 0 {
      CtorPushes(w, who, a);
    } else {
      var w' := CtorFinished(w, who, a);
      assert forall b :: 0 <= b < |w.ports| ==> StageOf(w', b) == StageOf(w, b);
    }
  }

  lemma NetOnlyTokens(w: World, w': World)
    requires Tokens(w) && w' == w.(net := w'.net, log := w'.log)
    ensures Tokens(w')
  {
    assert forall b :: 0 <= b < |w.ports| ==> StageOf(w', b) == StageOf(w, b);
  }

  lemma HandOverTokens(w: World, handle: Handle)
    requires Tokens(w) && Possible(w, Deliver(handle))
    ensures Tokens(HandOver(w, handle))
  {
    var b := w.net.busy.value;
    var a := ListenersOf(w.net.listeners, b.ty)[handle];
    var p := Enqueue(w.ports[a], |w.log| - 1, b.ty);
    UpdatePortTokens(w, a, p, b.who);
    NetOnlyTokens(UpdatePort(w, a, p, b.who), HandOver(w, handle));
  }

  // ----- all steps -----

  predicate WithinPort(s: Step) {
    s.TakeCommand? || s.Count? || s.RunIt? || s.AskHandle? || s.RegisterIt? || s.TakeEvent? || s.CallListener? || s.EndDispatch?
  }

  lemma WithinPortTokens(w: World, s: Step)
    requires Tokens(w) && Possible(w, s) && WithinPort(s)
    ensures Tokens(Do(w, s))
  {
    TokensFrame(w, Do(w, s), s.t, w.places[s.t].a);
  }

  lemma TokensKept(w: World, s: Step)
    requires Tokens(w) && Possible(w, s)
    ensures Tokens(Do(w, s))
  {
    if WithinPort(s) {
      WithinPortTokens(w, s);
    } else if s.PoolMove? || s.TakeMail? || s.FinishActor? || s.QuitPort? {
      DispatcherTokens(w, s);
    } else {
      ProducerTokens(w, s);
    }
  }

  lemma DispatcherTokens(w: World, s: Step)
    requires Tokens(w) && Possible(w, s) && (s.PoolMove? || s.TakeMail? || s.FinishActor? || s.QuitPort?)
    ensures Tokens(Do(w, s))
  {
    if s.PoolMove? {
      MovePoolTokens(w, s.action);
    } else if s.TakeMail? {
      MailTokens(w, s.t);
    } else if s.FinishActor? {
      FinishTokens(w, s.t);
    } else {
      QuitTokens(w, s.t);
    }
  }

  lemma ProducerTokens(w: World, s: Step)
    requires Tokens(w) && Possible(w, s)
    requires s.Give? || s.Publish? || s.Deliver? || s.EndPublish? || s.FinishCtor?
    ensures Tokens(Do(w, s))
  {
    if s.Give? {
      UpdatePortTokens(w, s.a, Issue(w.ports[s.a], s.command), s.who);
    } else if s.Publish? || s.EndPublish? {
      NetOnlyTokens(w, Do(w, s));
    } else if s.Deliver? {
      HandOverTokens(w, s.handle);
    } else {
      CtorTokens(w, s.who, s.a);
    }
  }
}
