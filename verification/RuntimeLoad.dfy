/**
 How much work is left in the runtime, and that every step that brings no new work lessens it:
 the queues of the ports, where each consumer is, the publication under way and the pool.
 */
module RuntimeLoad {
  import opened Options
  import opened Totals
  import opened DispatcherPool
  import opened DispatcherPoolSafety
  import opened DispatcherPoolProgress
  import opened DispatcherPoolRunning
  import opened PortModel
  import opened Runtime
  import opened RuntimeTokens
  import opened RuntimePorts

  // ----- a port -----

  /** How far the consumer is from the next item of a queue, or from leaving the port alone. */
  function Rank(p: Port, st: Stage, max: int): nat {
    match st
    case Out => if !p.scheduled then 0 else if p.events != [] || p.commands != [] then 7 else 10
    case Process(n) => if p.commands != [] || (p.events != [] && n < max) then 6 else 9
    case RunCommand(_, _) => 12
    case ObtainHandle(_, _) => 11
    case Register(_, _, _) => 10
    case Pop(_) => 5
    case Dispatching(_, _, todo) => 10 + |todo|
    case Leave => 8
  }

  /** `k` for each of `m` items. */
  function Each(k: nat, m: nat): nat { if m == 0 then 0 else k + Each(k, m - 1) }

  /** An item of a queue weighs as much as all calls it can lead to. */
  function PortLoad(p: Port, st: Stage, max: int): nat {
    Each(7 + |p.issued|, |p.events| + |p.commands|) + Rank(p, st, max)
  }

  lemma NextCommandLessens(p: Port, n: nat, max: int)
    requires p.commands != []
    ensures PortLoad(NextCommand(p, n).0, NextCommand(p, n).1, max) < PortLoad(p, Process(n), max)
  {
  }

  lemma RunPoppedLessens(p: Port, n: nat, command: Command, max: int)
    ensures PortLoad(RunPopped(p, n, command).0, RunPopped(p, n, command).1, max) < PortLoad(p, RunCommand(n, command), max)
  {
  }

  lemma RegisteredLessens(p: Port, n: nat, command: Command, netHandle: Handle, max: int)
    requires command.Listen?
    ensures PortLoad(p, Register(n, command, netHandle), max) < PortLoad(p, ObtainHandle(n, command), max)
    ensures PortLoad(Registered(p, n, command, netHandle).0, Process(n), max) < PortLoad(p, Register(n, command, netHandle), max)
  {
  }

  lemma CountLessens(p: Port, n: nat, max: int)
    requires p.commands == []
    ensures PortLoad(p, CountEvents(p, n, max), max) < PortLoad(p, Process(n), max)
  {
  }

  // A command adds at most its own handle.
  lemma ApplyAddsOne(table: Table, command: Command, ty: EventType)
    ensures |Handles(ApplyCommand(table, command), ty)| <= |Handles(table, ty)| + 1
  {
    var before, after := Handles(table, ty), Handles(ApplyCommand(table, command), ty);
    assert after <= before + {command.handle};
    Subset(after, before + {command.handle});
  }

  lemma {:induction false} Subset(a: set<Handle>, b: set<Handle>)
    requires a <= b
    ensures |a| <= |b|
  {
    if a != {} {
      var x :| x in a;
      Subset(a - {x}, b - {x});
    }
  }

  lemma {:induction false} FoldHandles(commands: seq<Command>, ty: EventType)
    ensures |Handles(Fold(commands), ty)| <= |commands|
  {
    if commands != [] {
      var n := |commands| - 1;
      FoldHandles(commands[..n], ty);
      ApplyAddsOne(Fold(commands[..n]), commands[n], ty);
    }
  }

  lemma PopEventLessens(p: Port, n: nat, max: int)
    requires PortInv(p, Pop(n))
    ensures PortLoad(PopEvent(p, n).0, PopEvent(p, n).1, max) < PortLoad(p, Pop(n), max)
  {
    FoldHandles(p.issued[..p.applied], p.events[0].ty);
  }

  lemma CallLessens(p: Port, n: nat, event: Event, todo: set<Handle>, handle: Handle, max: int)
    requires handle in todo
    ensures PortLoad(Call(p, n, event, todo, handle).0, Call(p, n, event, todo, handle).1, max)
            < PortLoad(p, Dispatching(n, event, todo), max)
  {
  }

  lemma EndEventLessens(p: Port, n: nat, event: Event, max: int)
    ensures PortLoad(EndEvent(p, n).0, EndEvent(p, n).1, max) < PortLoad(p, Dispatching(n, event, {}), max)
  {
  }

  lemma LeaveLessens(p: Port, max: int)
    ensures PortLoad(LeavePort(p), Out, max) < PortLoad(p, Leave, max)
  {
  }

  lemma MailLessens(p: Port, max: int)
    requires p.scheduled && max > 0
    ensures PortLoad(p, Process(0), max) < PortLoad(p, Out, max)
  {
  }

  /** An event adds a constant and what its dispatch may cost. */
  lemma EnqueueAdds(p: Port, st: Stage, id: nat, ty: EventType, max: int)
    ensures PortLoad(Enqueue(p, id, ty), st, max) <= PortLoad(p, st, max) + 14 + |p.issued|
  {
  }

  // ----- the pool -----

  function PoolLoad(s: Pool): nat { if s.phase == STOPPING then Remaining(s) else Due(s) }

  lemma PoolStepLessens(s: Pool, a: Action)
    requires Inv(s) && (s.phase == RUNNING || s.phase == STOPPING) && Enabled(s, a) && !Nudge(a) && Apply(s, a).phase == s.phase
    ensures PoolLoad(Apply(s, a)) < PoolLoad(s) && |Apply(s, a).threads| == |s.threads|
  {
    if s.phase == RUNNING { RunningStep(s, a); } else { StoppingStep(s, a); }
  }

  lemma PoolNudgeAdds(s: Pool, a: Action)
    requires Inv(s) && (s.phase == RUNNING || s.phase == STOPPING) && Enabled(s, a) && Nudge(a) && Apply(s, a).phase == s.phase
    ensures PoolLoad(Apply(s, a)) <= PoolLoad(s) + (if a.ScheduleInside? || a.ScheduleOutside? then 3 + 2 * |s.threads| else 3)
    ensures |Apply(s, a).threads| == |s.threads|
  {
    if s.phase == RUNNING { NudgeAdds(s, a); } else { StoppingStep(s, a); }
  }

  // ----- the runtime -----

  function Loads(w: World): (r: seq<nat>)
    ensures |r| == |w.ports| && forall a :: 0 <= a < |r| ==> r[a] == PortLoad(w.ports[a], StageOf(w, a), w.max)
  {
    seq(|w.ports|, a requires 0 <= a < |w.ports| => PortLoad(w.ports[a], StageOf(w, a), w.max))
  }

  function Same(n: nat): nat { n }

  function IssuedCount(p: Port): nat { |p.issued| }

  /** More than an event can cost the port it goes to, and the pool that has to run its owner. */
  function HandOverCost(w: World): nat { 18 + Total(w.ports, IssuedCount) + 2 * |w.pool.threads| }

  function NetLoad(w: World): nat {
    if w.net.busy == None then 0 else 1 + Each(HandOverCost(w), |w.net.busy.value.pending|)
  }

  function Load(w: World): nat { Total(Loads(w), Same) + NetLoad(w) + PoolLoad(w.pool) }

  /** No work comes from outside: no command, publication, construction, spurious wakeup or call of the controller. */
  predicate Own(s: Step) { !s.Give? && !s.Publish? && !s.FinishCtor? && (s.PoolMove? ==> !Nudge(s.action)) }

  predicate Active(w: World) { w.pool.phase == RUNNING || w.pool.phase == STOPPING }

  // Nobody was given a command, and no thread came or went.
  ghost predicate SameCost(w: World, w': World) {
    && |w'.ports| == |w.ports| && |w'.pool.threads| == |w.pool.threads| && w'.max == w.max
    && forall a :: 0 <= a < |w.ports| ==> |w'.ports[a].issued| == |w.ports[a].issued|
  }

  lemma CostStays(w: World, w': World)
    requires SameCost(w, w')
    ensures HandOverCost(w') == HandOverCost(w)
    ensures w'.net.busy == w.net.busy ==> NetLoad(w') == NetLoad(w)
  {
    forall a | 0 <= a < |w.ports| ensures IssuedCount(w'.ports[a]) == IssuedCount(w.ports[a]) { }
    TotalSame(w'.ports, w.ports, IssuedCount);
  }

  /** One port changes. */
  lemma OnePortLoads(w: World, w': World, a: ActorId)
    requires OnlyPort(w, w', a) && a < |w.ports| && w'.max == w.max
    ensures Total(Loads(w'), Same) + PortLoad(w.ports[a], StageOf(w, a), w.max)
            == Total(Loads(w), Same) + PortLoad(w'.ports[a], StageOf(w', a), w.max)
  {
    assert Loads(w') == Loads(w)[a := Loads(w')[a]];
    TotalUpdate(Loads(w), Same, a, Loads(w')[a]);
  }

  lemma NoPortLoads(w: World, w': World)
    requires Unmoved(w, w') && w'.max == w.max
    ensures Total(Loads(w'), Same) == Total(Loads(w), Same)
  {
    assert Loads(w') == Loads(w);
  }

  // ----- every step of one's own -----

  lemma CommandStepLessens(w: World, s: Step)
    requires Tokens(w) && Possible(w, s) && (s.TakeCommand? || s.RunIt? || s.AskHandle? || s.RegisterIt?)
    ensures PortLoad(Do(w, s).ports[w.places[s.t].a], Do(w, s).places[s.t].st, w.max)
            < PortLoad(w.ports[w.places[s.t].a], w.places[s.t].st, w.max)
  {
    var p, st := w.ports[w.places[s.t].a], w.places[s.t].st;
    if s.TakeCommand? {
      NextCommandLessens(p, st.n, w.max);
    } else if s.RunIt? {
      RunPoppedLessens(p, st.n, st.command, w.max);
    } else if s.RegisterIt? {
      RegisteredLessens(p, st.n, st.command, st.netHandle, w.max);
    }
  }

  lemma EventStepLessens(w: World, s: Step)
    requires Tokens(w) && PortsSound(w) && Possible(w, s) && (s.Count? || s.TakeEvent? || s.CallListener? || s.EndDispatch?)
    ensures PortLoad(Do(w, s).ports[w.places[s.t].a], Do(w, s).places[s.t].st, w.max)
            < PortLoad(w.ports[w.places[s.t].a], w.places[s.t].st, w.max)
  {
    var p, st := w.ports[w.places[s.t].a], w.places[s.t].st;
    StageAt(w, s.t);
    assert PortInv(p, st);
    if s.Count? {
      CountLessens(p, st.n, w.max);
    } else if s.TakeEvent? {
      PopEventLessens(p, st.n, w.max);
    } else if s.CallListener? {
      CallLessens(p, st.n, st.event, st.todo, s.handle, w.max);
    } else {
      EndEventLessens(p, st.n, st.event, w.max);
    }
  }

  // Within a port nothing but the port, its consumer and the network's listeners change.
  lemma WithinPortFrame(w: World, s: Step)
    requires Possible(w, s) && WithinPort(s)
    ensures var w' := Do(w, s); SameCost(w, w') && w'.pool == w.pool && w'.net.busy == w.net.busy
  {
  }

  lemma WithinPortLessens(w: World, s: Step)
    requires Tokens(w) && PortsSound(w) && Possible(w, s) && WithinPort(s)
    ensures Load(Do(w, s)) < Load(w)
  {
    var w', a := Do(w, s), w.places[s.t].a;
    WithinPortOnly(w, s);
    WithinPortFrame(w, s);
    CostStays(w, w');
    OnePortLoads(w, w', a);
    if s.TakeCommand? || s.RunIt? || s.AskHandle? || s.RegisterIt? {
      CommandStepLessens(w, s);
    } else {
      EventStepLessens(w, s);
    }
  }

  lemma QuitFrame(w: World, t: Tid)
    requires Tokens(w) && Possible(w, QuitPort(t))
    ensures var w' := Quit(w, t);
            && SameCost(w, w') && w'.pool == w.pool && w'.net == w.net
            && StageOf(w, w.places[t].a) == Leave && w'.ports[w.places[t].a] == LeavePort(w.ports[w.places[t].a])
  {
    StageAt(w, t);
  }

  lemma QuitLessens(w: World, t: Tid)
    requires Tokens(w) && PortsSound(w) && Possible(w, QuitPort(t))
    ensures Load(Quit(w, t)) < Load(w)
  {
    var w', a := Quit(w, t), w.places[t].a;
    QuitSound(w, t);
    QuitFrame(w, t);
    CostStays(w, w');
    OnePortLoads(w, w', a);
    LeaveLessens(w.ports[a], w.max);
  }

  lemma TakeMailLessens(w: World, t: Tid)
    requires Tokens(w) && Possible(w, TakeMail(t)) && w.max > 0
    ensures Load(Mail(w, t)) < Load(w)
  {
    var w', a := Mail(w, t), w.places[t].a;
    MailStage(w, t);
    CostStays(w, w');
    OnePortLoads(w, w', a);
    MailLessens(w.ports[a], w.max);
  }

  lemma PoolLessens(w: World, action: Action)
    requires Tokens(w) && Inv(w.pool) && Active(w) && Possible(w, PoolMove(action)) && !Nudge(action)
    requires MovePool(w, action).pool.phase == w.pool.phase
    ensures Load(MovePool(w, action)) < Load(w)
  {
    MovePoolUnmoved(w, action);
    PoolStepLessens(w.pool, action);
    NoPortLoads(w, MovePool(w, action));
    CostStays(w, MovePool(w, action));
  }

  lemma FinishLessens(w: World, t: Tid)
    requires Tokens(w) && Inv(w.pool) && Active(w) && Possible(w, FinishActor(t))
    ensures Load(Finish(w, t)) < Load(w)
  {
    FinishUnmoved(w, t);
    PoolStepLessens(w.pool, Return(t));
    NoPortLoads(w, Finish(w, t));
    CostStays(w, Finish(w, t));
  }

  lemma EndPublishLessens(w: World)
    requires Possible(w, EndPublish)
    ensures Load(Do(w, EndPublish)) < Load(w)
  {
    NoPortLoads(w, Do(w, EndPublish));
  }

  // The port gets the event, and the pool at most the port's owner.
  lemma HandOverFrame(w: World, handle: Handle)
    requires Tokens(w) && Possible(w, Deliver(handle)) && Inv(w.pool) && Active(w)
    ensures var w' := HandOver(w, handle);
            var b := w.net.busy.value;
            var a := ListenersOf(w.net.listeners, b.ty)[handle];
            && OnlyPort(w, w', a) && StageOf(w', a) == StageOf(w, a)
            && w'.ports[a] == Enqueue(w.ports[a], |w.log| - 1, b.ty) && w'.max == w.max
            && w'.net.busy == Some(b.(pending := b.pending - {handle}))
            && (w'.pool != w.pool ==> Enabled(w.pool, PushAction(b.who, a)) && w'.pool == Apply(w.pool, PushAction(b.who, a)))
  {
    var b := w.net.busy.value;
    var a := ListenersOf(w.net.listeners, b.ty)[handle];
    UpdateOnly(w, a, Enqueue(w.ports[a], |w.log| - 1, b.ty), b.who);
  }

  lemma PushAdds(s: Pool, who: Option<Tid>, a: ActorId)
    requires Inv(s) && (s.phase == RUNNING || s.phase == STOPPING) && Enabled(s, PushAction(who, a))
    ensures var s' := Apply(s, PushAction(who, a));
            s'.phase == s.phase && |s'.threads| == |s.threads| && PoolLoad(s') <= PoolLoad(s) + 3 + 2 * |s.threads|
  {
    PoolNudgeAdds(s, PushAction(who, a));
  }

  lemma HandOverCosts(w: World, w': World, handle: Handle, a: ActorId)
    requires a < |w.ports| && SameCost(w, w') && w.net.busy.Some? && handle in w.net.busy.value.pending
    requires w'.net.busy == Some(w.net.busy.value.(pending := w.net.busy.value.pending - {handle}))
    ensures NetLoad(w') + 18 + |w.ports[a].issued| + 2 * |w.pool.threads| <= NetLoad(w)
  {
    CostStays(w, w');
    TotalAtLeast(w.ports, IssuedCount, a);
    assert |w'.net.busy.value.pending| == |w.net.busy.value.pending| - 1;
  }

  lemma HandOverLessens(w: World, handle: Handle)
    requires Tokens(w) && Possible(w, Deliver(handle)) && Inv(w.pool) && Active(w)
    ensures Load(HandOver(w, handle)) < Load(w) && HandOver(w, handle).pool.phase == w.pool.phase
  {
    var w', b := HandOver(w, handle), w.net.busy.value;
    var a := ListenersOf(w.net.listeners, b.ty)[handle];
    HandOverFrame(w, handle);
    if w'.pool != w.pool { PushAdds(w.pool, b.who, a); }
    HandOverBalance(w, w', handle, a, |w.log| - 1, b.ty);
  }

  lemma HandOverBalance(w: World, w': World, handle: Handle, a: ActorId, id: nat, ty: EventType)
    requires a < |w.ports| && OnlyPort(w, w', a) && StageOf(w', a) == StageOf(w, a) && w'.max == w.max
    requires w'.ports[a] == Enqueue(w.ports[a], id, ty) && w.net.busy.Some? && handle in w.net.busy.value.pending
    requires w'.net.busy == Some(w.net.busy.value.(pending := w.net.busy.value.pending - {handle}))
    requires |w'.pool.threads| == |w.pool.threads| && PoolLoad(w'.pool) <= PoolLoad(w.pool) + 3 + 2 * |w.pool.threads|
    ensures Load(w') < Load(w)
  {
    OnePortLoads(w, w', a);
    EnqueueAdds(w.ports[a], StageOf(w, a), id, ty, w.max);
    HandOverCosts(w, w', handle, a);
  }

  /** Every step of the runtime that brings no work from outside lessens the work left. */
  lemma OwnStepLessens(w: World, s: Step)
    requires Tokens(w) && PortsSound(w) && Inv(w.pool) && Active(w) && w.max > 0
    requires Possible(w, s) && Own(s) && Do(w, s).pool.phase == w.pool.phase
    ensures Load(Do(w, s)) < Load(w)
  {
    if WithinPort(s) {
      WithinPortLessens(w, s);
    } else if s.Deliver? {
      HandOverLessens(w, s.handle);
    } else if s.EndPublish? {
      EndPublishLessens(w);
    } else {
      DispatcherLessens(w, s);
    }
  }

  lemma DispatcherLessens(w: World, s: Step)
    requires Tokens(w) && PortsSound(w) && Inv(w.pool) && Active(w) && w.max > 0
    requires Possible(w, s) && Own(s) && Do(w, s).pool.phase == w.pool.phase
    requires s.PoolMove? || s.TakeMail? || s.FinishActor? || s.QuitPort?
    ensures Load(Do(w, s)) < Load(w)
  {
    if s.PoolMove? {
      PoolLessens(w, s.action);
    } else if s.TakeMail? {
      TakeMailLessens(w, s.t);
    } else if s.FinishActor? {
      FinishLessens(w, s.t);
    } else {
      QuitLessens(w, s.t);
    }
  }

  /** A spurious wakeup, or a call of `waitForIdle`, adds a constant. */
  lemma NudgedLoad(w: World, action: Action)
    requires Tokens(w) && Inv(w.pool) && Active(w) && Possible(w, PoolMove(action)) && Nudge(action)
    requires MovePool(w, action).pool.phase == w.pool.phase
    ensures Load(MovePool(w, action)) <= Load(w) + 3
  {
    MovePoolUnmoved(w, action);
    PoolNudgeAdds(w.pool, action);
    NoPortLoads(w, MovePool(w, action));
    CostStays(w, MovePool(w, action));
  }
}
