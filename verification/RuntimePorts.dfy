/** Every step of the runtime keeps each port's invariant and the network's registrations. */
module RuntimePorts {
  import opened Options
  import opened DispatcherPool
  import opened PortModel
  import opened Runtime
  import opened RuntimeTokens

  // ----- ports -----

  /** Only port `a` and its stage change. */
  ghost predicate OnlyPort(w: World, w': World, a: ActorId) {
    && |w'.ports| == |w.ports|
    && forall b :: 0 <= b < |w.ports| && b != a ==> w'.ports[b] == w.ports[b] && StageOf(w', b) == StageOf(w, b)
  }

  lemma WithinPortOnly(w: World, s: Step)
    requires Tokens(w) && Possible(w, s) && WithinPort(s)
    ensures OnlyPort(w, Do(w, s), w.places[s.t].a)
    ensures StageOf(w, w.places[s.t].a) == w.places[s.t].st
    ensures StageOf(Do(w, s), w.places[s.t].a) == Do(w, s).places[s.t].st
  {
    StageAt(w, s.t);
    StageFrame(w, Do(w, s), s.t, w.places[s.t].a);
    WithinPortTokens(w, s);
    StageAt(Do(w, s), s.t);
  }

  lemma CommandStepsKeepPort(w: World, s: Step)
    requires Tokens(w) && PortsSound(w) && Possible(w, s)
    requires s.TakeCommand? || s.RunIt? || s.AskHandle? || s.RegisterIt?
    ensures PortInv(Do(w, s).ports[w.places[s.t].a], Do(w, s).places[s.t].st)
  {
    var a, st := w.places[s.t].a, w.places[s.t].st;
    var p := w.ports[a];
    StageAt(w, s.t);
    assert PortInv(p, st);
    match s {
      case TakeCommand(_) => NextCommandKeeps(p, st.n);
      case RunIt(_) => RunPoppedKeeps(p, st.n, st.command);
      case AskHandle(_) => ObtainHandleKeeps(p, st.n, st.command, w.net.handleCounter + 1);
      case RegisterIt(_) => RegisteredKeeps(p, st.n, st.command, st.netHandle);
    }
  }

  lemma EventStepsKeepPort(w: World, s: Step)
    requires Tokens(w) && PortsSound(w) && Possible(w, s)
    requires s.Count? || s.TakeEvent? || s.CallListener? || s.EndDispatch?
    requires forall b :: 0 <= b < |w.ports| ==> Increasing(Received(w.ports[b]))
    ensures PortInv(Do(w, s).ports[w.places[s.t].a], Do(w, s).places[s.t].st)
  {
    var a, st := w.places[s.t].a, w.places[s.t].st;
    var p := w.ports[a];
    StageAt(w, s.t);
    assert PortInv(p, st);
    match s {
      case Count(_) => CountEventsKeeps(p, st.n, w.max);
      case TakeEvent(_) => PopEventKeeps(p, st.n);
      case CallListener(_, handle) => CallKeeps(p, st.n, st.event, st.todo, handle);
      case EndDispatch(_) => EndEventKeeps(p, st.n, st.event);
    }
  }

  lemma WithinPortSound(w: World, s: Step)
    requires Tokens(w) && PortsSound(w) && Possible(w, s) && WithinPort(s)
    requires forall b :: 0 <= b < |w.ports| ==> Increasing(Received(w.ports[b]))
    ensures PortsSound(Do(w, s))
  {
    WithinPortOnly(w, s);
    if s.TakeCommand? || s.RunIt? || s.AskHandle? || s.RegisterIt? {
      CommandStepsKeepPort(w, s);
    } else {
      EventStepsKeepPort(w, s);
    }
  }

  lemma UpdateOnly(w: World, a: ActorId, p: Port, who: Option<Tid>)
    requires Tokens(w) && a < |w.ports| && CanUpdate(w, a, p, who)
    ensures OnlyPort(w, UpdatePort(w, a, p, who), a)
    ensures StageOf(UpdatePort(w, a, p, who), a) == StageOf(w, a)
    ensures UpdatePort(w, a, p, who).ports == w.ports[a := p]
    ensures UpdatePort(w, a, p, who).places == w.places
  {
  }

  lemma QuitSound(w: World, t: Tid)
    requires Tokens(w) && PortsSound(w) && Possible(w, QuitPort(t))
    ensures OnlyPort(w, Quit(w, t), w.places[t].a) && StageOf(Quit(w, t), w.places[t].a) == Out
    ensures PortsSound(Quit(w, t))
  {
    var a := w.places[t].a;
    StageAt(w, t);
    StageFrame(w, Quit(w, t), t, a);
    LeaveKeeps(w.ports[a]);
  }

  /** Steps that leave every port and every stage as they are. */
  ghost predicate Unmoved(w: World, w': World) {
    w'.ports == w.ports && forall b :: 0 <= b < |w.ports| ==> StageOf(w', b) == StageOf(w, b)
  }

  lemma MovePoolUnmoved(w: World, action: Action)
    requires Tokens(w) && Possible(w, PoolMove(action))
    ensures Unmoved(w, MovePool(w, action))
  {
  }

  lemma FinishUnmoved(w: World, t: Tid)
    requires Tokens(w) && Possible(w, FinishActor(t))
    ensures Unmoved(w, Finish(w, t))
  {
    StageFrame(w, Finish(w, t), t, w.places[t].a);
  }

  lemma MailStage(w: World, t: Tid)
    requires Tokens(w) && Possible(w, TakeMail(t))
    ensures OnlyPort(w, Mail(w, t), w.places[t].a) && Mail(w, t).ports == w.ports
    ensures StageOf(w, w.places[t].a) == Out && StageOf(Mail(w, t), w.places[t].a) == Process(0)
  {
    StageAt(w, t);
    StageFrame(w, Mail(w, t), t, w.places[t].a);
  }

  lemma MailSound(w: World, t: Tid)
    requires Tokens(w) && PortsSound(w) && Possible(w, TakeMail(t))
    ensures PortsSound(Mail(w, t))
  {
    MailStage(w, t);
    var p := w.ports[w.places[t].a];
    assert PortInv(p, Out) && p.scheduled;
    assert PortInv(p, Process(0));
  }

  lemma CtorUnmoved(w: World, who: Option<Tid>, a: ActorId)
    requires Possible(w, FinishCtor(who, a))
    ensures Unmoved(w, CtorFinished(w, who, a))
  {
  }

  lemma HandOverPorts(w: World, handle: Handle)
    requires Tokens(w) && PortsSound(w) && Possible(w, Deliver(handle))
    ensures PortsSound(HandOver(w, handle))
  {
    var b := w.net.busy.value;
    var a := ListenersOf(w.net.listeners, b.ty)[handle];
    var p := Enqueue(w.ports[a], |w.log| - 1, b.ty);
    EnqueueKeeps(w.ports[a], StageOf(w, a), |w.log| - 1, b.ty);
    UpdateSound(w, a, p, b.who);
    NetOnlyPorts(UpdatePort(w, a, p, b.who), HandOver(w, handle));
  }

  lemma UpdateSound(w: World, a: ActorId, p: Port, who: Option<Tid>)
    requires Tokens(w) && PortsSound(w) && a < |w.ports| && CanUpdate(w, a, p, who) && PortInv(p, StageOf(w, a))
    ensures PortsSound(UpdatePort(w, a, p, who))
  {
    UpdateOnly(w, a, p, who);
  }

  lemma NetOnlyPorts(w: World, w': World)
    requires PortsSound(w) && w' == w.(net := w'.net)
    ensures PortsSound(w')
  {
  }

  predicate Still(s: Step) {
    s.PoolMove? || s.FinishActor? || s.FinishCtor? || s.Publish? || s.EndPublish?
  }

  lemma StillUnmoved(w: World, s: Step)
    requires Tokens(w) && Possible(w, s) && Still(s)
    ensures Unmoved(w, Do(w, s))
    ensures Do(w, s).net.listeners == w.net.listeners && Do(w, s).net.handleCounter == w.net.handleCounter
  {
    match s {
      case PoolMove(action) => MovePoolUnmoved(w, action);
      case FinishActor(t) => FinishUnmoved(w, t);
      case FinishCtor(who, a) => CtorUnmoved(w, who, a);
      case Publish(_, _) =>
      case EndPublish =>
    }
  }

  lemma OtherStepsSound(w: World, s: Step)
    requires Tokens(w) && PortsSound(w) && Possible(w, s) && !WithinPort(s)
    ensures PortsSound(Do(w, s))
  {
    if Still(s) {
      StillUnmoved(w, s);
    } else {
      match s {
        case TakeMail(t) => MailSound(w, t);
        case QuitPort(t) => QuitSound(w, t);
        case Give(who, a, command) => GivePorts(w, who, a, command);
        case Deliver(handle) => HandOverPorts(w, handle);
      }
    }
  }

  lemma GivePorts(w: World, who: Option<Tid>, a: ActorId, command: Command)
    requires Tokens(w) && PortsSound(w) && Possible(w, Give(who, a, command))
    ensures PortsSound(Do(w, Give(who, a, command)))
  {
    UpdateOnly(w, a, Issue(w.ports[a], command), who);
    IssueKeeps(w.ports[a], StageOf(w, a), command);
  }

  lemma PortsKept(w: World, s: Step)
    requires Tokens(w) && PortsSound(w) && Possible(w, s)
    requires forall b :: 0 <= b < |w.ports| ==> Increasing(Received(w.ports[b]))
    ensures PortsSound(Do(w, s))
  {
    if WithinPort(s) {
      WithinPortSound(w, s);
    } else {
      OtherStepsSound(w, s);
    }
  }

  // ----- registrations -----

  /** Neither the network nor the ports' registrations change, and no port starts to register. */
  ghost predicate SameRegistrations(w: World, w': World) {
    && w'.net.listeners == w.net.listeners && w'.net.handleCounter == w.net.handleCounter
    && |w'.ports| == |w.ports|
    && (forall b :: 0 <= b < |w.ports| ==>
          && w'.ports[b].registered == w.ports[b].registered
          && (StageOf(w', b).Register? ==> StageOf(w', b) == StageOf(w, b)))
  }

  lemma ConsumerKeepsRegistrations(w: World, s: Step)
    requires Tokens(w) && Possible(w, s) && WithinPort(s) && !s.AskHandle? && !s.RegisterIt?
    ensures SameRegistrations(w, Do(w, s))
  {
    WithinPortOnly(w, s);
  }

  lemma GiveKeepsRegistrations(w: World, who: Option<Tid>, a: ActorId, command: Command)
    requires Tokens(w) && Possible(w, Give(who, a, command))
    ensures SameRegistrations(w, Do(w, Give(who, a, command)))
  {
    UpdateOnly(w, a, Issue(w.ports[a], command), who);
  }

  lemma HandOverKeepsRegistrations(w: World, handle: Handle)
    requires Tokens(w) && Possible(w, Deliver(handle))
    ensures SameRegistrations(w, HandOver(w, handle))
  {
    var b := w.net.busy.value;
    var a := ListenersOf(w.net.listeners, b.ty)[handle];
    UpdateOnly(w, a, Enqueue(w.ports[a], |w.log| - 1, b.ty), b.who);
    assert Unmoved(UpdatePort(w, a, Enqueue(w.ports[a], |w.log| - 1, b.ty), b.who), HandOver(w, handle));
  }

  lemma OthersKeepRegistrations(w: World, s: Step)
    requires Tokens(w) && PortsSound(w) && Possible(w, s) && !WithinPort(s)
    ensures SameRegistrations(w, Do(w, s))
  {
    if Still(s) {
      StillUnmoved(w, s);
    } else if s.Give? || s.Deliver? {
      ProducersKeepRegistrations(w, s);
    } else if s.TakeMail? {
      MailStage(w, s.t);
    } else {
      QuitSound(w, s.t);
    }
  }

  lemma ProducersKeepRegistrations(w: World, s: Step)
    requires Tokens(w) && PortsSound(w) && Possible(w, s) && (s.Give? || s.Deliver?)
    ensures SameRegistrations(w, Do(w, s))
  {
    if s.Give? {
      GiveKeepsRegistrations(w, s.who, s.a, s.command);
    } else {
      HandOverKeepsRegistrations(w, s.handle);
    }
  }

  lemma RegistrationsFrame(w: World, w': World)
    requires OneRegistration(w) && FreshHandles(w) && SameRegistrations(w, w')
    ensures OneRegistration(w') && FreshHandles(w')
  {
  }

  lemma AskHandleKeeps(w: World, t: Tid)
    requires Tokens(w) && OneRegistration(w) && FreshHandles(w) && Possible(w, AskHandle(t))
    ensures OneRegistration(NewHandle(w, t)) && FreshHandles(NewHandle(w, t))
  {
    WithinPortOnly(w, AskHandle(t));
  }

  /** Port `a` registers for `ty` under the handle `h` it had obtained. */
  ghost predicate Registers(w: World, w': World, a: ActorId, ty: EventType, h: Handle) {
    && a < |w.ports| == |w'.ports| && w'.net.handleCounter == w.net.handleCounter
    && StageOf(w, a).Register? && StageOf(w, a).netHandle == h && !StageOf(w', a).Register?
    && ty !in w.ports[a].registered && w'.ports[a].registered == w.ports[a].registered[ty := h]
    && (forall b :: 0 <= b < |w.ports| && b != a ==> w'.ports[b] == w.ports[b] && StageOf(w', b) == StageOf(w, b))
    && (forall x :: x != ty ==> ListenersOf(w'.net.listeners, x) == ListenersOf(w.net.listeners, x))
    && ListenersOf(w'.net.listeners, ty) == ListenersOf(w.net.listeners, ty)[h := a]
  }

  lemma RegisterItRegisters(w: World, t: Tid)
    requires Tokens(w) && PortsSound(w) && Possible(w, RegisterIt(t))
    ensures var st := w.places[t].st; Registers(w, AddListener(w, t), w.places[t].a, st.command.ty, st.netHandle)
  {
    WithinPortOnly(w, RegisterIt(t));
    assert PortInv(w.ports[w.places[t].a], w.places[t].st);
  }

  lemma RegistersKeepsOne(w: World, w': World, a: ActorId, ty: EventType, h: Handle)
    requires OneRegistration(w) && FreshHandles(w) && Registers(w, w', a, ty, h)
    ensures OneRegistration(w')
  {
  }

  lemma RegistersKeepsFresh(w: World, w': World, a: ActorId, ty: EventType, h: Handle)
    requires FreshHandles(w) && Registers(w, w', a, ty, h)
    ensures FreshHandles(w')
  {
  }

  lemma RegisterItKeeps(w: World, t: Tid)
    requires Tokens(w) && PortsSound(w) && OneRegistration(w) && FreshHandles(w) && Possible(w, RegisterIt(t))
    ensures OneRegistration(AddListener(w, t)) && FreshHandles(AddListener(w, t))
  {
    RegisterItRegisters(w, t);
    var st := w.places[t].st;
    RegistersKeepsOne(w, AddListener(w, t), w.places[t].a, st.command.ty, st.netHandle);
    RegistersKeepsFresh(w, AddListener(w, t), w.places[t].a, st.command.ty, st.netHandle);
  }

  lemma RegistrationsKept(w: World, s: Step)
    requires Tokens(w) && PortsSound(w) && OneRegistration(w) && FreshHandles(w) && Possible(w, s)
    ensures OneRegistration(Do(w, s)) && FreshHandles(Do(w, s))
  {
    if s.AskHandle? {
      AskHandleKeeps(w, s.t);
    } else if s.RegisterIt? {
      RegisterItKeeps(w, s.t);
    } else {
      if WithinPort(s) {
        ConsumerKeepsRegistrations(w, s);
      } else {
        OthersKeepRegistrations(w, s);
      }
      RegistrationsFrame(w, Do(w, s));
    }
  }
}
