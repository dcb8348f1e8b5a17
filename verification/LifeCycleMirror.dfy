/** How the ordered system follows the unordered one of `LifeCycle`, actor by actor. */
module LifeCycleMirror {
  import opened Chains
  import opened LifeCycle
  import opened LifeCycleInvariant
  import opened LifeCycleSteps
  import opened LifeCyclePorts

  /** The queue of `x` holds the messages of `v` that are addressed to `x`. */
  ghost predicate SameMail(o: Ports, v: System, x: ActorId)
    requires x < |o.queues|
  {
    forall msg :: SameMailOf(o, v, x, msg)
  }

  ghost predicate Mirrored(o: Ports, v: System, x: ActorId) {
    x < |o.nodes| && x < |o.queues| && x < |v.nodes| && o.nodes[x] == Bare(v.nodes[x]) && SameMail(o, v, x)
  }

  ghost predicate SameTree(o: Ports, v: System) {
    Shaped(o) && v.parent == o.parent && |v.nodes| == |o.nodes|
  }

  /** Both systems are in the same state, seen without the order of messages. */
  ghost predicate Mirrors(o: Ports, v: System) {
    SameTree(o, v) && v.running == o.running && v.stops == o.stops && forall x :: 0 <= x < |o.nodes| ==> Mirrored(o, v, x)
  }

  // ----- one message -----

  /** Which handler runs and what it does to its actor and publishes, told of the unordered system. */
  lemma DeliverReacts(v: System, msg: Msg, x: ActorId)
    requires Deliverable(v, msg) && !msg.PubCnf? && x < |v.nodes|
    ensures var i := Receiver(v.parent, msg);
            var v' := Deliver(v, msg);
            && SameShape(v, v') && v'.stops == v.stops
            && Bare(v'.nodes[x]) == Bare(if x == i then React(v.parent, i, v.nodes[i], msg).node else v.nodes[x])
            && v'.flight == v.flight - multiset{msg} + HeardOf(React(v.parent, i, v.nodes[i], msg).out)
            && v'.running == (v.running && !(msg.PrivCnf? && msg.from == 0))
  {
  }

  lemma ReactBare(parent: seq<ActorId>, i: ActorId, node: Node, msg: Msg)
    ensures Bare(React(parent, i, Bare(node), msg).node) == Bare(React(parent, i, node, msg).node)
    ensures React(parent, i, Bare(node), msg).out == React(parent, i, node, msg).out
  {
  }

  lemma {:induction false} MailIsHeard(parent: seq<ActorId>, out: seq<Msg>, x: ActorId, msg: Msg)
    ensures multiset(Mail(parent, out, x))[msg] == if Receiver(parent, msg) == x then HeardOf(out)[msg] else 0
  {
    if out != [] {
      MailIsHeard(parent, out[1..], x, msg);
      var first := if Heard(out[0]) && Receiver(parent, out[0]) == x then [out[0]] else [];
      assert multiset(first + Mail(parent, out[1..], x)) == multiset(first) + multiset(Mail(parent, out[1..], x));
    }
  }

  lemma Popped(queue: seq<Msg>, msg: Msg)
    requires queue != []
    ensures multiset(queue[1..])[msg] == multiset(queue)[msg] - Bit(msg == queue[0])
  {
    assert queue == [queue[0]] + queue[1..];
    assert multiset(queue) == multiset([queue[0]]) + multiset(queue[1..]);
  }

  /** `x` holds `m` as often as it is in flight to `x`. */
  ghost predicate SameMailOf(o: Ports, v: System, x: ActorId, m: Msg)
    requires x < |o.queues|
  {
    multiset(o.queues[x])[m] == if Receiver(v.parent, m) == x then v.flight[m] else 0
  }

  /** The actor that handles a message publishes the same on both sides. */
  ghost predicate SameAnswer(o: Ports, v: System, i: ActorId) {
    && HasMail(o, i) && i < |v.nodes| && !o.queues[i][0].PubCnf?
    && Deliverable(v, o.queues[i][0]) && Receiver(v.parent, o.queues[i][0]) == i
    && React(o.parent, i, o.nodes[i], o.queues[i][0]).out == React(v.parent, i, v.nodes[i], o.queues[i][0]).out
  }

  /** One message changes the mail of `x` as it changes what is in flight to `x`. */
  lemma MailChanges(o: Ports, v: System, i: ActorId, x: ActorId, m: Msg)
    requires SameTree(o, v) && SameAnswer(o, v, i) && x < |o.queues|
    ensures multiset(Serve(o, i).queues[x])[m] as int - multiset(o.queues[x])[m] as int
            == if Receiver(v.parent, m) == x then Deliver(v, o.queues[i][0]).flight[m] as int - v.flight[m] as int else 0
  {
    var msg := o.queues[i][0];
    var out := React(o.parent, i, o.nodes[i], msg).out;
    DeliverReacts(v, msg, i);
    QueueChanges(o, i, x, m);
    MailIsHeard(o.parent, out, x, m);
  }

  lemma QueueChanges(o: Ports, i: ActorId, x: ActorId, m: Msg)
    requires HasMail(o, i) && x < |o.queues|
    ensures multiset(Serve(o, i).queues[x])[m] as int
            == multiset(o.queues[x])[m] - Bit(x == i && m == o.queues[i][0])
               + multiset(Mail(o.parent, React(o.parent, i, o.nodes[i], o.queues[i][0]).out, x))[m]
  {
    var mail := Mail(o.parent, React(o.parent, i, o.nodes[i], o.queues[i][0]).out, x);
    var kept := if x == i then o.queues[i][1..] else o.queues[x];
    assert Serve(o, i).queues[x] == kept + mail;
    assert multiset(kept + mail) == multiset(kept) + multiset(mail);
    Popped(o.queues[i], m);
  }

  lemma MailFollows(o: Ports, v: System, i: ActorId, x: ActorId, m: Msg)
    requires SameTree(o, v) && SameAnswer(o, v, i) && x < |o.queues| && SameMailOf(o, v, x, m)
    ensures SameMailOf(Serve(o, i), Deliver(v, o.queues[i][0]), x, m)
  {
    MailChanges(o, v, i, x, m);
    DeliverReacts(v, o.queues[i][0], i);
  }

  lemma HeadIsDeliverable(o: Ports, v: System, i: ActorId)
    requires SameTree(o, v) && InFlight(v) && RootSound(v) && HasMail(o, i) && SameMailOf(o, v, i, o.queues[i][0])
    ensures Deliverable(v, o.queues[i][0]) && Receiver(v.parent, o.queues[i][0]) == i && !o.queues[i][0].PubCnf?
    ensures o.queues[i][0] != PrivCnf(StartWave, 0)
  {
    var msg := o.queues[i][0];
    assert msg in multiset(o.queues[i]);
    FlightIsHeard(v, msg);
    assert v.flight[msg] == Expected(v, msg);
  }

  /** An actor that is mirrored stays so when a mirrored actor handles a message on both sides. */
  lemma MirrorKept(o: Ports, v: System, i: ActorId, x: ActorId)
    requires SameTree(o, v) && Mirrored(o, v, i) && HasMail(o, i) && Mirrored(o, v, x)
    requires InFlight(v) && RootSound(v)
    ensures Deliverable(v, o.queues[i][0])
    ensures Mirrored(Serve(o, i), Deliver(v, o.queues[i][0]), x)
  {
    assert SameMailOf(o, v, i, o.queues[i][0]);
    HeadIsDeliverable(o, v, i);
    ReactBare(o.parent, i, v.nodes[i], o.queues[i][0]);
    DeliverReacts(v, o.queues[i][0], x);
    AllMailFollows(o, v, i, x);
  }

  lemma AllMailFollows(o: Ports, v: System, i: ActorId, x: ActorId)
    requires SameTree(o, v) && SameAnswer(o, v, i) && x < |o.queues| && SameMail(o, v, x)
    ensures SameMail(Serve(o, i), Deliver(v, o.queues[i][0]), x)
  {
    forall m ensures SameMailOf(Serve(o, i), Deliver(v, o.queues[i][0]), x, m) {
      assert SameMailOf(o, v, x, m);
      MailFollows(o, v, i, x, m);
    }
  }

  /** The same when the handling actor itself is not mirrored, but answers alike. */
  lemma BystanderKept(o: Ports, v: System, i: ActorId, x: ActorId)
    requires SameTree(o, v) && SameAnswer(o, v, i) && Mirrored(o, v, x) && x != i
    ensures Mirrored(Serve(o, i), Deliver(v, o.queues[i][0]), x)
  {
    DeliverReacts(v, o.queues[i][0], x);
    AllMailFollows(o, v, i, x);
  }

  /** A message concerns its receiver and the receiver's children only. */
  lemma DeliverLocal(v: System, msg: Msg, y: ActorId)
    requires Deliverable(v, msg) && y < |v.nodes|
    requires y != Receiver(v.parent, msg) && (y > 0 ==> v.parent[y] != Receiver(v.parent, msg))
    ensures |Deliver(v, msg).nodes| == |v.nodes| && Deliver(v, msg).nodes[y] == v.nodes[y]
  {
    KidsMembers(v.parent, Receiver(v.parent, msg));
  }

  lemma ServeShape(o: Ports, v: System, i: ActorId, v': System)
    requires SameTree(o, v) && v.running == o.running && v.stops == o.stops && HasMail(o, i)
    requires o.queues[i][0] != PrivCnf(StartWave, 0)
    requires SameShape(v, v') && v'.stops == v.stops
    requires v'.running == (v.running && !(o.queues[i][0].PrivCnf? && o.queues[i][0].from == 0))
    ensures SameTree(Serve(o, i), v') && v'.running == Serve(o, i).running && v'.stops == Serve(o, i).stops == o.stops
  {
    var msg := o.queues[i][0];
    if msg.PrivCnf? { assert msg == if msg.wave.StartWave? then PrivCnf(StartWave, msg.from) else PrivCnf(StopWave, msg.from); }
  }

  lemma ServeMirrors(o: Ports, v: System, i: ActorId) returns (v': System)
    requires Mirrors(o, v) && WaveInv(v) && HasMail(o, i)
    ensures WaveInv(v') && v'.parent == v.parent && Mirrors(Serve(o, i), v')
  {
    assert Mirrored(o, v, i);
    assert SameMailOf(o, v, i, o.queues[i][0]);
    HeadIsDeliverable(o, v, i);
    v' := Deliver(v, o.queues[i][0]);
    DeliverReacts(v, o.queues[i][0], i);
    ServeShape(o, v, i, v');
    HandleKept(v, v', o.queues[i][0]);
    AllMirrorKept(o, v, i, v');
  }

  lemma AllMirrorKept(o: Ports, v: System, i: ActorId, v': System)
    requires Mirrors(o, v) && InFlight(v) && RootSound(v) && HasMail(o, i)
    requires Deliverable(v, o.queues[i][0]) && v' == Deliver(v, o.queues[i][0])
    ensures forall x :: 0 <= x < |o.nodes| ==> Mirrored(Serve(o, i), v', x)
  {
    assert Mirrored(o, v, i);
    forall x | 0 <= x < |o.nodes| ensures Mirrored(Serve(o, i), v', x) {
      assert Mirrored(o, v, x);
      MirrorKept(o, v, i, x);
    }
  }

  // ----- before Stop -----

  lemma FreshMirrors(parent: seq<ActorId>)
    requires IsTree(parent)
    ensures Mirrors(Fresh(parent), Created(parent)) && WaveInv(Created(parent))
  {
    StartsSound(parent);
    var o, v := Fresh(parent), Created(parent);
    forall x | 0 <= x < |o.nodes| ensures Mirrored(o, v, x) {
      assert o.queues[x] == if x == 0 then [Req(StartWave, 0)] else [];
    }
  }
}
