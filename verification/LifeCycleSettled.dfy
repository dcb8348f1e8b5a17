/**
 Handlers cut at their publications, seen as whole ones: what an actor has still to publish counts
 as published. Only the order in which it will reach a port is not known yet, so when it is
 published it may go ahead of other messages that were counted before it.
 */
module LifeCycleSettled {
  import opened Chains
  import opened LifeCycle
  import opened LifeCycleInvariant
  import opened LifeCycleSteps
  import opened LifeCyclePorts
  import opened LifeCycleMirror

  // The actor whose handler publishes a message.
  function Sender(parent: seq<ActorId>, msg: Msg): ActorId {
    match msg
    case Req(_, i) => if 0 < i < |parent| then parent[i] else 0
    case PrivCnf(_, i) => i
    case PubCnf(_, i) => i
    case Stop => 0
  }

  /** How often `m` has still to be handed to the port it goes to. */
  function Pending(o: Ports, m: Msg): nat {
    if Heard(m) && Sender(o.parent, m) < |o.outboxes| then multiset(o.outboxes[Sender(o.parent, m)])[m] else 0
  }

  /** An actor publishes its own messages, and besides a private confirmation nothing that is heard. */
  predicate TidyBox(parent: seq<ActorId>, i: ActorId, out: seq<Msg>) {
    forall m :: m in out ==>
      && Sender(parent, m) == i && Receiver(parent, m) < |parent|
      && (m.PrivCnf? ==> forall b :: b in out ==> b.PubCnf? || b == m)
  }

  ghost predicate Tidy(o: Ports) { forall i :: 0 <= i < |o.outboxes| ==> TidyBox(o.parent, i, o.outboxes[i]) }

  // `x` has in `c` as many of `m` as in `o`, and those pending.
  ghost predicate SettledMail(o: Ports, c: Ports, x: ActorId, m: Msg)
    requires x < |o.queues| && x < |c.queues|
  {
    multiset(c.queues[x])[m] == multiset(o.queues[x])[m] + (if Receiver(o.parent, m) == x then Pending(o, m) else 0)
  }

  /** The queue of `x` in `c` begins as in `o` and goes on with what is pending for `x`. */
  ghost predicate Settled(o: Ports, c: Ports, x: ActorId)
    requires x < |o.queues| && x < |c.queues|
  {
    o.queues[x] <= c.queues[x] && forall m :: SettledMail(o, c, x, m)
  }

  ghost predicate SameActors(o: Ports, c: Ports) {
    && Shaped(o) && Shaped(c) && c.parent == o.parent && c.nodes == o.nodes
    && c.running == o.running && c.stops == o.stops
  }

  /** `c` is `o` with everything published. */
  ghost predicate Settles(o: Ports, c: Ports) {
    SameActors(o, c) && Tidy(o) && forall x :: 0 <= x < |o.queues| ==> Settled(o, c, x)
  }

  // ----- taking a message -----

  lemma RequestsTidy(parent: seq<ActorId>, i: ActorId, wave: Wave)
    requires IsTree(parent) && i < |parent|
    ensures TidyBox(parent, i, Requests(wave, Kids(parent, i)))
  {
    var kids := Kids(parent, i);
    KidsMembers(parent, i);
    forall m | m in Requests(wave, kids) ensures m.Req? && m.to in kids {
      var k :| 0 <= k < |kids| && Requests(wave, kids)[k] == m;
    }
  }

  lemma ReactTidy(parent: seq<ActorId>, i: ActorId, node: Node, msg: Msg)
    requires IsTree(parent) && i < |parent| && (msg.Stop? ==> i == 0)
    ensures TidyBox(parent, i, React(parent, i, node, msg).out)
  {
    if msg.Req? { RequestsTidy(parent, i, msg.wave); }
  }

  lemma {:induction false} HeardCount(out: seq<Msg>, m: Msg)
    ensures HeardOf(out)[m] == if Heard(m) then multiset(out)[m] else 0
  {
    if out != [] {
      HeardCount(out[1..], m);
      assert out == [out[0]] + out[1..];
      assert multiset(out) == multiset([out[0]]) + multiset(out[1..]);
    }
  }

  // What an actor publishes comes to the ports the same, at once or later.
  lemma MailIsPending(parent: seq<ActorId>, out: seq<Msg>, x: ActorId, m: Msg)
    ensures multiset(Mail(parent, out, x))[m] == if Receiver(parent, m) == x && Heard(m) then multiset(out)[m] else 0
  {
    MailIsHeard(parent, out, x, m);
    HeardCount(out, m);
  }

  lemma TakePending(o: Ports, i: ActorId, m: Msg)
    requires Shaped(o) && HasMail(o, i) && o.outboxes[i] == []
    requires TidyBox(o.parent, i, React(o.parent, i, o.nodes[i], o.queues[i][0]).out)
    ensures Pending(Take(o, i), m) == Pending(o, m) + if Heard(m) then multiset(React(o.parent, i, o.nodes[i], o.queues[i][0]).out)[m] else 0
  {
    var out := React(o.parent, i, o.nodes[i], o.queues[i][0]).out;
    if Sender(o.parent, m) != i { assert m !in out; }
  }

  lemma TakeCounts(o: Ports, c: Ports, i: ActorId, x: ActorId, m: Msg)
    requires SameActors(o, c) && HasMail(o, i) && o.outboxes[i] == [] && x < |o.queues|
    requires TidyBox(o.parent, i, React(o.parent, i, o.nodes[i], o.queues[i][0]).out)
    requires HasMail(c, i) && c.queues[i][0] == o.queues[i][0] && SettledMail(o, c, x, m)
    ensures SettledMail(Take(o, i), Serve(c, i), x, m)
  {
    QueueChanges(c, i, x, m);
    MailIsPending(o.parent, React(o.parent, i, o.nodes[i], o.queues[i][0]).out, x, m);
    TakePending(o, i, m);
    Popped(o.queues[i], m);
  }

  lemma TakeSettled(o: Ports, c: Ports, i: ActorId, x: ActorId)
    requires SameActors(o, c) && HasMail(o, i) && o.outboxes[i] == [] && x < |o.queues|
    requires TidyBox(o.parent, i, React(o.parent, i, o.nodes[i], o.queues[i][0]).out)
    requires HasMail(c, i) && c.queues[i][0] == o.queues[i][0] && Settled(o, c, x) && o.queues[i] <= c.queues[i]
    ensures Settled(Take(o, i), Serve(c, i), x)
  {
    var out := React(o.parent, i, o.nodes[i], o.queues[i][0]).out;
    assert Serve(c, i).queues[x] == (if x == i then c.queues[i][1..] else c.queues[x]) + Mail(o.parent, out, x);
    forall m ensures SettledMail(Take(o, i), Serve(c, i), x, m) {
      assert SettledMail(o, c, x, m);
      TakeCounts(o, c, i, x, m);
    }
  }

  lemma TakeTidy(o: Ports, i: ActorId)
    requires Tidy(o) && HasMail(o, i) && i < |o.outboxes|
    requires TidyBox(o.parent, i, React(o.parent, i, o.nodes[i], o.queues[i][0]).out)
    ensures Tidy(Take(o, i))
  {
    forall k | 0 <= k < |o.outboxes| ensures TidyBox(o.parent, k, Take(o, i).outboxes[k]) {
      assert TidyBox(o.parent, k, o.outboxes[k]);
    }
  }

  lemma TakeSettles(o: Ports, c: Ports, i: ActorId)
    requires Settles(o, c) && HasMail(o, i) && o.outboxes[i] == [] && (o.queues[i][0].Stop? ==> i == 0)
    ensures HasMail(c, i) && c.queues[i][0] == o.queues[i][0] && Settles(Take(o, i), Serve(c, i))
  {
    ReactTidy(o.parent, i, o.nodes[i], o.queues[i][0]);
    assert Settled(o, c, i);
    forall x | 0 <= x < |o.queues| ensures Settled(Take(o, i), Serve(c, i), x) {
      assert Settled(o, c, x);
      TakeSettled(o, c, i, x);
    }
    TakeTidy(o, i);
  }

  // ----- publishing -----

  /** Message `t` of the queue goes ahead of those from position `n` on. */
  function Hasten(queue: seq<Msg>, n: nat, t: nat): seq<Msg>
    requires n <= t < |queue|
  {
    queue[..n] + [queue[t]] + queue[n..t] + queue[t + 1..]
  }

  lemma HastenCounts(queue: seq<Msg>, n: nat, t: nat)
    requires n <= t < |queue|
    ensures multiset(Hasten(queue, n, t)) == multiset(queue)
  {
    assert queue == queue[..n] + queue[n..t] + [queue[t]] + queue[t + 1..];
    SwapCounts(queue[..n], queue[n..t], [queue[t]], queue[t + 1..]);
  }

  lemma SwapCounts(a: seq<Msg>, b: seq<Msg>, c: seq<Msg>, d: seq<Msg>)
    ensures multiset(a + c + b + d) == multiset(a + b + c + d)
  {
  }

  /** Every `a` in the queue is ahead of every `b`. */
  ghost predicate Ahead(queue: seq<Msg>, a: Msg, b: Msg) {
    forall x, y :: 0 <= x < |queue| && 0 <= y < |queue| && queue[x] == a && queue[y] == b ==> x < y
  }

  lemma HastenAhead(queue: seq<Msg>, n: nat, t: nat, a: Msg, b: Msg)
    requires n <= t < |queue| && Ahead(queue, a, b) && (queue[t] == b ==> a !in queue[n..])
    ensures Ahead(Hasten(queue, n, t), a, b)
  {
    var after := Hasten(queue, n, t);
    forall x, y | 0 <= x < |after| && 0 <= y < |after| && after[x] == a && after[y] == b ensures x < y {
      var x0 := if x < n || x > t then x else if x == n then t else x - 1;
      var y0 := if y < n || y > t then y else if y == n then t else y - 1;
      assert queue[x0] == a && queue[y0] == b;
      assert x0 >= n ==> queue[n..][x0 - n] == a;
    }
  }

  /** `c'` is `c` with message `t` of the queue of `x` hastened. */
  predicate HastensTo(c: Ports, c': Ports, x: ActorId, n: nat, t: nat) {
    x < |c.queues| && n <= t < |c.queues[x]| && c' == c.(queues := c.queues[x := Hasten(c.queues[x], n, t)])
  }

  // Behind the queue of `o` there is in the queue of `c` what is pending.
  lemma TailIsPending(o: Ports, c: Ports, x: ActorId, y: nat)
    requires Settles(o, c) && x < |o.queues| && |o.queues[x]| <= y < |c.queues[x]|
    ensures Pending(o, c.queues[x][y]) > 0
  {
    var n, m := |o.queues[x]|, c.queues[x][y];
    assert Settled(o, c, x) && SettledMail(o, c, x, m);
    assert c.queues[x] == o.queues[x] + c.queues[x][n..];
    assert multiset(c.queues[x]) == multiset(o.queues[x]) + multiset(c.queues[x][n..]);
    assert c.queues[x][n..][y - n] == m;
  }

  lemma PendingIsTail(o: Ports, c: Ports, m: Msg) returns (t: nat)
    requires Settles(o, c) && Pending(o, m) > 0 && Receiver(o.parent, m) < |o.queues|
    ensures var x := Receiver(o.parent, m);
            |o.queues[x]| <= t < |c.queues[x]| && c.queues[x][t] == m
  {
    var x := Receiver(o.parent, m);
    assert Settled(o, c, x) && SettledMail(o, c, x, m);
    var tail := c.queues[x][|o.queues[x]|..];
    assert c.queues[x] == o.queues[x] + tail;
    assert multiset(c.queues[x]) == multiset(o.queues[x]) + multiset(tail);
    assert m in multiset(tail);
    t :| 0 <= t < |tail| && tail[t] == m;
    t := t + |o.queues[x]|;
  }

  lemma SendPending(o: Ports, i: ActorId, m: Msg)
    requires Tidy(o) && HasToPublish(o, i)
    ensures Pending(o, m) == Pending(Send(o, i), m) + Bit(m == o.outboxes[i][0] && Heard(m))
    ensures Tidy(Send(o, i))
  {
    var out, o' := o.outboxes[i], Send(o, i);
    assert TidyBox(o.parent, i, out) && out == [out[0]] + out[1..];
    Popped(out, m);
    forall k | 0 <= k < |o'.outboxes| ensures TidyBox(o'.parent, k, o'.outboxes[k]) {
      assert TidyBox(o.parent, k, o.outboxes[k]);
      assert forall a :: a in out[1..] ==> a in out;
    }
  }

  /** The settled view follows the publication of the first message in the outbox of `i`. */
  ghost predicate Emits(o: Ports, c: Ports, i: ActorId, t: nat, c': Ports) {
    && HasToPublish(o, i)
    && var m := o.outboxes[i][0];
    var x := Receiver(o.parent, m);
    if Heard(m) then x < |o.queues| && HastensTo(c, c', x, |o.queues[x]|, t) && c.queues[x][t] == m else c' == c
  }

  function Added(o: Ports, m: Msg, x: ActorId): seq<Msg> { if Heard(m) && Receiver(o.parent, m) == x then [m] else [] }

  lemma SendsTo(o: Ports, i: ActorId, x: ActorId)
    requires HasToPublish(o, i) && x < |o.queues|
    ensures |Send(o, i).queues| == |o.queues| && Send(o, i).queues[x] == o.queues[x] + Added(o, o.outboxes[i][0], x)
  {
    MailOfOne(o.parent, o.outboxes[i][0], x);
  }

  lemma SendQueue(o: Ports, c: Ports, i: ActorId, t: nat, c': Ports, x: ActorId)
    requires SameActors(o, c) && Emits(o, c, i, t, c') && x < |o.queues| && o.queues[x] <= c.queues[x]
    ensures |c'.queues| == |c.queues| && o.queues[x] + Added(o, o.outboxes[i][0], x) <= c'.queues[x]
    ensures multiset(c'.queues[x]) == multiset(c.queues[x])
  {
    var m := o.outboxes[i][0];
    if Heard(m) && Receiver(o.parent, m) == x {
      HastenCounts(c.queues[x], |o.queues[x]|, t);
      HastenPrefix(o.queues[x], c.queues[x], t);
    }
  }

  lemma HastenPrefix(front: seq<Msg>, queue: seq<Msg>, t: nat)
    requires front <= queue && |front| <= t < |queue|
    ensures front + [queue[t]] <= Hasten(queue, |front|, t)
  {
  }

  lemma SendSettled(o: Ports, c: Ports, i: ActorId, t: nat, c': Ports, x: ActorId)
    requires Settles(o, c) && Emits(o, c, i, t, c') && x < |o.queues|
    ensures Settled(Send(o, i), c', x)
  {
    assert Settled(o, c, x);
    SendsTo(o, i, x);
    SendQueue(o, c, i, t, c', x);
    forall a ensures SettledMail(Send(o, i), c', x, a) {
      assert SettledMail(o, c, x, a);
      SendPending(o, i, a);
      MoreCounts(o.queues[x], Added(o, o.outboxes[i][0], x), a);
    }
  }

  lemma MoreCounts(a: seq<Msg>, more: seq<Msg>, m: Msg)
    ensures multiset(a + more)[m] == multiset(a)[m] + multiset(more)[m]
  {
  }

  /** A publication hastens one message. */
  lemma SendSettles(o: Ports, c: Ports, i: ActorId) returns (c': Ports, t: nat)
    requires Settles(o, c) && HasToPublish(o, i)
    ensures Settles(Send(o, i), c') && Emits(o, c, i, t, c')
  {
    var m := o.outboxes[i][0];
    assert TidyBox(o.parent, i, o.outboxes[i]);
    SendPending(o, i, m);
    c', t := c, 0;
    if Heard(m) {
      var x := Receiver(o.parent, m);
      t := PendingIsTail(o, c, m);
      c' := c.(queues := c.queues[x := Hasten(c.queues[x], |o.queues[x]|, t)]);
    }
    forall y | 0 <= y < |o.queues| ensures Settled(Send(o, i), c', y) {
      SendSettled(o, c, i, t, c', y);
    }
  }

  // ----- publishing Stop -----

  lemma StopSettled(o: Ports, c: Ports, c': Ports, x: ActorId)
    requires Settles(o, c) && x < |o.queues| && HastensTo(WithStop(c), c', 0, |o.queues[0]|, |c.queues[0]|)
    ensures Settled(WithStop(o), c', x)
  {
    assert Settled(o, c, x);
    if x == 0 {
      HastenCounts(c.queues[0] + [Stop], |o.queues[0]|, |c.queues[0]|);
      HastenPrefix(o.queues[0], c.queues[0] + [Stop], |c.queues[0]|);
    }
    forall m ensures SettledMail(WithStop(o), c', x, m) {
      assert SettledMail(o, c, x, m) && Pending(WithStop(o), m) == Pending(o, m);
      MoreCounts(o.queues[x], [Stop], m);
      MoreCounts(c.queues[x], [Stop], m);
    }
  }

  /** The settled view takes in `Stop`, which goes ahead of everything pending. */
  lemma StopSettles(o: Ports, c: Ports) returns (c': Ports)
    requires Settles(o, c)
    ensures Settles(WithStop(o), c') && HastensTo(WithStop(c), c', 0, |o.queues[0]|, |c.queues[0]|)
  {
    assert Settled(o, c, 0);
    var n, t := |o.queues[0]|, |c.queues[0]|;
    var o', c1 := WithStop(o), WithStop(c);
    c' := c1.(queues := c1.queues[0 := Hasten(c1.queues[0], n, t)]);
    forall x | 0 <= x < |o'.queues| ensures Settled(o', c', x) { StopSettled(o, c, c', x); }
    forall i | 0 <= i < |o'.outboxes| ensures TidyBox(o'.parent, i, o'.outboxes[i]) { assert TidyBox(o.parent, i, o.outboxes[i]); }
  }

  // ----- up to Stop -----

  lemma HastenMirrors(c: Ports, v: System, c': Ports, x: ActorId, n: nat, t: nat)
    requires Mirrors(c, v) && HastensTo(c, c', x, n, t)
    ensures Mirrors(c', v)
  {
    HastenCounts(c.queues[x], n, t);
    forall y | 0 <= y < |c'.nodes| ensures Mirrored(c', v, y) {
      assert Mirrored(c, v, y);
      forall m ensures SameMailOf(c', v, y, m) { assert SameMailOf(c, v, y, m); }
    }
  }

  lemma FreshSettles(parent: seq<ActorId>)
    requires IsTree(parent)
    ensures Settles(Fresh(parent), Fresh(parent))
  {
    var o := Fresh(parent);
    forall m ensures Pending(o, m) == 0 { }
  }

  lemma ActMirrors(o: Ports, act: Act, o': Ports, c: Ports, v: System) returns (c': Ports, v': System)
    requires Settles(o, c) && Mirrors(c, v) && WaveInv(v) && Acts(o, act, o')
    ensures Settles(o', c') && Mirrors(c', v') && WaveInv(v') && v'.parent == v.parent
  {
    var i := act.i;
    if act.Begin? {
      assert Settled(o, c, i) && Mirrored(c, v, i) && SameMailOf(c, v, i, c.queues[i][0]);
      HeadIsDeliverable(c, v, i);
      TakeSettles(o, c, i);
      v' := ServeMirrors(c, v, i);
      c' := Serve(c, i);
    } else {
      var t: nat;
      c', t := SendSettles(o, c, i);
      v' := v;
      var m := o.outboxes[i][0];
      if Heard(m) { HastenMirrors(c, v, c', Receiver(o.parent, m), |o.queues[Receiver(o.parent, m)]|, t); }
    }
  }

  /** Up to the publication of `Stop` the ordered system, once settled, is in a state of the unordered one. */
  lemma {:induction false} ReachMirrors(parent: seq<ActorId>, states: seq<Ports>, turns: seq<Turn>, k: nat) returns (c: Ports, v: System)
    requires IsTree(parent) && IsChain(Goes, states, turns) && states[0] == Fresh(parent)
    requires k <= |turns| && states[k].stops == 0
    ensures Settles(states[k], c) && Mirrors(c, v) && WaveInv(v) && v.parent == parent
  {
    if k == 0 {
      FreshMirrors(parent);
      FreshSettles(parent);
      c, v := Fresh(parent), Created(parent);
    } else {
      assert Goes(states[k - 1], turns[k - 1], states[k]);
      var b, u := ReachMirrors(parent, states, turns, k - 1);
      c, v := ActMirrors(states[k - 1], turns[k - 1].act, states[k], b, u);
    }
  }
}
