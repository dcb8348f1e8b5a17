/**
 The harmful early `Stop`: a child `j` of the fork has not confirmed its start. Nothing below `j`
 moves any more; the other children start, one of them also stops, and its two confirmations and
 those of the others fill the counter of the fork, which takes itself for stopped.
 */
module EarlyStopOvertakes {
  import opened Totals
  import opened Chains
  import opened LifeCycle
  import opened LifeCycleInvariant
  import opened LifeCycleSteps
  import opened LifeCycleTheorems
  import opened LifeCyclePorts
  import opened LifeCycleMirror
  import opened LifeCycleSettled
  import opened LifeCycleSpine
  import opened EarlyStopSafe

  lemma LeadsOn(o: Ports, i: ActorId, o1: Ports, o2: Ports)
    requires HasMail(o, i) && i < |o.outboxes| && o.outboxes[i] == [] && o1 == Serve(o, i) && Leads(o1, o2)
    ensures Leads(o, o2)
  {
    ServeLeads(o, i);
    ConnectsAcross(Acts, o, o1, o2);
  }

  /** `j` is not stopped, and nobody else is in the middle of a handler. */
  ghost predicate Frozen(o: Ports, j: ActorId) {
    && j < |o.nodes| && o.nodes[j].state != STOPPED
    && forall x :: 0 <= x < |o.outboxes| && x != j ==> o.outboxes[x] == []
  }

  // ----- the other children start -----

  /** `f` is the fork, `j` a child of it. */
  ghost predicate Forked(o: Ports, f: ActorId, j: ActorId) {
    Shaped(o) && f < |o.parent| && IsFork(o.parent, f) && KidOf(o, j, f)
  }

  /** `x` has the mail that `v` has for it and, if it is the root, `Stop`; but the start of `j` is not confirmed to anybody. */
  ghost predicate IgnoredMail(o: Ports, v: System, j: ActorId, x: ActorId, m: Msg)
    requires x < |o.queues|
  {
    multiset(o.queues[x])[m] == (if Receiver(v.parent, m) == x && m != PrivCnf(StartWave, j) then v.flight[m] else 0)
                                + Bit(x == 0 && m == Stop)
  }

  ghost predicate IgnoredAt(o: Ports, v: System, j: ActorId, x: ActorId) {
    x < |o.nodes| && x < |v.nodes| && x < |o.queues| && o.nodes[x] == Bare(v.nodes[x]) && forall m :: IgnoredMail(o, v, j, x, m)
  }

  /** `o` is `v` with `Stop` in the root's queue, and nobody has answered it. */
  ghost predicate Ignored(o: Ports, v: System, f: ActorId, j: ActorId) {
    && SameTree(o, v) && Forked(o, f, j) && o.running && WaveInv(v) && v.stops == 0 && Frozen(o, j)
    && v.nodes[f].stage == 2 && v.nodes[j].stage <= 3
    && forall x :: 0 <= x < |o.nodes| ==> IgnoredAt(o, v, j, x)
  }

  lemma IgnoredMirrors(o: Ports, v: System, f: ActorId, j: ActorId, x: ActorId)
    requires Ignored(o, v, f, j) && 0 < x < |o.nodes| && x != f
    ensures Mirrored(o, v, x)
  {
    assert IgnoredAt(o, v, j, x);
    forall m ensures SameMailOf(o, v, x, m) { assert IgnoredMail(o, v, j, x, m); }
  }

  lemma BelowKid(o: Ports, f: ActorId, i: ActorId, x: ActorId)
    requires Shaped(o) && f < |o.parent| && KidOf(o, i, f) && x < |o.parent| && Descends(o.parent, x, i)
    ensures f < i <= x && (x > i ==> o.parent[x] >= i)
    ensures forall k: ActorId :: KidOf(o, k, f) && k != i ==> k != x && o.parent[k] != x
  {
    DescendsLater(o.parent, x, i);
    if x > i { DescendsLater(o.parent, o.parent[x], i); }
    forall k: ActorId | KidOf(o, k, f) && k != i ensures k != x {
      Apart(o.parent, x, i, k);
    }
  }

  lemma IgnoredAnswer(o: Ports, v: System, f: ActorId, j: ActorId, i: ActorId, x: ActorId)
    requires Ignored(o, v, f, j) && KidOf(o, i, f) && i != j && x < |o.parent| && Descends(o.parent, x, i) && HasMail(o, x)
    ensures SameAnswer(o, v, x) && o.queues[x][0] != PrivCnf(StopWave, 0) && o.outboxes[x] == []
    ensures x != f && x != j && (f > 0 ==> o.parent[f] != x) && o.parent[j] != x
  {
    BelowKid(o, f, i, x);
    IgnoredMirrors(o, v, f, j, x);
    assert SameMailOf(o, v, x, o.queues[x][0]);
    HeadIsDeliverable(o, v, x);
    ReactBare(o.parent, x, v.nodes[x], o.queues[x][0]);
  }

  lemma IgnoredStep(o: Ports, v: System, f: ActorId, j: ActorId, i: ActorId, x: ActorId) returns (v': System)
    requires Ignored(o, v, f, j) && KidOf(o, i, f) && i != j && x < |o.parent| && Descends(o.parent, x, i) && HasMail(o, x)
    ensures Ignored(Serve(o, x), v', f, j) && Left(v') < Left(v) && o.outboxes[x] == []
  {
    var msg := o.queues[x][0];
    IgnoredAnswer(o, v, f, j, i, x);
    v' := Deliver(v, msg);
    HandleKept(v, v', msg);
    HandleAdvances(v, v', msg);
    DeliverReacts(v, msg, 0);
    IgnoredShape(o, v, x, v');
    DeliverLocal(v, msg, f);
    DeliverLocal(v, msg, j);
    SameToTell(v, v', j);
    forall y | 0 <= y < |o.nodes| ensures IgnoredAt(Serve(o, x), v', j, y) {
      assert IgnoredAt(o, v, j, y) && IgnoredAt(o, v, j, x);
      IgnoredAtKept(o, v, j, x, v', y);
    }
  }

  lemma SameToTell(v: System, v': System, j: ActorId)
    requires InFlight(v) && InFlight(v') && StageAt(v', j) == StageAt(v, j)
    ensures v'.flight[PrivCnf(StartWave, j)] == v.flight[PrivCnf(StartWave, j)]
  {
    var m := PrivCnf(StartWave, j);
    assert v.flight[m] == Expected(v, m) && v'.flight[m] == Expected(v', m);
  }

  lemma IgnoredAtKept(o: Ports, v: System, j: ActorId, x: ActorId, v': System, y: ActorId)
    requires SameTree(o, v) && SameAnswer(o, v, x) && v' == Deliver(v, o.queues[x][0]) && SameShape(v, v')
    requires IgnoredAt(o, v, j, x) && IgnoredAt(o, v, j, y)
    requires v'.flight[PrivCnf(StartWave, j)] == v.flight[PrivCnf(StartWave, j)]
    ensures IgnoredAt(Serve(o, x), v', j, y)
  {
    ReactBare(o.parent, x, v.nodes[x], o.queues[x][0]);
    DeliverReacts(v, o.queues[x][0], y);
    forall m ensures IgnoredMail(Serve(o, x), v', j, y, m) {
      assert IgnoredMail(o, v, j, y, m);
      IgnoredMailKept(o, v, j, x, v', y, m);
    }
  }

  lemma IgnoredMailKept(o: Ports, v: System, j: ActorId, x: ActorId, v': System, y: ActorId, m: Msg)
    requires SameTree(o, v) && SameAnswer(o, v, x) && v' == Deliver(v, o.queues[x][0]) && y < |o.queues|
    requires IgnoredMail(o, v, j, y, m) && v'.parent == v.parent
    requires v'.flight[PrivCnf(StartWave, j)] == v.flight[PrivCnf(StartWave, j)]
    ensures y < |Serve(o, x).queues| && IgnoredMail(Serve(o, x), v', j, y, m)
  {
    MailChanges(o, v, x, y, m);
  }

  lemma IgnoredShape(o: Ports, v: System, x: ActorId, v': System)
    requires SameTree(o, v) && o.running && HasMail(o, x) && SameShape(v, v')
    ensures SameTree(Serve(o, x), v')
    ensures o.queues[x][0] != PrivCnf(StopWave, 0) ==> Serve(o, x).running
  {
  }

  ghost predicate OthersUp(o: Ports, v: System, f: ActorId, j: ActorId) {
    forall k: ActorId :: KidOf(o, k, f) && k != j ==> k < |v.nodes| && v.nodes[k].stage >= 3
  }

  /** Every child but `j` starts, with everybody below it. */
  lemma {:induction false} OthersStart(o: Ports, v: System, f: ActorId, j: ActorId) returns (o': Ports, v': System)
    requires Ignored(o, v, f, j)
    ensures Ignored(o', v', f, j) && OthersUp(o', v', f, j) && Leads(o, o') && o'.parent == o.parent
    decreases Left(v)
  {
    if OthersUp(o, v, f, j) {
      o', v' := o, v;
      ConnectsSelf(Acts, o);
    } else {
      var i: ActorId :| KidOf(o, i, f) && i != j && v.nodes[i].stage < 3;
      assert IsKid(v, i, f) && EdgeSound(StageAt(v, f), StageAt(v, i));
      var msg := Active(v, StartWave, i);
      var x := Receiver(v.parent, msg);
      BelowKid(o, f, i, x);
      IgnoredMirrors(o, v, f, j, x);
      assert SameMailOf(o, v, x, msg);
      assert msg in multiset(o.queues[x]);
      var v1 := IgnoredStep(o, v, f, j, i, x);
      o', v' := OthersStart(Serve(o, x), v1, f, j);
      LeadsOn(o, x, Serve(o, x), o');
    }
  }

  // ----- confirmations in a queue -----

  function Cnfs(queue: seq<Msg>): nat {
    if queue == [] then 0 else (if StartCnf(queue[0]) then 1 else 0) + Cnfs(queue[1..])
  }

  lemma {:induction false} CnfsAppend(queue: seq<Msg>, more: seq<Msg>)
    requires forall m :: 0 <= m < |more| ==> !StartCnf(more[m])
    ensures Cnfs(queue + more) == Cnfs(queue)
  {
    if queue == [] {
      assert queue + more == more;
      if more != [] { CnfsAppend([], more[1..]); assert [] + more[1..] == more[1..]; }
    } else {
      assert (queue + more)[1..] == queue[1..] + more;
      CnfsAppend(queue[1..], more);
    }
  }

  /** With one confirmation of each of `s` there are so many. */
  lemma {:induction false} CnfsCount(queue: seq<Msg>, s: set<ActorId>)
    requires forall k: ActorId :: multiset(queue)[PrivCnf(StartWave, k)] == Bit(k in s)
    ensures Cnfs(queue) == |s|
  {
    if queue == [] {
      assert forall k: ActorId :: k in s ==> multiset(queue)[PrivCnf(StartWave, k)] == 1;
      assert s == {};
    } else {
      var first, rest := queue[0], queue[1..];
      forall k: ActorId ensures multiset(rest)[PrivCnf(StartWave, k)] == multiset(queue)[PrivCnf(StartWave, k)] - Bit(PrivCnf(StartWave, k) == first) {
        Popped(queue, PrivCnf(StartWave, k));
      }
      if StartCnf(first) {
        assert first == PrivCnf(StartWave, first.from) && first in multiset(queue);
        CnfsCount(rest, s - {first.from});
      } else {
        CnfsCount(rest, s);
      }
    }
  }

  lemma MovedCnfs(before: seq<Msg>, after: seq<Msg>)
    requires Moved(before, after)
    ensures Cnfs(after) == Cnfs(before)
    ensures forall k: ActorId :: PrivCnf(StartWave, k) in after ==> PrivCnf(StartWave, k) in before
  {
    var more: seq<Msg> :|
      && (forall m :: 0 <= m < |more| ==> !StartCnf(more[m]))
      && (after == before + more || (before != [] && !StartCnf(before[0]) && after == before[1..] + more));
    if after == before + more { CnfsAppend(before, more); } else { CnfsAppend(before[1..], more); }
  }

  // ----- Stop runs down to the fork and into one child -----

  const STARTED_NODE: Node := Node(STARTED, 0, 1, 0, DORMANT)

  predicate Above(o: Ports, f: ActorId, y: ActorId)
    requires Shaped(o) && f < |o.parent|
  {
    y < |o.parent| && Descends(o.parent, f, y)
  }

  /** The fork has heard all confirmations of starts but one, or has them in its queue, ahead of the stop of `i`. */
  ghost predicate Filling(o: Ports, v: System, f: ActorId, i: ActorId)
    requires SameTree(o, v) && f < |o.nodes|
  {
    && o.nodes[f].cnfCount + Cnfs(o.queues[f]) + 1 == |Kids(o.parent, f)|
    && (forall m :: !StartCnf(m) ==> SameMailOf(o, v, f, m))
    && (forall k: ActorId :: Ahead(o.queues[f], PrivCnf(StartWave, k), PrivCnf(StopWave, i)))
    && PrivCnf(StartWave, 0) !in o.queues[f]
  }

  /** The fork and everybody above it are late, in the eyes of `v` they have started. */
  ghost predicate LateDown(o: Ports, v: System, f: ActorId)
    requires SameTree(o, v) && f < |o.nodes|
  {
    forall y: ActorId :: Above(o, f, y) ==>
      && o.nodes[y] == Node(CTOR_FINISHED, o.nodes[y].cnfCount, 0, 0, DORMANT) && Bare(v.nodes[y]) == STARTED_NODE
      && (y != f ==> o.nodes[y].cnfCount == 0 && SameMail(o, v, y))
  }

  ghost predicate OthersWait(o: Ports, v: System, f: ActorId, i: ActorId)
    requires SameTree(o, v)
  {
    forall k: ActorId :: KidOf(o, k, f) && k != i ==> v.nodes[k].stage <= 5
  }

  ghost predicate BelowMirrored(o: Ports, v: System, i: ActorId)
    requires SameTree(o, v)
  {
    forall x: ActorId :: x < |o.parent| && Descends(o.parent, x, i) ==> Mirrored(o, v, x)
  }

  /** `i`, another child, and everybody below it do as in the started tree `v`. */
  ghost predicate Overtaking(o: Ports, v: System, f: ActorId, j: ActorId, i: ActorId) {
    && SameTree(o, v) && Forked(o, f, j) && KidOf(o, i, f) && i != j && Frozen(o, j)
    && o.running && v.running && WaveInv(v) && v.stops == 1
    && LateDown(o, v, f) && Filling(o, v, f, i) && OthersWait(o, v, f, i) && BelowMirrored(o, v, i)
  }

  lemma ForkStage(o: Ports, v: System, f: ActorId, j: ActorId, i: ActorId)
    requires Overtaking(o, v, f, j, i)
    ensures 4 <= v.nodes[f].stage <= 6 && v.nodes[i].stage <= 7
    ensures v.flight[PrivCnf(StopWave, 0)] == 0
    ensures f > 0 ==> v.nodes[0].stage <= 6
  {
    assert Above(o, f, f);
    assert NodeSound(v.nodes[f]) && CountSound(v, f);
    AllBeyondStart(v, f);
    AllBeyondStart(v, i);
    assert IsKid(v, i, f);
    if v.nodes[f].stage == 6 { NotCounted(v, f, i); }
    AllDescendFromRoot(o.parent, f);
    assert Above(o, f, 0);
    NotStopped(v, 0);
    assert NodeSound(v.nodes[0]);
  }

  lemma NotCounted(v: System, f: ActorId, i: ActorId)
    requires WaveInv(v) && f < |v.nodes| && v.nodes[f].stage == 6 && v.nodes[f].cnfCount == 0 && IsKid(v, i, f)
    ensures StageAt(v, i) != 8
  {
    assert CountSound(v, f);
    var kids := Kids(v.parent, f);
    KidsMembers(v.parent, f);
    TotalZero(StagesOf(v, kids), IsDown);
    var m :| 0 <= m < |kids| && kids[m] == i;
    assert IsDown(StagesOf(v, kids)[m]) == 0;
  }

  // Nobody at the spine or below `i` is in the middle of a handler.
  lemma OvertakingLeads(o: Ports, v: System, f: ActorId, j: ActorId, i: ActorId, x: ActorId, o': Ports)
    requires Overtaking(o, v, f, j, i) && x < |o.parent| && (Above(o, f, x) || Descends(o.parent, x, i))
    requires HasMail(o, x) && Leads(Serve(o, x), o')
    ensures Leads(o, o')
  {
    KidNotServed(o, f, j, i, x);
    LeadsOn(o, x, Serve(o, x), o');
  }

  // A message handled on both sides, at the spine or below `i`.
  lemma BothStep(o: Ports, v: System, f: ActorId, j: ActorId, i: ActorId, x: ActorId, v': System)
    requires Overtaking(o, v, f, j, i) && SameAnswer(o, v, x) && SameMailOf(o, v, x, o.queues[x][0])
    requires !StartCnf(o.queues[x][0]) && v' == Deliver(v, o.queues[x][0]) && WaveInv(v')
    requires x < |o.parent| && (Above(o, f, x) || Descends(o.parent, x, i))
    requires Above(o, f, x) ==>
               && Bare(React(o.parent, x, o.nodes[x], o.queues[x][0]).node) == o.nodes[x]
               && Bare(React(v.parent, x, v.nodes[x], o.queues[x][0]).node) == Bare(v.nodes[x])
    requires forall k: ActorId :: KidOf(o, k, f) && k != i ==> k < |v'.nodes| && v'.nodes[k].stage <= 5
    ensures Overtaking(Serve(o, x), v', f, j, i)
  {
    var o' := Serve(o, x);
    ForkStage(o, v, f, j, i);
    DeliverReacts(v, o.queues[x][0], x);
    BothShape(o, v, x, v');
    KidNotServed(o, f, j, i, x);
    BothLateDown(o, v, f, x, v');
    BothFilling(o, v, f, i, x, v');
    BothBelow(o, v, f, j, i, x, v');
  }

  lemma BothBelow(o: Ports, v: System, f: ActorId, j: ActorId, i: ActorId, x: ActorId, v': System)
    requires Overtaking(o, v, f, j, i) && SameAnswer(o, v, x) && v' == Deliver(v, o.queues[x][0])
    requires SameTree(Serve(o, x), v')
    ensures BelowMirrored(Serve(o, x), v', i)
  {
    forall y: ActorId | y < |o.parent| && Descends(o.parent, y, i) ensures Mirrored(Serve(o, x), v', y) {
      BelowKept(o, v, f, j, i, x, y);
    }
  }

  lemma BelowKept(o: Ports, v: System, f: ActorId, j: ActorId, i: ActorId, x: ActorId, y: ActorId)
    requires Overtaking(o, v, f, j, i) && SameAnswer(o, v, x) && y < |o.parent| && Descends(o.parent, y, i)
    ensures Mirrored(Serve(o, x), Deliver(v, o.queues[x][0]), y)
  {
    assert Mirrored(o, v, y);
    if y == x { MirrorKept(o, v, x, x); } else { BystanderKept(o, v, x, y); }
  }

  lemma BothShape(o: Ports, v: System, x: ActorId, v': System)
    requires SameTree(o, v) && SameAnswer(o, v, x) && SameMailOf(o, v, x, o.queues[x][0]) && v.flight[PrivCnf(StopWave, 0)] == 0
    requires SameShape(v, v')
    ensures SameTree(Serve(o, x), v') && Serve(o, x).running == o.running
  {
    assert o.queues[x][0] in multiset(o.queues[x]);
  }

  lemma KidNotServed(o: Ports, f: ActorId, j: ActorId, i: ActorId, x: ActorId)
    requires Shaped(o) && f < |o.parent| && KidOf(o, j, f) && KidOf(o, i, f) && i != j && x < |o.parent|
    requires Above(o, f, x) || Descends(o.parent, x, i)
    ensures x != j
  {
    if Above(o, f, x) { DescendsLater(o.parent, f, x); } else { BelowKid(o, f, i, x); }
  }

  lemma BothLateDown(o: Ports, v: System, f: ActorId, x: ActorId, v': System)
    requires SameTree(o, v) && f < |o.nodes| && LateDown(o, v, f) && SameAnswer(o, v, x) && v' == Deliver(v, o.queues[x][0])
    requires Above(o, f, x) ==>
               && Bare(React(o.parent, x, o.nodes[x], o.queues[x][0]).node) == o.nodes[x]
               && Bare(React(v.parent, x, v.nodes[x], o.queues[x][0]).node) == Bare(v.nodes[x])
    requires SameTree(Serve(o, x), v')
    ensures LateDown(Serve(o, x), v', f)
  {
    forall y: ActorId | Above(o, f, y)
      ensures Serve(o, x).nodes[y] == o.nodes[y] && Bare(v'.nodes[y]) == Bare(v.nodes[y])
      ensures y != f ==> SameMail(Serve(o, x), v', y)
    {
      OneStaysLate(o, v, f, x, v', y);
    }
  }

  lemma OneStaysLate(o: Ports, v: System, f: ActorId, x: ActorId, v': System, y: ActorId)
    requires SameTree(o, v) && f < |o.nodes| && SameAnswer(o, v, x) && v' == Deliver(v, o.queues[x][0]) && y < |o.nodes|
    requires y == x ==>
               && Bare(React(o.parent, x, o.nodes[x], o.queues[x][0]).node) == o.nodes[x]
               && Bare(React(v.parent, x, v.nodes[x], o.queues[x][0]).node) == Bare(v.nodes[x])
    requires y != f ==> SameMail(o, v, y)
    ensures SameShape(v, v') && Serve(o, x).nodes[y] == o.nodes[y] && Bare(v'.nodes[y]) == Bare(v.nodes[y])
    ensures y != f ==> SameMail(Serve(o, x), v', y)
  {
    DeliverReacts(v, o.queues[x][0], y);
    if y != f { AllMailFollows(o, v, x, y); }
  }

  lemma BothFilling(o: Ports, v: System, f: ActorId, i: ActorId, x: ActorId, v': System)
    requires SameTree(o, v) && f < |o.nodes| && Filling(o, v, f, i) && WaveInv(v) && v.stops == 1
    requires SameAnswer(o, v, x) && SameMailOf(o, v, x, o.queues[x][0])
    requires !StartCnf(o.queues[x][0]) && v' == Deliver(v, o.queues[x][0]) && SameTree(Serve(o, x), v')
    requires Above(o, f, x) ==> Bare(React(o.parent, x, o.nodes[x], o.queues[x][0]).node) == o.nodes[x]
    ensures Filling(Serve(o, x), v', f, i)
  {
    var before, after := o.queues[f], Serve(o, x).queues[f];
    assert Above(o, f, f);
    QueueMoved(o, v, x, f);
    MovedCnfs(before, after);
    forall m | !StartCnf(m) ensures SameMailOf(Serve(o, x), v', f, m) { MailFollows(o, v, x, f, m); }
    forall k: ActorId ensures Ahead(after, PrivCnf(StartWave, k), PrivCnf(StopWave, i)) {
      MovedKeeps(before, after, PrivCnf(StartWave, k), PrivCnf(StopWave, i));
    }
  }

  // ----- the spine -----

  /** While the fork has not been reached, `Stop` or a request is in flight to somebody above it, or to it. */
  lemma {:induction false} OnTheWay(v: System, y: ActorId) returns (z: ActorId, msg: Msg)
    requires WaveInv(v) && v.stops == 1 && y < |v.nodes| && v.nodes[y].stage <= 5
    ensures z < |v.nodes| && Descends(v.parent, y, z) && v.nodes[z].stage <= 5
    ensures v.flight[msg] > 0 && Receiver(v.parent, msg) == z
  {
    AllBeyondStart(v, y);
    if v.nodes[y].stage == 5 {
      z, msg := y, Req(StopWave, y);
      assert v.flight[msg] == Expected(v, msg);
    } else if y == 0 {
      z, msg := 0, Stop;
      assert v.flight[msg] == Expected(v, msg);
    } else {
      var p := v.parent[y];
      assert IsKid(v, y, p);
      AllBeyondStart(v, p);
      z, msg := OnTheWay(v, p);
    }
  }

  lemma SpineHead(o: Ports, v: System, f: ActorId, j: ActorId, i: ActorId, z: ActorId)
    requires Overtaking(o, v, f, j, i) && Above(o, f, z) && v.nodes[z].stage <= 5
    requires HasMail(o, z) && !StartCnf(o.queues[z][0])
    ensures o.queues[z][0] == Stop || o.queues[z][0] == Req(StopWave, z)
    ensures SameMailOf(o, v, z, o.queues[z][0]) && SameAnswer(o, v, z)
    ensures Bare(React(o.parent, z, o.nodes[z], o.queues[z][0]).node) == o.nodes[z]
    ensures Bare(React(v.parent, z, v.nodes[z], o.queues[z][0]).node) == Bare(v.nodes[z])
  {
    var msg := o.queues[z][0];
    assert SameMailOf(o, v, z, msg);
    assert msg in multiset(o.queues[z]);
    HeadIsDeliverable(o, v, z);
    ForkStage(o, v, f, j, i);
    FlightIsHeard(v, msg);
    AboveHasKids(o, f, z);
    if msg.Req? {
      NoStartMail(v, Req(StartWave, msg.to));
      assert msg == Req(if msg.wave.StartWave? then StartWave else StopWave, msg.to);
    } else if msg.PrivCnf? && msg.from > 0 {
      assert msg == PrivCnf(StopWave, msg.from);
      assert v.flight[msg] == Expected(v, msg);
      ToldStage(v, StopWave, msg.from);
    }
  }

  lemma AboveHasKids(o: Ports, f: ActorId, z: ActorId)
    requires Shaped(o) && f < |o.parent| && |Kids(o.parent, f)| >= 2 && Above(o, f, z)
    ensures Kids(o.parent, z) != []
  {
    if z != f { HasKid(o.parent, f, z); }
  }

  lemma SpineStep(o: Ports, v: System, f: ActorId, j: ActorId, i: ActorId, z: ActorId) returns (v': System)
    requires Overtaking(o, v, f, j, i) && Above(o, f, z) && v.nodes[z].stage <= 5
    requires HasMail(o, z) && !StartCnf(o.queues[z][0])
    ensures Overtaking(Serve(o, z), v', f, j, i) && Left(v') < Left(v)
  {
    var msg := o.queues[z][0];
    SpineHead(o, v, f, j, i, z);
    v' := Deliver(v, msg);
    HandleKept(v, v', msg);
    HandleAdvances(v, v', msg);
    forall k: ActorId | KidOf(o, k, f) && k != i ensures k < |v'.nodes| && v'.nodes[k].stage <= 5 {
      DescendsLater(o.parent, f, z);
      if msg == Stop { StopStages(v, k, v'); } else { RequestStages(v, z, k, v'); }
    }
    BothStep(o, v, f, j, i, z, v');
  }

  // The fork counts one more start confirmation, which `v` knows nothing of.
  lemma CountStep(o: Ports, v: System, f: ActorId, j: ActorId, i: ActorId)
    requires Overtaking(o, v, f, j, i) && HasMail(o, f) && StartCnf(o.queues[f][0])
    ensures Overtaking(Serve(o, f), v, f, j, i) && |Serve(o, f).queues[f]| < |o.queues[f]|
  {
    var queue := o.queues[f];
    var k := queue[0].from;
    var o' := Serve(o, f);
    assert queue[0] == PrivCnf(StartWave, k) && Above(o, f, f);
    ServeCounts(o, f, StartWave, k);
    forall m | !StartCnf(m) ensures SameMailOf(o', v, f, m) {
      assert SameMailOf(o, v, f, m);
      Popped(queue, m);
    }
    forall c: ActorId ensures Ahead(queue[1..], PrivCnf(StartWave, c), PrivCnf(StopWave, i)) {
      AheadPopped(queue, PrivCnf(StartWave, c), PrivCnf(StopWave, i));
    }
    assert queue == [queue[0]] + queue[1..];
    forall y: ActorId | Above(o', f, y)
      ensures o'.nodes[y] == Node(CTOR_FINISHED, o'.nodes[y].cnfCount, 0, 0, DORMANT) && Bare(v.nodes[y]) == STARTED_NODE
      ensures y != f ==> o'.nodes[y].cnfCount == 0 && SameMail(o', v, y)
    {
      assert Above(o, f, y);
      if y != f {
        forall m ensures SameMailOf(o', v, y, m) { assert SameMailOf(o, v, y, m); }
      }
    }
    forall x: ActorId | x < |o'.parent| && Descends(o'.parent, x, i) ensures Mirrored(o', v, x) {
      BelowKid(o, f, i, x);
      assert Mirrored(o, v, x);
      forall m ensures SameMailOf(o', v, x, m) { assert SameMailOf(o, v, x, m); }
    }
  }

  /** `Stop` comes down to the fork. */
  lemma {:induction false} ReachesFork(o: Ports, v: System, f: ActorId, j: ActorId, i: ActorId) returns (o': Ports, v': System)
    requires Overtaking(o, v, f, j, i)
    ensures Overtaking(o', v', f, j, i) && Leads(o, o') && v'.nodes[f].stage == 6
    decreases Left(v), |o.queues[f]|
  {
    ForkStage(o, v, f, j, i);
    if v.nodes[f].stage == 6 {
      o', v' := o, v;
      ConnectsSelf(Acts, o);
    } else {
      var z, msg := OnTheWay(v, f);
      assert Above(o, f, z);
      if z == f && HasMail(o, f) && StartCnf(o.queues[f][0]) {
        CountStep(o, v, f, j, i);
        o', v' := ReachesFork(Serve(o, f), v, f, j, i);
        OvertakingLeads(o, v, f, j, i, f, o');
      } else {
        SpineHasMail(o, v, f, j, i, z, msg);
        var v1 := SpineStep(o, v, f, j, i, z);
        o', v' := ReachesFork(Serve(o, z), v1, f, j, i);
        OvertakingLeads(o, v, f, j, i, z, o');
      }
    }
  }

  lemma SpineHasMail(o: Ports, v: System, f: ActorId, j: ActorId, i: ActorId, z: ActorId, msg: Msg)
    requires Overtaking(o, v, f, j, i) && Above(o, f, z) && v.flight[msg] > 0 && Receiver(v.parent, msg) == z
    ensures HasMail(o, z)
    ensures z != f ==> !StartCnf(o.queues[z][0])
  {
    if StartCnf(msg) {
      assert msg == PrivCnf(StartWave, msg.from);
      NoStartMail(v, msg);
    } else {
      assert SameMailOf(o, v, z, msg);
      assert msg in multiset(o.queues[z]);
      var head := o.queues[z][0];
      assert head in multiset(o.queues[z]) && (z != f ==> SameMailOf(o, v, z, head));
      if StartCnf(head) {
        assert head == PrivCnf(StartWave, head.from);
        NoStartMail(v, head);
      }
    }
  }

  // Somebody at or below `i` handles a message.
  lemma BelowStep(o: Ports, v: System, f: ActorId, j: ActorId, i: ActorId, x: ActorId) returns (v': System)
    requires Overtaking(o, v, f, j, i) && x < |o.parent| && Descends(o.parent, x, i) && HasMail(o, x)
    ensures Overtaking(Serve(o, x), v', f, j, i) && Left(v') < Left(v) && v'.nodes[f].stage == v.nodes[f].stage
  {
    var msg := o.queues[x][0];
    BelowKid(o, f, i, x);
    assert Mirrored(o, v, x) && SameMailOf(o, v, x, msg);
    HeadIsDeliverable(o, v, x);
    ReactBare(o.parent, x, v.nodes[x], msg);
    NotAStartCnf(v, msg);
    v' := Deliver(v, msg);
    HandleKept(v, v', msg);
    HandleAdvances(v, v', msg);
    DeliverLocal(v, msg, f);
    forall k: ActorId | KidOf(o, k, f) && k != i ensures k < |v'.nodes| && v'.nodes[k].stage <= 5 {
      DeliverLocal(v, msg, k);
    }
    if Above(o, f, x) { DescendsLater(o.parent, f, x); }
    BothStep(o, v, f, j, i, x, v');
  }

  lemma NotAStartCnf(v: System, msg: Msg)
    requires WaveInv(v) && v.stops == 1 && v.flight[msg] > 0
    ensures !StartCnf(msg)
  {
    if StartCnf(msg) {
      assert msg == PrivCnf(StartWave, msg.from);
      NoStartMail(v, msg);
    }
  }

  /** `i` stops, with everybody below it. */
  lemma {:induction false} StopsBelow(o: Ports, v: System, f: ActorId, j: ActorId, i: ActorId) returns (o': Ports, v': System)
    requires Overtaking(o, v, f, j, i) && v.nodes[f].stage == 6
    ensures Overtaking(o', v', f, j, i) && Leads(o, o') && v'.nodes[f].stage == 6 && v'.nodes[i].stage == 7
    decreases Left(v)
  {
    ForkStage(o, v, f, j, i);
    assert IsKid(v, i, f) && EdgeSound(StageAt(v, f), StageAt(v, i));
    if v.nodes[i].stage == 7 {
      o', v' := o, v;
      ConnectsSelf(Acts, o);
    } else {
      var msg := Active(v, StopWave, i);
      var x := Receiver(v.parent, msg);
      assert Mirrored(o, v, x) && SameMailOf(o, v, x, msg);
      assert msg in multiset(o.queues[x]);
      var v1 := BelowStep(o, v, f, j, i, x);
      o', v' := StopsBelow(Serve(o, x), v1, f, j, i);
      OvertakingLeads(o, v, f, j, i, x, o');
    }
  }

  // ----- the fork is deceived -----

  /** What the fork finds in its queue besides start confirmations: the stop of `i`. */
  lemma ForkHead(o: Ports, v: System, f: ActorId, j: ActorId, i: ActorId, m: Msg)
    requires Overtaking(o, v, f, j, i) && v.nodes[f].stage == 6 && v.nodes[i].stage == 7
    requires !StartCnf(m)
    ensures multiset(o.queues[f])[m] == Bit(m == PrivCnf(StopWave, i))
  {
    ForkStage(o, v, f, j, i);
    assert Above(o, f, f) && SameMailOf(o, v, f, m);
    assert v.flight[m] == Expected(v, m);
    AllDescendFromRoot(o.parent, f);
    if f != 0 { RootWaits(o, v, f); }
    if m.Req? { NoStartMail(v, Req(StartWave, m.to)); }
    if m.PrivCnf? {
      assert m == PrivCnf(StopWave, m.from);
      if KidOf(o, m.from, f) && m.from != i { assert v.nodes[m.from].stage <= 5; }
    }
  }

  lemma {:induction false} SpineWaits(v: System, y: ActorId, z: ActorId)
    requires WaveInv(v) && v.stops == 1 && y < |v.nodes| && z < |v.nodes| && Descends(v.parent, y, z)
    requires 6 <= v.nodes[y].stage <= 7
    ensures y != z ==> v.nodes[z].stage == 6
  {
    if y != z {
      var p := v.parent[y];
      assert IsKid(v, y, p);
      AllBeyondStart(v, p);
      SpineWaits(v, p, z);
    }
  }

  lemma RootWaits(o: Ports, v: System, f: ActorId)
    requires SameTree(o, v) && WaveInv(v) && v.stops == 1 && 0 < f < |v.nodes| && v.nodes[f].stage == 6
    ensures v.nodes[0].stage == 6
  {
    AllDescendFromRoot(v.parent, f);
    SpineWaits(v, f, 0);
  }

  /** Whoever is above the fork has nothing to do. */
  lemma AboveIdle(o: Ports, v: System, f: ActorId, j: ActorId, i: ActorId, z: ActorId)
    requires Overtaking(o, v, f, j, i) && v.nodes[f].stage == 6 && Above(o, f, z) && z != f
    ensures o.queues[z] == [] && o.nodes[z].cnfCount == 0
  {
    if o.queues[z] != [] {
      var m := o.queues[z][0];
      assert m in multiset(o.queues[z]) && SameMailOf(o, v, z, m);
      AboveIdleMail(o, v, f, j, i, z, m);
    }
  }

  lemma AboveIdleMail(o: Ports, v: System, f: ActorId, j: ActorId, i: ActorId, z: ActorId, m: Msg)
    requires Overtaking(o, v, f, j, i) && v.nodes[f].stage == 6 && Above(o, f, z) && z != f
    requires Receiver(v.parent, m) == z
    ensures v.flight[m] == 0
  {
    ForkStage(o, v, f, j, i);
    SpineWaits(v, f, z);
    DescendsLater(o.parent, f, z);
    RootWaits(o, v, f);
    assert v.flight[m] == Expected(v, m);
    if m.Req? { NoStartMail(v, Req(StartWave, m.to)); }
    if StartCnf(m) {
      assert m == PrivCnf(StartWave, m.from);
      NoStartMail(v, m);
    } else if m.PrivCnf? && m.from > 0 && m.from < |o.parent| {
      var e := SpineKid(o.parent, f, z);
      KidsMembers(o.parent, z);
      assert m.from in Kids(o.parent, z);
      SpineWaits(v, f, e);
    }
  }

  lemma StopIsQueued(o: Ports, v: System, f: ActorId, j: ActorId, i: ActorId)
    requires Overtaking(o, v, f, j, i) && v.nodes[f].stage == 6 && v.nodes[i].stage == 7
    ensures HasMail(o, f) && (StartCnf(o.queues[f][0]) || o.queues[f][0] == PrivCnf(StopWave, i))
  {
    ForkHead(o, v, f, j, i, PrivCnf(StopWave, i));
    assert PrivCnf(StopWave, i) in multiset(o.queues[f]);
    var head := o.queues[f][0];
    assert head in multiset(o.queues[f]);
    if !StartCnf(head) { ForkHead(o, v, f, j, i, head); }
  }

  lemma NothingAhead(o: Ports, v: System, f: ActorId, j: ActorId, i: ActorId)
    requires Overtaking(o, v, f, j, i) && v.nodes[f].stage == 6 && v.nodes[i].stage == 7
    requires HasMail(o, f) && o.queues[f][0] == PrivCnf(StopWave, i)
    ensures Cnfs(o.queues[f]) == 0 && o.queues[f] == [PrivCnf(StopWave, i)]
  {
    var queue := o.queues[f];
    forall k: ActorId ensures multiset(queue)[PrivCnf(StartWave, k)] == Bit(k in {}) {
      assert Ahead(queue, PrivCnf(StartWave, k), PrivCnf(StopWave, i));
      assert PrivCnf(StartWave, k) !in queue;
    }
    CnfsCount(queue, {});
    forall m ensures multiset(queue)[m] == Bit(m == PrivCnf(StopWave, i)) {
      if StartCnf(m) {
        assert m == PrivCnf(StartWave, m.from);
      } else {
        ForkHead(o, v, f, j, i, m);
      }
    }
    OnlyOne(queue, PrivCnf(StopWave, i));
  }

  lemma OnlyOne(queue: seq<Msg>, msg: Msg)
    requires queue != [] && queue[0] == msg && forall m :: multiset(queue)[m] == Bit(m == msg)
    ensures queue == [msg]
  {
    var rest := queue[1..];
    assert rest != [] ==> rest[0] in multiset(rest);
    forall m ensures multiset(rest)[m] == 0 { Popped(queue, m); }
  }

  /** Nobody from `y` up has work but for the stop confirmation of `y`. */
  ghost predicate Climbing(o: Ports, y: ActorId, j: ActorId) {
    && Shaped(o) && y < |o.parent| && Spine(o.parent, y) && o.running && Frozen(o, j) && y < j
    && o.queues[Receiver(o.parent, PrivCnf(StopWave, y))] == [PrivCnf(StopWave, y)]
    && (forall z: ActorId :: z < |o.parent| && Descends(o.parent, y, z) && z != y ==>
          o.nodes[z].cnfCount == 0 && (z != o.parent[y] ==> o.queues[z] == []))
  }

  // The parent of `y` takes itself for stopped.
  lemma ClimbStep(o: Ports, y: ActorId, j: ActorId)
    requires Climbing(o, y, j) && y > 0
    ensures HasMail(o, o.parent[y]) && Climbing(Serve(o, o.parent[y]), o.parent[y], j)
  {
    var p := o.parent[y];
    assert Descends(o.parent, y, p);
    var o' := Serve(o, p);
    ServeCompletes(o, p, StopWave, y, p);
    forall x | 0 <= x < |o.queues|
      ensures o'.queues[x] == (if x == p then [] else o.queues[x])
                              + (if Receiver(o.parent, PrivCnf(StopWave, p)) == x then [PrivCnf(StopWave, p)] else [])
    {
      ServeCompletes(o, p, StopWave, y, x);
    }
    if p > 0 { assert Descends(o.parent, y, o.parent[p]); }
    forall z: ActorId | z < |o.parent| && Descends(o.parent, p, z) && z != p
      ensures o'.nodes[z].cnfCount == 0 && (z != o.parent[p] ==> o'.queues[z] == [])
    {
      DescendsLater(o.parent, p, z);
      assert Descends(o.parent, y, z);
    }
  }

  /** The stop confirmation of the fork climbs to the root, and `run()` leaves. */
  lemma {:induction false} Climbs(o: Ports, y: ActorId, j: ActorId) returns (o': Ports)
    requires Climbing(o, y, j)
    ensures Leads(o, o') && !o'.running && Frozen(o', j)
    decreases y
  {
    if y == 0 {
      o' := Serve(o, 0);
      ConnectsSelf(Acts, o');
      LeadsOn(o, 0, o', o');
    } else {
      ClimbStep(o, y, j);
      var o1 := Serve(o, o.parent[y]);
      o' := Climbs(o1, o.parent[y], j);
      LeadsOn(o, o.parent[y], o1, o');
    }
  }

  // An actor of the spine counts the stop of `i` as its last confirmation.
  lemma LastStopClimbs(o: Ports, f: ActorId, j: ActorId, i: ActorId)
    requires Shaped(o) && f < |o.parent| && Spine(o.parent, f) && o.running && Frozen(o, j) && f < j && i > 0
    requires o.queues[f] == [PrivCnf(StopWave, i)] && o.nodes[f].cnfCount + 1 == |Kids(o.parent, f)|
    requires forall z: ActorId :: z < |o.parent| && Descends(o.parent, f, z) && z != f ==> o.nodes[z].cnfCount == 0 && o.queues[z] == []
    ensures Climbing(Serve(o, f), f, j)
  {
    var o' := Serve(o, f);
    forall x | 0 <= x < |o.queues|
      ensures o'.queues[x] == (if x == f then [] else o.queues[x])
                              + (if Receiver(o.parent, PrivCnf(StopWave, f)) == x then [PrivCnf(StopWave, f)] else [])
    {
      ServeCompletes(o, f, StopWave, i, x);
    }
    ServeCompletes(o, f, StopWave, i, f);
    if f > 0 { assert Descends(o.parent, f, o.parent[f]); }
  }

  // The fork is deceived by the stop of `i`.
  lemma ForkStops(o: Ports, v: System, f: ActorId, j: ActorId, i: ActorId)
    requires Overtaking(o, v, f, j, i) && v.nodes[f].stage == 6 && v.nodes[i].stage == 7
    requires HasMail(o, f) && o.queues[f][0] == PrivCnf(StopWave, i)
    ensures Climbing(Serve(o, f), f, j)
  {
    NothingAhead(o, v, f, j, i);
    forall z: ActorId | z < |o.parent| && Descends(o.parent, f, z) && z != f
      ensures o.nodes[z].cnfCount == 0 && o.queues[z] == []
    {
      assert Above(o, f, z);
      AboveIdle(o, v, f, j, i, z);
    }
    LastStopClimbs(o, f, j, i);
  }

  lemma {:induction false} ForkFills(o: Ports, v: System, f: ActorId, j: ActorId, i: ActorId) returns (o': Ports)
    requires Overtaking(o, v, f, j, i) && v.nodes[f].stage == 6 && v.nodes[i].stage == 7
    ensures Leads(o, o') && !o'.running && Frozen(o', j)
    decreases |o.queues[f]|
  {
    StopIsQueued(o, v, f, j, i);
    if StartCnf(o.queues[f][0]) {
      CountStep(o, v, f, j, i);
      o' := ForkFills(Serve(o, f), v, f, j, i);
    } else {
      ForkStops(o, v, f, j, i);
      o' := Climbs(Serve(o, f), f, j);
    }
    assert Above(o, f, f);
    OvertakingLeads(o, v, f, j, i, f, o');
  }

  // ----- from the moment of Stop -----

  // What is in flight while the fork waits and all its other children have started.
  lemma WaitingStages(o: Ports, v: System, f: ActorId, j: ActorId, y: ActorId)
    requires Ignored(o, v, f, j) && Above(o, f, y)
    ensures v.nodes[y].stage == 2 && o.nodes[y] == Node(CTOR_FINISHED, o.nodes[y].cnfCount, 0, 0, DORMANT)
    ensures o.nodes[y].cnfCount == v.nodes[y].cnfCount && (y != f ==> o.nodes[y].cnfCount == 0)
  {
    if y != f {
      AboveWaits(v, f, y);
      if v.nodes[y].stage >= 3 { Below(v, f, y); }
      LoneKid(o, v, f, j, y);
    }
    assert NodeSound(v.nodes[y]) && IgnoredAt(o, v, j, y);
  }

  lemma LoneKid(o: Ports, v: System, f: ActorId, j: ActorId, y: ActorId)
    requires Ignored(o, v, f, j) && Above(o, f, y) && y != f && v.nodes[y].stage == 2
    ensures v.nodes[y].cnfCount == 0
    ensures forall k: ActorId :: KidOf(o, k, y) ==> v.nodes[k].stage == 2
  {
    var e := SpineKid(o.parent, f, y);
    KidsMembers(o.parent, y);
    if e != f {
      AboveWaits(v, f, e);
      if v.nodes[e].stage >= 3 { Below(v, f, e); }
    }
    assert CountSound(v, y);
    TotalZero(StagesOf(v, Kids(v.parent, y)), IsUp);
    forall k: ActorId | KidOf(o, k, y) ensures v.nodes[k].stage == 2 {
      assert k in Kids(o.parent, y);
    }
  }

  // Before Stop nothing but start messages is in flight.
  lemma StartOnly(o: Ports, v: System, f: ActorId, j: ActorId, m: Msg)
    requires Ignored(o, v, f, j) && v.flight[m] > 0
    ensures (m.Req? && m.to < |v.nodes| && v.nodes[m.to].stage == 1) || (StartCnf(m) && 0 < m.from < |v.nodes| && v.nodes[m.from].stage == 3)
  {
    assert v.flight[m] == Expected(v, m);
    var x := if m.Req? then m.to else if m.PrivCnf? then m.from else 0;
    if x < |v.nodes| {
      AllDescendFromRoot(v.parent, x);
      if x != 0 { Below(v, x, 0); }
    }
  }

  lemma MailAboveFork(o: Ports, v: System, f: ActorId, j: ActorId, y: ActorId, m: Msg)
    requires Ignored(o, v, f, j) && Above(o, f, y) && (y != f || !StartCnf(m))
    ensures SameMailOf(o, StopSent(o.parent), y, m)
  {
    WaitingStages(o, v, f, j, y);
    if y != f { LoneKid(o, v, f, j, y); }
    assert IgnoredAt(o, v, j, y) && IgnoredMail(o, v, j, y, m);
    if v.flight[m] > 0 { StartOnly(o, v, f, j, m); }
    NoStopYet(v);
  }

  lemma NoStopYet(v: System)
    requires WaveInv(v) && v.stops == 0
    ensures v.flight[Stop] == 0
  {
    assert v.flight[Stop] == Expected(v, Stop);
  }

  lemma MailBelow(o: Ports, v: System, f: ActorId, j: ActorId, i: ActorId, x: ActorId)
    requires Ignored(o, v, f, j) && OthersUp(o, v, f, j) && KidOf(o, i, f) && i != j
    requires x < |o.parent| && Descends(o.parent, x, i)
    ensures Mirrored(o, StopSent(o.parent), x)
  {
    BelowKid(o, f, i, x);
    IgnoredMirrors(o, v, f, j, x);
    BelowIsUp(v, i, x);
    forall m ensures SameMailOf(o, StopSent(o.parent), x, m) {
      assert SameMailOf(o, v, x, m);
      if v.flight[m] > 0 && Receiver(v.parent, m) == x {
        StartOnly(o, v, f, j, m);
        if StartCnf(m) { BelowIsUp(v, x, m.from); }
      }
    }
  }

  lemma BelowIsUp(v: System, i: ActorId, x: ActorId)
    requires WaveInv(v) && v.stops == 0 && i < |v.nodes| && v.nodes[i].stage >= 3 && x < |v.nodes| && Descends(v.parent, x, i)
    ensures x != i ==> v.nodes[x].stage == 4
    ensures Bare(v.nodes[x]) == STARTED_NODE && 3 <= v.nodes[x].stage <= 4
  {
    if x != i { BelowStarted(v, x, i); }
    assert NodeSound(v.nodes[x]) && CountSound(v, x);
    AllDescendFromRoot(v.parent, x);
    if x != 0 { Below(v, x, 0); }
  }

  // The fork's counter and queue hold the starts of all children but `j`.
  lemma ForkHasAllButOne(o: Ports, v: System, f: ActorId, j: ActorId)
    requires Ignored(o, v, f, j) && OthersUp(o, v, f, j)
    ensures o.nodes[f].cnfCount + Cnfs(o.queues[f]) + 1 == |Kids(o.parent, f)|
  {
    var kids := Kids(o.parent, f);
    KidsMembers(o.parent, f);
    assert Above(o, f, f);
    WaitingStages(o, v, f, j, f);
    CountedAndOwed(v, kids);
    assert CountSound(v, f);
    var told := Uncounted(v, kids) - {j};
    assert j in kids && j in Uncounted(v, kids);
    forall k: ActorId ensures multiset(o.queues[f])[PrivCnf(StartWave, k)] == Bit(k in told) {
      ForkMail(o, v, f, j, k);
    }
    CnfsCount(o.queues[f], told);
  }

  lemma ForkMail(o: Ports, v: System, f: ActorId, j: ActorId, k: ActorId)
    requires Ignored(o, v, f, j) && OthersUp(o, v, f, j)
    ensures multiset(o.queues[f])[PrivCnf(StartWave, k)] == Bit(k in Uncounted(v, Kids(o.parent, f)) && k != j)
  {
    var m := PrivCnf(StartWave, k);
    KidsMembers(o.parent, f);
    assert IgnoredAt(o, v, j, f) && IgnoredMail(o, v, j, f, m);
    assert v.flight[m] == Expected(v, m);
    if KidOf(o, k, f) && k != j {
      StagesBounded(v);
      BelowIsUp(v, k, k);
    }
  }

  lemma BeginsOvertaking(o: Ports, v: System, f: ActorId, j: ActorId, i: ActorId)
    requires Ignored(o, v, f, j) && OthersUp(o, v, f, j) && KidOf(o, i, f) && i != j
    ensures Overtaking(o, StopSent(o.parent), f, j, i)
  {
    var v' := StopSent(o.parent);
    StopSentSound(o.parent);
    forall y: ActorId | Above(o, f, y)
      ensures o.nodes[y] == Node(CTOR_FINISHED, o.nodes[y].cnfCount, 0, 0, DORMANT) && Bare(v'.nodes[y]) == STARTED_NODE
      ensures y != f ==> o.nodes[y].cnfCount == 0 && SameMail(o, v', y)
    {
      WaitingStages(o, v, f, j, y);
      if y != f {
        forall m ensures SameMailOf(o, v', y, m) { MailAboveFork(o, v, f, j, y, m); }
      }
    }
    BeginsFilling(o, v, f, j, i);
    forall x: ActorId | x < |o.parent| && Descends(o.parent, x, i) ensures Mirrored(o, v', x) {
      MailBelow(o, v, f, j, i, x);
    }
  }

  lemma BeginsFilling(o: Ports, v: System, f: ActorId, j: ActorId, i: ActorId)
    requires Ignored(o, v, f, j) && OthersUp(o, v, f, j) && KidOf(o, i, f) && i != j
    ensures Filling(o, StopSent(o.parent), f, i)
  {
    assert Above(o, f, f);
    ForkHasAllButOne(o, v, f, j);
    forall m | !StartCnf(m) ensures SameMailOf(o, StopSent(o.parent), f, m) { MailAboveFork(o, v, f, j, f, m); }
    assert SameMailOf(o, StopSent(o.parent), f, PrivCnf(StopWave, i));
    assert PrivCnf(StopWave, i) !in multiset(o.queues[f]);
    ForkMail(o, v, f, j, 0);
    KidsMembers(o.parent, f);
    assert PrivCnf(StartWave, 0) !in multiset(o.queues[f]);
  }

  lemma AnotherKid(parent: seq<ActorId>, f: ActorId, j: ActorId) returns (i: ActorId)
    requires IsTree(parent) && f < |parent| && |Kids(parent, f)| >= 2 && j < |parent|
    ensures 0 < i < |parent| && parent[i] == f && i != j
  {
    var kids := Kids(parent, f);
    KidsMembers(parent, f);
    assert kids[0] in kids && kids[1] in kids && kids[0] < kids[1];
    i := if kids[0] == j then kids[1] else kids[0];
  }

  /** Once `Stop` is ignored, it may overtake `j`: `run()` can leave although `j` was never stopped. */
  lemma Overtakes(o: Ports, v: System, f: ActorId, j: ActorId) returns (o': Ports)
    requires Ignored(o, v, f, j)
    ensures Leads(o, o') && !o'.running && Frozen(o', j)
  {
    var o1, v1 := OthersStart(o, v, f, j);
    var i := AnotherKid(o1.parent, f, j);
    BeginsOvertaking(o1, v1, f, j, i);
    var o2, v2 := ReachesFork(o1, StopSent(o1.parent), f, j, i);
    var o3, v3 := StopsBelow(o2, v2, f, j, i);
    o' := ForkFills(o3, v3, f, j, i);
    ConnectsAcross(Acts, o2, o3, o');
    ConnectsAcross(Acts, o1, o2, o');
    ConnectsAcross(Acts, o, o1, o');
  }

  // ----- from the moment of Stop -----

  /** Settled, `o` is a state of the start wave in which somebody has started, and the child `j` of the fork has not confirmed. */
  ghost predicate Harmful(o: Ports, c: Ports, v: System, f: ActorId, j: ActorId) {
    && Settles(o, c) && Mirrors(c, v) && WaveInv(v) && v.stops == 0 && Forked(o, f, j)
    && (o.nodes[j].state != STARTED || PrivCnf(StartWave, j) in o.outboxes[j])
    && exists q :: 0 <= q < |o.nodes| && o.nodes[q].state == STARTED
  }

  lemma KidWaits(o: Ports, c: Ports, v: System, f: ActorId, j: ActorId)
    requires Harmful(o, c, v, f, j)
    ensures if o.nodes[j].state != STARTED then v.nodes[j].stage <= 2 else v.nodes[j].stage == 3
  {
    StageOfState(c, v, j);
    if o.nodes[j].state == STARTED {
      var m := PrivCnf(StartWave, j);
      assert Settled(o, c, f) && SettledMail(o, c, f, m) && Mirrored(c, v, f) && SameMailOf(c, v, f, m);
      assert v.flight[m] == Expected(v, m);
    }
  }

  lemma ForkWaits(o: Ports, c: Ports, v: System, f: ActorId, j: ActorId)
    requires Harmful(o, c, v, f, j)
    ensures v.nodes[f].stage == 2 && v.nodes[j].stage <= 3
  {
    KidWaits(o, c, v, f, j);
    StageOfState(c, v, f);
    assert Descends(o.parent, j, f);
    if v.nodes[f].stage >= 3 { BelowStarted(v, j, f); }
    var q :| 0 <= q < |o.nodes| && o.nodes[q].state == STARTED;
    StageOfState(c, v, q);
    SpineComparable(o.parent, f, q);
    if Descends(o.parent, f, q) && f != q { BelowStarted(v, f, q); }
    if Descends(o.parent, q, f) && f != q { AboveWaits(v, q, f); }
  }

  ghost predicate StopMail(c: Ports, v: System, x: ActorId, m: Msg)
    requires x < |c.queues|
  {
    multiset(c.queues[x])[m] == (if Receiver(v.parent, m) == x then v.flight[m] else 0) + Bit(x == 0 && m == Stop)
  }

  ghost predicate StopWaitsAt(c: Ports, v: System, x: ActorId) {
    x < |c.nodes| && x < |v.nodes| && x < |c.queues| && c.nodes[x] == Bare(v.nodes[x]) && forall m :: StopMail(c, v, x, m)
  }

  /** `c` is `v` with `Stop` in the root's queue. */
  ghost predicate StopWaits(c: Ports, v: System) {
    SameTree(c, v) && c.running && forall x :: 0 <= x < |c.nodes| ==> StopWaitsAt(c, v, x)
  }

  lemma BeginsWaiting(o: Ports, c: Ports, v: System) returns (c': Ports)
    requires Settles(o, c) && Mirrors(c, v) && v.running
    ensures Settles(WithStop(o), c') && StopWaits(c', v)
  {
    c' := StopSettles(o, c);
    var c1 := WithStop(c);
    HastenCounts(c1.queues[0], |o.queues[0]|, |c.queues[0]|);
    assert multiset(c1.queues[0]) == multiset(c.queues[0]) + multiset([Stop]);
    forall x | 0 <= x < |c'.nodes| ensures StopWaitsAt(c', v, x) {
      assert Mirrored(c, v, x);
      forall m ensures StopMail(c', v, x, m) { assert SameMailOf(c, v, x, m); }
    }
  }

  function Size(out: seq<Msg>): nat { |out| }

  /** Everybody but `keep` publishes what it has begun to. */
  lemma {:induction false} AllPublish(o: Ports, c: Ports, v: System, keep: nat) returns (o': Ports, c': Ports)
    requires Settles(o, c) && StopWaits(c, v)
    ensures Settles(o', c') && StopWaits(c', v) && Leads(o, o') && o'.parent == o.parent && o'.nodes == o.nodes
    ensures forall x :: 0 <= x < |o'.outboxes| ==> o'.outboxes[x] == if x == keep then o.outboxes[x] else []
    decreases Total(o.outboxes, Size)
  {
    if i: ActorId :| HasToPublish(o, i) && i != keep {
      var b, t := SendSettles(o, c, i);
      var o1 := Send(o, i);
      StopStillWaits(o, c, i, t, b, v);
      TotalUpdate(o.outboxes, Size, i, o.outboxes[i][1..]);
      o', c' := AllPublish(o1, b, v, keep);
      ConnectsEarlier(Acts, o, Emit(i), o1, o');
    } else {
      forall x | 0 <= x < |o.outboxes| && x != keep ensures o.outboxes[x] == [] { assert !HasToPublish(o, x); }
      ConnectsSelf(Acts, o);
      o', c' := o, c;
    }
  }

  lemma StopStillWaits(o: Ports, c: Ports, i: ActorId, t: nat, c': Ports, v: System)
    requires Settles(o, c) && StopWaits(c, v) && Emits(o, c, i, t, c')
    ensures StopWaits(c', v)
  {
    forall x | 0 <= x < |c'.nodes| ensures StopWaitsAt(c', v, x) {
      assert StopWaitsAt(c, v, x) && Settled(o, c, x);
      SendQueue(o, c, i, t, c', x);
      forall m ensures StopMail(c', v, x, m) { assert StopMail(c, v, x, m); }
    }
  }

  // What is pending when everybody but `j` has published, and `j` may only have its confirmation left.
  lemma OnlyCnfPending(o: Ports, j: ActorId, m: Msg)
    requires Shaped(o) && Tidy(o) && Frozen(o, j) && m != PrivCnf(StartWave, j)
    requires o.outboxes[j] == [] || PrivCnf(StartWave, j) in o.outboxes[j]
    ensures Pending(o, m) == 0
  {
    assert TidyBox(o.parent, j, o.outboxes[j]);
  }

  lemma BeginsIgnored(o: Ports, c: Ports, v: System, f: ActorId, j: ActorId)
    requires Settles(o, c) && StopWaits(c, v) && WaveInv(v) && v.stops == 0 && Forked(o, f, j) && Frozen(o, j)
    requires v.nodes[f].stage == 2
    requires if o.outboxes[j] == [] then v.nodes[j].stage <= 2 else v.nodes[j].stage == 3 && PrivCnf(StartWave, j) in o.outboxes[j]
    ensures Ignored(o, v, f, j)
  {
    var withheld := PrivCnf(StartWave, j);
    assert v.flight[withheld] == Expected(v, withheld);
    forall x | 0 <= x < |o.nodes| ensures IgnoredAt(o, v, j, x) {
      assert Settled(o, c, x) && StopWaitsAt(c, v, x);
      forall m ensures IgnoredMail(o, v, j, x, m) {
        assert StopMail(c, v, x, m) && SettledMail(o, c, x, m);
        if m != withheld { OnlyCnfPending(o, j, m); }
      }
    }
  }

  /** When a child of the fork has not confirmed, `Stop` may overtake it: `run()` can leave although that child was never stopped. */
  lemma HarmfulStop(o: Ports, c: Ports, v: System, f: ActorId, j: ActorId) returns (o': Ports)
    requires Harmful(o, c, v, f, j)
    ensures Leads(WithStop(o), o') && !o'.running && j < |o'.nodes| && o'.nodes[j].state != STOPPED
  {
    KidWaits(o, c, v, f, j);
    ForkWaits(o, c, v, f, j);
    StageOfState(c, v, 0);
    StageOfState(c, v, j);
    var b := BeginsWaiting(o, c, v);
    var keep := if o.nodes[j].state == STARTED then j else |o.nodes|;
    var o1, c1 := AllPublish(WithStop(o), b, v, keep);
    BeginsIgnored(o1, c1, v, f, j);
    o' := Overtakes(o1, v, f, j);
    ConnectsAcross(Acts, WithStop(o), o1, o');
  }
}
