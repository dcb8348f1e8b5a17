/**
 The harmless early `Stop`: every child of the fork has confirmed its start, so what is left of
 the start wave are confirmations on their way up the spine. The ordered system then behaves like
 a tree that had started altogether; only the actors of the spine come late.
 */
module EarlyStopSafe {
  import opened Totals
  import opened Chains
  import opened LifeCycle
  import opened LifeCycleInvariant
  import opened LifeCycleSteps
  import opened LifeCycleTheorems
  import opened LifeCyclePorts
  import opened LifeCycleMirror
  import opened LifeCycleSettled
  import opened LifeCycleSpine

  predicate Late(o: Ports, i: ActorId) { i < |o.nodes| && o.nodes[i].state == CTOR_FINISHED }

  predicate StartCnf(msg: Msg) { msg.PrivCnf? && msg.wave.StartWave? }

  predicate KidOf(o: Ports, k: ActorId, i: ActorId) { 0 < k < |o.parent| && o.parent[k] == i }

  /** The children whose start confirmation `i` has not counted. */
  function Owed(o: Ports, i: ActorId): set<ActorId>
    requires i < |o.queues|
  {
    set k | 0 < k < |o.parent| && o.parent[k] == i && (Late(o, k) || PrivCnf(StartWave, k) in o.queues[i])
  }

  /** Besides its mail a late actor has start confirmations of children, each at most once. */
  ghost predicate LateMail(o: Ports, v: System, i: ActorId, msg: Msg)
    requires i < |o.queues|
  {
    if StartCnf(msg) then
      multiset(o.queues[i])[msg] <= 1 && (msg in o.queues[i] ==> KidOf(o, msg.from, i) && !Late(o, msg.from))
    else SameMailOf(o, v, i, msg)
  }

  /** A child confirms its start before its stop, and to the fork before the fork's own stop request. */
  ghost predicate LateOrder(o: Ports, v: System, i: ActorId)
    requires i < |o.queues| && i < |v.nodes|
  {
    && (forall k :: KidOf(o, k, i) ==> Ahead(o.queues[i], PrivCnf(StartWave, k), PrivCnf(StopWave, k)))
    && (|Kids(o.parent, i)| >= 2 ==>
          v.nodes[i].stage <= 5 && forall k :: KidOf(o, k, i) ==> Ahead(o.queues[i], PrivCnf(StartWave, k), Req(StopWave, i)))
  }

  ghost predicate LateNode(o: Ports, v: System, i: ActorId)
    requires SameTree(o, v) && i < |o.nodes|
  {
    && o.nodes[i] == Node(CTOR_FINISHED, o.nodes[i].cnfCount, 0, 0, DORMANT)
    && Bare(v.nodes[i]) == Node(STARTED, 0, 1, 0, DORMANT)
    && Spine(o.parent, i) && Kids(o.parent, i) != [] && (i > 0 ==> Late(o, o.parent[i]))
    && Owed(o, i) != {} && o.nodes[i].cnfCount + |Owed(o, i)| == |Kids(o.parent, i)|
  }

  ghost predicate LateMirror(o: Ports, v: System, i: ActorId)
    requires SameTree(o, v) && i < |o.nodes|
  {
    LateNode(o, v, i) && LateOrder(o, v, i) && forall msg :: LateMail(o, v, i, msg)
  }

  ghost predicate Follows(o: Ports, v: System, x: ActorId)
    requires SameTree(o, v) && x < |o.nodes|
  {
    if Late(o, x) then LateMirror(o, v, x) else Mirrored(o, v, x)
  }

  /** The ordered system `o` runs like `v`, in which nobody is late. */
  ghost predicate RunsLike(o: Ports, v: System) {
    && SameTree(o, v) && v.running == o.running && WaveInv(v) && v.stops == 1
    && forall x :: 0 <= x < |o.nodes| ==> Follows(o, v, x)
  }

  // ----- queues -----

  lemma AheadPopped(queue: seq<Msg>, a: Msg, b: Msg)
    requires queue != [] && Ahead(queue, a, b)
    ensures Ahead(queue[1..], a, b)
  {
    var rest := queue[1..];
    forall x, y | 0 <= x < |rest| && 0 <= y < |rest| && rest[x] == a && rest[y] == b ensures x < y {
      assert queue[x + 1] == a && queue[y + 1] == b;
    }
  }

  lemma AheadExtended(queue: seq<Msg>, more: seq<Msg>, a: Msg, b: Msg)
    requires Ahead(queue, a, b) && (a !in more || (b !in queue && b !in more))
    ensures Ahead(queue + more, a, b)
  {
  }

  // ----- what is in flight in a started tree -----

  lemma AllBeyondStart(v: System, x: ActorId)
    requires WaveInv(v) && v.stops == 1 && x < |v.nodes|
    ensures 4 <= v.nodes[x].stage <= 8 && v.nodes[x].state != CTOR_FINISHED
  {
    AllDescendFromRoot(v.parent, x);
    if x != 0 { Below(v, x, 0); }
    StagesBounded(v);
    assert NodeSound(v.nodes[x]);
  }

  lemma NoStartMail(v: System, msg: Msg)
    requires WaveInv(v) && v.stops == 1 && (msg.Req? || msg.PrivCnf?) && msg.wave == StartWave
    ensures v.flight[msg] == 0
  {
    assert v.flight[msg] == Expected(v, msg);
    var i := if msg.Req? then msg.to else msg.from;
    if i < |v.nodes| { AllBeyondStart(v, i); }
  }

  lemma NotStopped(v: System, x: ActorId)
    requires WaveInv(v) && x < |v.nodes| && v.nodes[x].state == STARTED
    ensures v.flight[PrivCnf(StopWave, x)] == 0
  {
    assert NodeSound(v.nodes[x]);
    assert v.flight[PrivCnf(StopWave, x)] == Expected(v, PrivCnf(StopWave, x));
  }

  // ----- a late confirmation -----

  lemma OwedLosesOne(o: Ports, i: ActorId, k: ActorId, o': Ports)
    requires Shaped(o) && i < |o.nodes| && HasMail(o, i) && o.queues[i][0] == PrivCnf(StartWave, k)
    requires KidOf(o, k, i) && !Late(o, k) && multiset(o.queues[i])[PrivCnf(StartWave, k)] <= 1
    requires o'.parent == o.parent && |o'.nodes| == |o.nodes| && |o'.queues| == |o.queues| && o'.queues[i] == o.queues[i][1..]
    requires forall c :: KidOf(o, c, i) ==> Late(o', c) == Late(o, c)
    ensures Owed(o', i) == Owed(o, i) - {k} && k in Owed(o, i)
  {
    var queue := o.queues[i];
    Popped(queue, PrivCnf(StartWave, k));
    assert PrivCnf(StartWave, k) !in multiset(queue[1..]);
    forall c | KidOf(o, c, i) && c != k
      ensures PrivCnf(StartWave, c) in queue[1..] <==> PrivCnf(StartWave, c) in queue
    {
      assert queue == [queue[0]] + queue[1..];
    }
  }

  // The head of the queue is a start confirmation of `k`, and `i` still waits for others.
  lemma CountsLate(o: Ports, v: System, i: ActorId, k: ActorId, o': Ports)
    requires SameTree(o, v) && HasMail(o, i) && Late(o, i) && LateMirror(o, v, i) && o.queues[i][0] == PrivCnf(StartWave, k)
    requires |Owed(o, i)| > 1 && o' == Serve(o, i)
    ensures SameTree(o', v) && o'.running == o.running
    ensures Late(o', i) && LateMirror(o', v, i)
    ensures o' == o.(nodes := o.nodes[i := o'.nodes[i]], queues := o.queues[i := o.queues[i][1..]])
  {
    assert LateMail(o, v, i, PrivCnf(StartWave, k));
    ServeCounts(o, i, StartWave, k);
    OwedLosesOne(o, i, k, o');
    PoppedLate(o, v, i, o');
  }

  // Popping a start confirmation leaves the rest of the queue as a late actor's should be.
  lemma PoppedLate(o: Ports, v: System, i: ActorId, o': Ports)
    requires SameTree(o, v) && HasMail(o, i) && LateOrder(o, v, i) && StartCnf(o.queues[i][0])
    requires forall msg :: LateMail(o, v, i, msg)
    requires SameTree(o', v) && o'.queues[i] == o.queues[i][1..]
    requires forall k :: KidOf(o, k, i) ==> Late(o', k) == Late(o, k)
    ensures LateOrder(o', v, i) && forall msg :: LateMail(o', v, i, msg)
  {
    var queue := o.queues[i];
    forall msg ensures LateMail(o', v, i, msg) {
      assert LateMail(o, v, i, msg);
      Popped(queue, msg);
      assert msg in queue[1..] ==> msg in queue;
    }
    forall k | KidOf(o', k, i) ensures Ahead(o'.queues[i], PrivCnf(StartWave, k), PrivCnf(StopWave, k)) {
      assert KidOf(o, k, i);
      AheadPopped(queue, PrivCnf(StartWave, k), PrivCnf(StopWave, k));
    }
    forall k | KidOf(o', k, i) && |Kids(o.parent, i)| >= 2
      ensures Ahead(o'.queues[i], PrivCnf(StartWave, k), Req(StopWave, i))
    {
      assert KidOf(o, k, i);
      AheadPopped(queue, PrivCnf(StartWave, k), Req(StopWave, i));
    }
  }

  /** Whoever keeps node, queue and the lateness around it keeps following. */
  lemma FollowsUntouched(o: Ports, v: System, x: ActorId, o': Ports)
    requires SameTree(o, v) && SameTree(o', v) && x < |o.nodes| && Follows(o, v, x)
    requires o'.nodes[x] == o.nodes[x] && o'.queues[x] == o.queues[x]
    requires Late(o, x) ==> forall k :: KidOf(o, k, x) ==> Late(o', k) == Late(o, k)
    requires Late(o, x) && x > 0 ==> Late(o', o.parent[x]) == Late(o, o.parent[x])
    ensures Follows(o', v, x)
  {
    if Late(o, x) {
      assert Owed(o', x) == Owed(o, x);
      forall k | KidOf(o', k, x) ensures Ahead(o'.queues[x], PrivCnf(StartWave, k), PrivCnf(StopWave, k)) {
        assert KidOf(o, k, x);
      }
      forall msg ensures LateMail(o', v, x, msg) { assert LateMail(o, v, x, msg); }
    } else {
      forall msg ensures SameMailOf(o', v, x, msg) { assert SameMailOf(o, v, x, msg); }
    }
  }

  lemma CountsLateRuns(o: Ports, v: System, i: ActorId, k: ActorId)
    requires RunsLike(o, v) && HasMail(o, i) && Late(o, i) && o.queues[i][0] == PrivCnf(StartWave, k) && |Owed(o, i)| > 1
    ensures RunsLike(Serve(o, i), v)
  {
    var o' := Serve(o, i);
    assert Follows(o, v, i);
    CountsLate(o, v, i, k, o');
    forall x | 0 <= x < |o'.nodes| ensures Follows(o', v, x) {
      if x != i {
        assert Follows(o, v, x);
        FollowsUntouched(o, v, x, o');
      }
    }
  }

  // ----- the last late confirmation -----

  lemma Single(s: set<ActorId>, k: ActorId)
    requires |s| == 1 && k in s
    ensures s == {k}
  {
    assert |s - {k}| == 0;
    assert s == (s - {k}) + {k};
  }

  lemma LastOwed(o: Ports, v: System, i: ActorId, k: ActorId, o': Ports)
    requires SameTree(o, v) && HasMail(o, i) && Late(o, i) && LateMirror(o, v, i) && o.queues[i][0] == PrivCnf(StartWave, k)
    requires |Owed(o, i)| == 1 && o' == Serve(o, i)
    ensures Owed(o, i) == {k} && k > 0
    ensures o' == o.(nodes := o.nodes[i := Bare(v.nodes[i])], queues := o'.queues) && |o'.queues| == |o.queues|
    ensures forall x :: 0 <= x < |o.queues| ==>
              o'.queues[x] == (if x == i then o.queues[i][1..] else o.queues[x])
                              + (if i > 0 && o.parent[i] == x then [PrivCnf(StartWave, i)] else [])
  {
    assert LateMail(o, v, i, PrivCnf(StartWave, k));
    assert k in Owed(o, i);
    Single(Owed(o, i), k);
    forall x | 0 <= x < |o.queues|
      ensures o'.queues[x] == (if x == i then o.queues[i][1..] else o.queues[x])
                              + (if i > 0 && o.parent[i] == x then [PrivCnf(StartWave, i)] else [])
    {
      ServeCompletes(o, i, StartWave, k, x);
    }
    ServeCompletes(o, i, StartWave, k, i);
  }

  lemma NoLongerLate(o: Ports, v: System, i: ActorId, k: ActorId, o': Ports)
    requires RunsLike(o, v) && HasMail(o, i) && Late(o, i) && o.queues[i][0] == PrivCnf(StartWave, k)
    requires |Owed(o, i)| == 1 && o' == Serve(o, i)
    ensures Follows(o', v, i)
  {
    assert Follows(o, v, i);
    LastOwed(o, v, i, k, o');
    forall msg ensures SameMailOf(o', v, i, msg) {
      assert LateMail(o, v, i, msg);
      Popped(o.queues[i], msg);
      if StartCnf(msg) {
        NoStartMail(v, msg);
        LeftNoCnf(o, v, i, k, msg);
      }
    }
  }

  lemma LeftNoCnf(o: Ports, v: System, i: ActorId, k: ActorId, msg: Msg)
    requires SameTree(o, v) && HasMail(o, i) && Late(o, i) && o.queues[i][0] == PrivCnf(StartWave, k)
    requires LateMail(o, v, i, msg) && StartCnf(msg) && Owed(o, i) == {k}
    ensures multiset(o.queues[i][1..])[msg] == 0
  {
    Popped(o.queues[i], msg);
    assert msg == PrivCnf(StartWave, msg.from);
    if msg in o.queues[i] {
      assert msg.from in Owed(o, i);
    }
  }

  // The parent of an actor that has just started: one more confirmation, none more owed.
  lemma ParentHears(o: Ports, v: System, i: ActorId, p: ActorId, o': Ports)
    requires RunsLike(o, v) && Late(o, i) && i > 0 && o.parent[i] == p && !Late(o', i)
    requires SameTree(o', v) && o'.nodes[p] == o.nodes[p] && o'.queues[p] == o.queues[p] + [PrivCnf(StartWave, i)]
    requires forall x :: x != i ==> Late(o', x) == Late(o, x)
    ensures Follows(o', v, p)
  {
    assert Follows(o, v, i) && Follows(o, v, p);
    assert Owed(o', p) == Owed(o, p);
    forall msg ensures LateMail(o', v, p, msg) {
      assert LateMail(o, v, p, msg);
      assert multiset(o'.queues[p]) == multiset(o.queues[p]) + multiset([PrivCnf(StartWave, i)]);
    }
    NotStopped(v, i);
    assert LateMail(o, v, p, PrivCnf(StopWave, i));
    assert PrivCnf(StopWave, i) !in o.queues[p];
    forall c | KidOf(o', c, p) ensures Ahead(o'.queues[p], PrivCnf(StartWave, c), PrivCnf(StopWave, c)) {
      assert KidOf(o, c, p);
      AheadExtended(o.queues[p], [PrivCnf(StartWave, i)], PrivCnf(StartWave, c), PrivCnf(StopWave, c));
    }
  }

  lemma CompletesLateRuns(o: Ports, v: System, i: ActorId, k: ActorId)
    requires RunsLike(o, v) && HasMail(o, i) && Late(o, i) && o.queues[i][0] == PrivCnf(StartWave, k) && |Owed(o, i)| == 1
    ensures RunsLike(Serve(o, i), v)
  {
    var o' := Serve(o, i);
    assert Follows(o, v, i);
    LastOwed(o, v, i, k, o');
    assert LateMail(o, v, i, PrivCnf(StartWave, k));
    NoLongerLate(o, v, i, k, o');
    assert Owed(o, i) == {k} && !Late(o, k);
    forall x | 0 <= x < |o'.nodes| && x != i ensures Follows(o', v, x) {
      if i > 0 && o.parent[i] == x {
        ParentHears(o, v, i, x, o');
      } else {
        OutsiderFollows(o, v, i, k, x, o');
      }
    }
  }

  lemma OutsiderFollows(o: Ports, v: System, i: ActorId, k: ActorId, x: ActorId, o': Ports)
    requires RunsLike(o, v) && i < |o.nodes| && Owed(o, i) == {k} && !Late(o, k)
    requires x < |o.nodes| && x != i && (i > 0 ==> o.parent[i] != x)
    requires SameTree(o', v) && o'.nodes[x] == o.nodes[x] && o'.queues[x] == o.queues[x]
    requires forall c :: c != i ==> Late(o', c) == Late(o, c)
    ensures Follows(o', v, x)
  {
    assert Follows(o, v, x);
    var owed := Owed(o, i);
    assert KidOf(o, x, i) && Late(o, x) ==> x in owed;
    FollowsUntouched(o, v, x, o');
  }

  // ----- any other message -----

  // Something owed is ahead of whatever it must precede.
  lemma OwedIsAhead(o: Ports, i: ActorId, k: ActorId, b: Msg)
    requires HasMail(o, i) && k in Owed(o, i) && !Late(o, k) && Ahead(o.queues[i], PrivCnf(StartWave, k), b)
    ensures o.queues[i][0] != b
  {
    var x :| 0 <= x < |o.queues[i]| && o.queues[i][x] == PrivCnf(StartWave, k);
  }

  lemma ForkKidsAreNotLate(o: Ports, v: System, i: ActorId, k: ActorId)
    requires RunsLike(o, v) && i < |o.nodes| && |Kids(o.parent, i)| >= 2 && KidOf(o, k, i)
    ensures !Late(o, k)
  {
    assert Follows(o, v, k);
  }

  lemma OnlyKidOwed(o: Ports, i: ActorId, k: ActorId)
    requires Shaped(o) && i < |o.nodes| && Owed(o, i) != {} && KidOf(o, k, i) && |Kids(o.parent, i)| < 2
    ensures k in Owed(o, i)
  {
    KidsMembers(o.parent, i);
    var c :| c in Owed(o, i);
    assert c in Kids(o.parent, i) && k in Kids(o.parent, i);
  }

  lemma NotAnOwnRequest(o: Ports, v: System, i: ActorId)
    requires RunsLike(o, v) && HasMail(o, i) && Late(o, i) && |Kids(o.parent, i)| >= 2
    ensures o.queues[i][0] != Req(StopWave, i)
  {
    assert Follows(o, v, i);
    var k :| k in Owed(o, i);
    assert KidOf(o, k, i);
    ForkKidsAreNotLate(o, v, i, k);
    OwedIsAhead(o, i, k, Req(StopWave, i));
  }

  lemma NotAStopCnf(o: Ports, v: System, i: ActorId, k: ActorId)
    requires RunsLike(o, v) && HasMail(o, i) && Late(o, i) && KidOf(o, k, i)
    requires v.flight[PrivCnf(StopWave, k)] > 0
    ensures o.queues[i][0] != PrivCnf(StopWave, k)
  {
    assert Follows(o, v, i) && Follows(o, v, k);
    ToldStage(v, StopWave, k);
    OnlyKidOwed(o, i, k);
    assert NodeSound(v.nodes[k]);
    OwedIsAhead(o, i, k, PrivCnf(StopWave, k));
  }

  /** What a late actor can find at the head of its queue, besides start confirmations. */
  lemma LateHead(o: Ports, v: System, i: ActorId)
    requires RunsLike(o, v) && HasMail(o, i) && Late(o, i) && !StartCnf(o.queues[i][0])
    ensures o.queues[i][0] == Stop || (o.queues[i][0] == Req(StopWave, i) && |Kids(o.parent, i)| < 2)
    ensures SameMailOf(o, v, i, o.queues[i][0])
  {
    var msg := o.queues[i][0];
    assert Follows(o, v, i);
    assert LateMail(o, v, i, msg);
    assert msg in multiset(o.queues[i]);
    FlightIsHeard(v, msg);
    if msg.Req? {
      NoStartMail(v, Req(StartWave, msg.to));
      assert msg == Req(if msg.wave.StartWave? then StartWave else StopWave, msg.to);
      if |Kids(o.parent, i)| >= 2 { NotAnOwnRequest(o, v, i); }
    } else if msg == PrivCnf(StopWave, 0) {
      NotStopped(v, 0);
    } else if msg.PrivCnf? {
      assert msg == PrivCnf(StopWave, msg.from);
      assert v.flight[msg] == Expected(v, msg);
      NotAStopCnf(o, v, i, msg.from);
    }
  }

  // The receiver answers as in `v`, and a late one stays as it is.
  lemma AnswersAlike(o: Ports, v: System, i: ActorId)
    requires RunsLike(o, v) && HasMail(o, i) && !StartCnf(o.queues[i][0])
    ensures SameAnswer(o, v, i) && SameMailOf(o, v, i, o.queues[i][0])
    ensures Late(o, i) ==> Bare(React(o.parent, i, o.nodes[i], o.queues[i][0]).node) == o.nodes[i]
    ensures Late(o, i) ==> Bare(React(v.parent, i, v.nodes[i], o.queues[i][0]).node) == Bare(v.nodes[i])
    ensures !Late(o, i) ==>
              Bare(React(o.parent, i, o.nodes[i], o.queues[i][0]).node) == Bare(React(v.parent, i, v.nodes[i], o.queues[i][0]).node)
  {
    assert Follows(o, v, i);
    if Late(o, i) {
      LateHead(o, v, i);
    } else {
      ReactBare(o.parent, i, v.nodes[i], o.queues[i][0]);
      assert SameMailOf(o, v, i, o.queues[i][0]);
    }
    HeadIsDeliverable(o, v, i);
  }

  lemma {:induction false} MailWithoutStart(parent: seq<ActorId>, out: seq<Msg>, x: ActorId)
    requires forall m :: 0 <= m < |out| ==> !StartCnf(out[m])
    ensures forall m :: 0 <= m < |Mail(parent, out, x)| ==> !StartCnf(Mail(parent, out, x)[m])
  {
    if out != [] {
      MailWithoutStart(parent, out[1..], x);
    }
  }

  lemma NoStartAnswer(o: Ports, v: System, i: ActorId)
    requires WaveInv(v) && v.stops == 1 && SameAnswer(o, v, i) && SameMailOf(o, v, i, o.queues[i][0])
    ensures var out := React(o.parent, i, o.nodes[i], o.queues[i][0]).out;
            forall m :: 0 <= m < |out| ==> !StartCnf(out[m])
  {
    var msg := o.queues[i][0];
    assert msg in multiset(o.queues[i]);
    if msg.Req? || msg.PrivCnf? {
      NoStartMail(v, if msg.Req? then Req(StartWave, msg.to) else PrivCnf(StartWave, msg.from));
      assert msg == (if msg.Req? then Req(msg.wave, msg.to) else PrivCnf(msg.wave, msg.from));
    }
  }

  /** How the queue of `x` changes: the head may go, and no start confirmation comes. */
  ghost predicate Moved(before: seq<Msg>, after: seq<Msg>) {
    exists more: seq<Msg> ::
      && (forall m :: 0 <= m < |more| ==> !StartCnf(more[m]))
      && (after == before + more || (before != [] && !StartCnf(before[0]) && after == before[1..] + more))
  }

  lemma QueueMoved(o: Ports, v: System, i: ActorId, x: ActorId)
    requires WaveInv(v) && v.stops == 1 && SameAnswer(o, v, i) && SameMailOf(o, v, i, o.queues[i][0])
    requires x < |o.queues| && !StartCnf(o.queues[i][0])
    ensures Moved(o.queues[x], Serve(o, i).queues[x])
  {
    NoStartAnswer(o, v, i);
    MailWithoutStart(o.parent, React(o.parent, i, o.nodes[i], o.queues[i][0]).out, x);
  }

  lemma MovedKeeps(before: seq<Msg>, after: seq<Msg>, a: Msg, b: Msg)
    requires Moved(before, after) && StartCnf(a)
    ensures multiset(after)[a] == multiset(before)[a]
    ensures Ahead(before, a, b) ==> Ahead(after, a, b)
  {
    var more: seq<Msg> :|
      && (forall m :: 0 <= m < |more| ==> !StartCnf(more[m]))
      && (after == before + more || (before != [] && !StartCnf(before[0]) && after == before[1..] + more));
    assert a !in multiset(more);
    if after == before + more {
      assert multiset(after) == multiset(before) + multiset(more);
      if Ahead(before, a, b) { AheadExtended(before, more, a, b); }
    } else {
      assert multiset(after) == multiset(before[1..]) + multiset(more);
      Popped(before, a);
      if Ahead(before, a, b) {
        AheadPopped(before, a, b);
        AheadExtended(before[1..], more, a, b);
      }
    }
  }

  // How far the stages move with one message of the stop wave, for an actor that has not passed the request on.
  lemma RequestStages(v: System, to: ActorId, x: ActorId, v': System)
    requires Deliverable(v, Req(StopWave, to)) && v' == Deliver(v, Req(StopWave, to))
    requires x < |v.nodes| && x != to && v.nodes[x].stage <= 5
    ensures x < |v'.nodes| && v'.nodes[x].stage <= 5
  {
  }

  lemma CnfStages(v: System, from: ActorId, x: ActorId, v': System)
    requires Deliverable(v, PrivCnf(StopWave, from)) && v' == Deliver(v, PrivCnf(StopWave, from))
    requires x < |v.nodes| && x != from && x != Receiver(v.parent, PrivCnf(StopWave, from)) && v.nodes[x].stage <= 5
    ensures x < |v'.nodes| && v'.nodes[x].stage <= 5
  {
  }

  lemma StopStages(v: System, x: ActorId, v': System)
    requires Deliverable(v, Stop) && v' == Deliver(v, Stop) && x < |v.nodes| && v.nodes[x].stage <= 5
    ensures x < |v'.nodes| && v'.nodes[x].stage <= 5
  {
  }

  /** The stage of the fork's twin in `v` stays low while the fork is late. */
  lemma TwinWaits(o: Ports, v: System, i: ActorId, x: ActorId, v': System)
    requires RunsLike(o, v) && SameAnswer(o, v, i) && SameMailOf(o, v, i, o.queues[i][0]) && !StartCnf(o.queues[i][0])
    requires x < |o.nodes| && Late(o, x) && |Kids(o.parent, x)| >= 2 && v' == Deliver(v, o.queues[i][0])
    ensures x < |v'.nodes| && v'.nodes[x].stage <= 5
  {
    var msg := o.queues[i][0];
    assert Follows(o, v, x);
    assert v.nodes[x].stage <= 5;
    StopMessage(o, v, i);
    if msg == Stop {
      StopStages(v, x, v');
    } else if msg.Req? {
      if x == i { NotAnOwnRequest(o, v, i); }
      RequestStages(v, msg.to, x, v');
    } else {
      NotStopped(v, x);
      if x == i { LateHead(o, v, i); }
      CnfStages(v, msg.from, x, v');
    }
  }

  lemma StopMessage(o: Ports, v: System, i: ActorId)
    requires RunsLike(o, v) && SameAnswer(o, v, i) && SameMailOf(o, v, i, o.queues[i][0]) && !StartCnf(o.queues[i][0])
    ensures var msg := o.queues[i][0];
            v.flight[msg] > 0 && (msg == Stop || (msg.Req? && msg == Req(StopWave, i)) || (msg.PrivCnf? && msg == PrivCnf(StopWave, msg.from)))
  {
    var msg := o.queues[i][0];
    assert msg in multiset(o.queues[i]);
    if msg.Req? {
      NoStartMail(v, Req(StartWave, msg.to));
      assert msg == Req(if msg.wave.StartWave? then StartWave else StopWave, msg.to);
    }
  }

  // Everybody is as late as before.
  lemma SameLateness(o: Ports, v: System, i: ActorId, v': System, x: ActorId)
    requires RunsLike(o, v) && SameAnswer(o, v, i) && SameMailOf(o, v, i, o.queues[i][0]) && !StartCnf(o.queues[i][0])
    requires v' == Deliver(v, o.queues[i][0]) && WaveInv(v') && v'.stops == 1
    ensures Late(Serve(o, i), x) == Late(o, x)
    ensures x < |o.nodes| && x < |v'.nodes| && !Late(o, x) ==> Serve(o, i).nodes[x] == Bare(v'.nodes[x])
    ensures x < |o.nodes| && x < |v'.nodes| && Late(o, x) ==>
              Serve(o, i).nodes[x] == o.nodes[x] && Bare(v'.nodes[x]) == Bare(v.nodes[x])
  {
    AnswersAlike(o, v, i);
    if x < |o.nodes| {
      assert Follows(o, v, x);
      DeliverReacts(v, o.queues[i][0], x);
      AllBeyondStart(v', x);
    }
  }

  lemma LateStaysLate(o: Ports, v: System, i: ActorId, x: ActorId, o': Ports, v': System)
    requires RunsLike(o, v) && SameAnswer(o, v, i) && SameMailOf(o, v, i, o.queues[i][0]) && !StartCnf(o.queues[i][0])
    requires o' == Serve(o, i) && v' == Deliver(v, o.queues[i][0]) && SameTree(o', v')
    requires x < |o.nodes| && Late(o, x) && o'.nodes[x] == o.nodes[x] && Bare(v'.nodes[x]) == Bare(v.nodes[x])
    requires forall y :: Late(o', y) == Late(o, y)
    ensures LateMirror(o', v', x)
  {
    assert Follows(o, v, x);
    QueueMoved(o, v, i, x);
    forall msg ensures LateMail(o', v', x, msg) {
      LateMailKept(o, v, i, x, o', v', msg);
    }
    OwedKept(o, x, o');
    LateOrderKept(o, v, i, x, o', v');
  }

  lemma LateMailKept(o: Ports, v: System, i: ActorId, x: ActorId, o': Ports, v': System, msg: Msg)
    requires RunsLike(o, v) && SameAnswer(o, v, i) && SameMailOf(o, v, i, o.queues[i][0])
    requires o' == Serve(o, i) && v' == Deliver(v, o.queues[i][0]) && SameTree(o', v')
    requires x < |o.nodes| && Late(o, x) && Moved(o.queues[x], o'.queues[x])
    requires forall y :: Late(o', y) == Late(o, y)
    ensures LateMail(o', v', x, msg)
  {
    assert Follows(o, v, x);
    assert LateMail(o, v, x, msg);
    if StartCnf(msg) {
      MovedKeeps(o.queues[x], o'.queues[x], msg, msg);
      assert msg in multiset(o'.queues[x]) <==> msg in multiset(o.queues[x]);
    } else {
      MailFollows(o, v, i, x, msg);
    }
  }

  lemma OwedKept(o: Ports, x: ActorId, o': Ports)
    requires x < |o.queues| && x < |o'.queues| && o'.parent == o.parent && Moved(o.queues[x], o'.queues[x])
    requires forall y :: Late(o', y) == Late(o, y)
    ensures Owed(o', x) == Owed(o, x)
  {
    var before, after := o.queues[x], o'.queues[x];
    forall k ensures PrivCnf(StartWave, k) in after <==> PrivCnf(StartWave, k) in before {
      MovedKeeps(before, after, PrivCnf(StartWave, k), Stop);
      assert PrivCnf(StartWave, k) in multiset(after) <==> PrivCnf(StartWave, k) in multiset(before);
    }
  }

  lemma LateOrderKept(o: Ports, v: System, i: ActorId, x: ActorId, o': Ports, v': System)
    requires RunsLike(o, v) && SameAnswer(o, v, i) && SameMailOf(o, v, i, o.queues[i][0]) && !StartCnf(o.queues[i][0])
    requires o' == Serve(o, i) && v' == Deliver(v, o.queues[i][0]) && SameTree(o', v')
    requires x < |o.nodes| && Late(o, x) && Moved(o.queues[x], o'.queues[x])
    ensures LateOrder(o', v', x)
  {
    assert Follows(o, v, x);
    forall k | KidOf(o', k, x) ensures Ahead(o'.queues[x], PrivCnf(StartWave, k), PrivCnf(StopWave, k)) {
      assert KidOf(o, k, x);
      MovedKeeps(o.queues[x], o'.queues[x], PrivCnf(StartWave, k), PrivCnf(StopWave, k));
    }
    if |Kids(o.parent, x)| >= 2 {
      TwinWaits(o, v, i, x, v');
      forall k | KidOf(o', k, x) ensures Ahead(o'.queues[x], PrivCnf(StartWave, k), Req(StopWave, x)) {
        assert KidOf(o, k, x);
        MovedKeeps(o.queues[x], o'.queues[x], PrivCnf(StartWave, k), Req(StopWave, x));
      }
    }
  }

  lemma OnTimeStays(o: Ports, v: System, i: ActorId, x: ActorId, o': Ports, v': System)
    requires RunsLike(o, v) && SameAnswer(o, v, i) && SameMailOf(o, v, i, o.queues[i][0])
    requires o' == Serve(o, i) && v' == Deliver(v, o.queues[i][0]) && SameTree(o', v')
    requires x < |o.nodes| && !Late(o, x) && o'.nodes[x] == Bare(v'.nodes[x])
    ensures Mirrored(o', v', x)
  {
    assert Follows(o, v, x);
    forall msg ensures SameMailOf(o', v', x, msg) {
      assert SameMailOf(o, v, x, msg);
      MailFollows(o, v, i, x, msg);
    }
  }

  lemma OtherMessage(o: Ports, v: System, i: ActorId) returns (v': System)
    requires RunsLike(o, v) && HasMail(o, i) && !StartCnf(o.queues[i][0])
    ensures RunsLike(Serve(o, i), v')
  {
    var msg, o' := o.queues[i][0], Serve(o, i);
    AnswersAlike(o, v, i);
    v' := Deliver(v, msg);
    HandleKept(v, v', msg);
    DeliverReacts(v, msg, i);
    ServeShape(o.(stops := v.stops), v, i, v');
    forall x ensures Late(o', x) == Late(o, x) {
      SameLateness(o, v, i, v', x);
    }
    forall x | 0 <= x < |o'.nodes| ensures Follows(o', v', x) {
      SameLateness(o, v, i, v', x);
      if Late(o, x) {
        LateStaysLate(o, v, i, x, o', v');
      } else {
        OnTimeStays(o, v, i, x, o', v');
      }
    }
  }

  // ----- every step, every run -----

  lemma StepFollows(o: Ports, v: System, i: ActorId) returns (v': System)
    requires RunsLike(o, v) && HasMail(o, i)
    ensures RunsLike(Serve(o, i), v')
  {
    var msg := o.queues[i][0];
    if StartCnf(msg) {
      v' := v;
      assert msg == PrivCnf(StartWave, msg.from) && Follows(o, v, i);
      OnlyLateHearStart(o, v, i);
      if |Owed(o, i)| > 1 { CountsLateRuns(o, v, i, msg.from); } else { CompletesLateRuns(o, v, i, msg.from); }
    } else {
      v' := OtherMessage(o, v, i);
    }
  }

  lemma OnlyLateHearStart(o: Ports, v: System, i: ActorId)
    requires RunsLike(o, v) && HasMail(o, i) && StartCnf(o.queues[i][0])
    ensures Late(o, i) && |Owed(o, i)| >= 1
  {
    var msg := o.queues[i][0];
    assert Follows(o, v, i);
    NoStartMail(v, msg);
    assert msg in multiset(o.queues[i]);
    assert !Late(o, i) ==> SameMailOf(o, v, i, msg);
  }

  /** Whatever runs like a started tree leaves its stop wait only when every actor is STOPPED and no message is left. */
  lemma EndsStopped(o: Ports, v: System, i: ActorId)
    requires RunsLike(o, v) && !o.running && i < |o.nodes|
    ensures o.nodes[i].state == STOPPED && o.queues[i] == []
  {
    RootDownAllDown(v);
    assert NodeSound(v.nodes[i]) && Follows(o, v, i);
    if o.queues[i] != [] {
      var m := o.queues[i][0];
      assert m in multiset(o.queues[i]) && SameMailOf(o, v, i, m);
      NothingInFlight(v, m);
    }
  }

  lemma NothingInFlight(v: System, m: Msg)
    requires WaveInv(v) && !v.running
    ensures v.flight[m] == 0
  {
    RootDownAllDown(v);
    assert v.flight[m] == Expected(v, m);
  }

  // ----- the moment of Stop -----

  /** Every child of the fork has started. */
  ghost predicate ForkStarted(o: Ports)
    requires Shaped(o)
  {
    forall f: ActorId, k: ActorId :: f < |o.parent| && IsFork(o.parent, f) && KidOf(o, k, f) ==> o.nodes[k].state == STARTED
  }

  /** The state is one of the start wave, somebody has started, and so have the children of the fork. */
  ghost predicate Harmless(o: Ports, v: System) {
    && Mirrors(o, v) && WaveInv(v) && v.stops == 0 && ForkStarted(o)
    && exists q :: 0 <= q < |o.nodes| && o.nodes[q].state == STARTED
  }

  lemma StageOfState(o: Ports, v: System, x: ActorId)
    requires Mirrors(o, v) && WaveInv(v) && v.stops == 0 && x < |o.nodes|
    ensures v.nodes[x].stage <= 4 && o.nodes[x] == Bare(v.nodes[x])
    ensures Late(o, x) <==> v.nodes[x].stage <= 2
    ensures !Late(o, x) ==> o.nodes[x] == Node(STARTED, 0, 1, 0, DORMANT)
    ensures Late(o, x) ==> o.nodes[x] == Node(CTOR_FINISHED, o.nodes[x].cnfCount, 0, 0, DORMANT)
  {
    assert Mirrored(o, v, x) && NodeSound(v.nodes[x]) && CountSound(v, x);
    AllDescendFromRoot(v.parent, x);
    if x != 0 { Below(v, x, 0); }
  }

  lemma LateOnSpine(o: Ports, v: System, x: ActorId)
    requires Harmless(o, v) && Late(o, x)
    ensures Spine(o.parent, x)
  {
    if !Spine(o.parent, x) {
      var f, k := OffSpine(o.parent, x);
      assert KidOf(o, k, f);
      StageOfState(o, v, k);
      StageOfState(o, v, x);
      if x != k { BelowStarted(v, x, k); }
    }
  }

  lemma LateWaits(o: Ports, v: System, x: ActorId)
    requires Harmless(o, v) && Late(o, x)
    ensures v.nodes[x].stage == 2 && Kids(o.parent, x) != [] && (x > 0 ==> Late(o, o.parent[x]))
  {
    LateOnSpine(o, v, x);
    var q :| 0 <= q < |o.nodes| && o.nodes[q].state == STARTED;
    StageOfState(o, v, q);
    StageOfState(o, v, x);
    SpineComparable(o.parent, x, q);
    if Descends(o.parent, x, q) {
      BelowStarted(v, x, q);
    }
    AboveWaits(v, q, x);
    HasKid(o.parent, q, x);
    if x > 0 {
      assert IsKid(v, x, o.parent[x]);
      StageOfState(o, v, o.parent[x]);
    }
  }

  lemma {:induction false} HasKid(parent: seq<ActorId>, d: ActorId, a: ActorId)
    requires IsTree(parent) && d < |parent| && a < |parent| && Descends(parent, d, a) && d != a
    ensures Kids(parent, a) != []
  {
    if parent[d] == a {
      KidsMembers(parent, a);
      assert d in Kids(parent, a);
    } else {
      HasKid(parent, parent[d], a);
    }
  }

  function Uncounted(s: System, kids: seq<ActorId>): set<ActorId> { set k | k in kids && StageAt(s, k) != 4 }

  lemma UncountedFirst(s: System, kids: seq<ActorId>)
    requires kids != [] && forall a :: 0 < a < |kids| ==> kids[0] < kids[a]
    ensures kids[0] !in Uncounted(s, kids[1..])
    ensures Uncounted(s, kids) == Uncounted(s, kids[1..]) + (if StageAt(s, kids[0]) != 4 then {kids[0]} else {})
  {
    assert kids == [kids[0]] + kids[1..];
  }

  // Children not counted and children counted are all children.
  lemma {:induction false} CountedAndOwed(s: System, kids: seq<ActorId>)
    requires forall a, b :: 0 <= a < b < |kids| ==> kids[a] < kids[b]
    ensures Total(StagesOf(s, kids), IsUp) + |Uncounted(s, kids)| == |kids|
  {
    if kids == [] {
      assert Uncounted(s, kids) == {};
    } else {
      CountedAndOwed(s, kids[1..]);
      assert StagesOf(s, kids)[1..] == StagesOf(s, kids[1..]);
      UncountedFirst(s, kids);
    }
  }

  lemma StartMail(o: Ports, v: System, x: ActorId, msg: Msg)
    requires Harmless(o, v) && x < |o.nodes|
    ensures multiset(o.queues[x])[msg]
            == Bit(StartCnf(msg) && KidOf(o, msg.from, x) && StageAt(v, msg.from) == 3)
    ensures StartCnf(msg) && KidOf(o, msg.from, x) && StageAt(v, msg.from) == 3 ==> Late(o, x)
  {
    assert Mirrored(o, v, x) && SameMailOf(o, v, x, msg);
    assert v.flight[msg] == Expected(v, msg);
    if msg.Req? && msg.to < |o.nodes| {
      StageOfState(o, v, msg.to);
      if Late(o, msg.to) { LateWaits(o, v, msg.to); }
    }
    if msg.PrivCnf? {
      if msg.from < |o.nodes| { StageOfState(o, v, msg.from); }
      if KidOf(o, msg.from, x) {
        assert IsKid(v, msg.from, x);
        StageOfState(o, v, x);
      }
    }
  }

  // The mail of `x` once `Stop` is published.
  lemma StoppedMail(o: Ports, v: System, x: ActorId, msg: Msg)
    requires Harmless(o, v) && x < |o.nodes|
    ensures multiset(WithStop(o).queues[x])[msg]
            == (if msg == Stop then Bit(x == 0) else Bit(StartCnf(msg) && KidOf(o, msg.from, x) && StageAt(v, msg.from) == 3))
    ensures msg in WithStop(o).queues[x] <==> multiset(WithStop(o).queues[x])[msg] > 0
  {
    StartMail(o, v, x, msg);
    if x == 0 {
      assert multiset(WithStop(o).queues[0]) == multiset(o.queues[0]) + multiset([Stop]);
    }
  }

  lemma BeginsLate(o: Ports, v: System, x: ActorId)
    requires Harmless(o, v) && Late(o, x)
    ensures LateMirror(WithStop(o), StopSent(o.parent), x)
  {
    var o', v' := WithStop(o), StopSent(o.parent);
    LateOnSpine(o, v, x);
    LateWaits(o, v, x);
    StageOfState(o, v, x);
    BeginsOwed(o, v, x);
    forall msg ensures LateMail(o', v', x, msg) {
      StoppedMail(o, v, x, msg);
      if StartCnf(msg) && msg.from < |o.nodes| { StageOfState(o, v, msg.from); }
    }
    forall k ensures PrivCnf(StopWave, k) !in o'.queues[x] && Req(StopWave, x) !in o'.queues[x] {
      StoppedMail(o, v, x, PrivCnf(StopWave, k));
      StoppedMail(o, v, x, Req(StopWave, x));
    }
  }

  lemma BeginsOwed(o: Ports, v: System, x: ActorId)
    requires Harmless(o, v) && Late(o, x)
    ensures Owed(WithStop(o), x) != {} && o.nodes[x].cnfCount + |Owed(WithStop(o), x)| == |Kids(o.parent, x)|
  {
    var kids := Kids(o.parent, x);
    StageOfState(o, v, x);
    LateWaits(o, v, x);
    KidsMembers(o.parent, x);
    CountedAndOwed(v, kids);
    assert CountSound(v, x);
    forall k | KidOf(o, k, x)
      ensures k in kids && (StageAt(v, k) != 4 <==> Late(o, k) || PrivCnf(StartWave, k) in WithStop(o).queues[x])
    {
      StoppedMail(o, v, x, PrivCnf(StartWave, k));
      StageOfState(o, v, k);
    }
    assert Owed(WithStop(o), x) == Uncounted(v, kids);
  }

  lemma BeginsOnTime(o: Ports, v: System, x: ActorId)
    requires Harmless(o, v) && x < |o.nodes| && !Late(o, x)
    ensures Mirrored(WithStop(o), StopSent(o.parent), x)
  {
    StageOfState(o, v, x);
    forall msg ensures SameMailOf(WithStop(o), StopSent(o.parent), x, msg) {
      StoppedMail(o, v, x, msg);
      StartMail(o, v, x, msg);
    }
  }

  lemma BeginsToRun(o: Ports, v: System)
    requires Harmless(o, v) && o.running
    ensures RunsLike(WithStop(o), StopSent(o.parent))
  {
    StopSentSound(o.parent);
    forall x | 0 <= x < |o.nodes| ensures Follows(WithStop(o), StopSent(o.parent), x) {
      if Late(o, x) { BeginsLate(o, v, x); } else { BeginsOnTime(o, v, x); }
    }
  }

  // ----- handlers cut at their publications -----

  /** No child of the fork has still to publish its confirmation. */
  ghost predicate ForkTold(o: Ports)
    requires Shaped(o)
  {
    forall f: ActorId, k: ActorId :: f < |o.parent| && IsFork(o.parent, f) && KidOf(o, k, f) ==> PrivCnf(StartWave, k) !in o.outboxes[k]
  }

  /** Every child of the fork is STARTED and has published its PrivStartCnf. */
  ghost predicate ForkConfirmed(o: Ports)
    requires Shaped(o)
  {
    ForkStarted(o) && ForkTold(o)
  }

  /** Settled, `o` runs like `v`. */
  ghost predicate RunsTo(o: Ports, c: Ports, v: System) { Settles(o, c) && ForkTold(o) && RunsLike(c, v) }

  /** The start confirmation of no child waits behind position `n` for a message that must not precede it. */
  ghost predicate MayHasten(c: Ports, x: ActorId, n: nat, t: nat)
    requires x < |c.queues| && n <= t < |c.queues[x]|
  {
    && (forall k: ActorId :: c.queues[x][t] == PrivCnf(StopWave, k) ==> PrivCnf(StartWave, k) !in c.queues[x][n..])
    && (c.queues[x][t] == Req(StopWave, x) && |Kids(c.parent, x)| >= 2 && Late(c, x) ==>
          forall k: ActorId :: KidOf(c, k, x) ==> PrivCnf(StartWave, k) !in c.queues[x][n..])
  }

  lemma HastenLate(c: Ports, v: System, c': Ports, x: ActorId, n: nat, t: nat)
    requires RunsLike(c, v) && HastensTo(c, c', x, n, t) && MayHasten(c, x, n, t) && x < |c.nodes| && Late(c, x)
    ensures LateMirror(c', v, x)
  {
    var before, after := c.queues[x], c'.queues[x];
    assert Follows(c, v, x);
    HastenCounts(before, n, t);
    forall m ensures m in after <==> m in before {
      assert m in after <==> m in multiset(after);
      assert m in before <==> m in multiset(before);
    }
    assert Owed(c', x) == Owed(c, x);
    forall m ensures LateMail(c', v, x, m) { assert LateMail(c, v, x, m); }
    forall k | KidOf(c', k, x)
      ensures Ahead(after, PrivCnf(StartWave, k), PrivCnf(StopWave, k))
      ensures |Kids(c.parent, x)| >= 2 ==> Ahead(after, PrivCnf(StartWave, k), Req(StopWave, x))
    {
      assert KidOf(c, k, x);
      HastenAhead(before, n, t, PrivCnf(StartWave, k), PrivCnf(StopWave, k));
      if |Kids(c.parent, x)| >= 2 { HastenAhead(before, n, t, PrivCnf(StartWave, k), Req(StopWave, x)); }
    }
  }

  lemma HastenFollows(c: Ports, v: System, c': Ports, x: ActorId, n: nat, t: nat)
    requires RunsLike(c, v) && HastensTo(c, c', x, n, t) && MayHasten(c, x, n, t)
    ensures RunsLike(c', v)
  {
    HastenCounts(c.queues[x], n, t);
    forall y | 0 <= y < |c'.nodes| ensures Follows(c', v, y) {
      assert Follows(c, v, y);
      if y != x {
        FollowsUntouched(c, v, y, c');
      } else if Late(c, x) {
        HastenLate(c, v, c', x, n, t);
      } else {
        forall m ensures SameMailOf(c', v, x, m) { assert SameMailOf(c, v, x, m); }
      }
    }
  }

  lemma NoStartPending(o: Ports, c: Ports, x: ActorId, k: ActorId)
    requires Settles(o, c) && x < |o.queues| && (k < |o.outboxes| ==> PrivCnf(StartWave, k) !in o.outboxes[k])
    ensures |o.queues[x]| <= |c.queues[x]| && PrivCnf(StartWave, k) !in c.queues[x][|o.queues[x]|..]
  {
    assert Settled(o, c, x);
    var n := |o.queues[x]|;
    if PrivCnf(StartWave, k) in c.queues[x][n..] {
      var y :| 0 <= y < |c.queues[x][n..]| && c.queues[x][n..][y] == PrivCnf(StartWave, k);
      TailIsPending(o, c, x, y + n);
    }
  }

  lemma EmitMayHasten(o: Ports, c: Ports, v: System, i: ActorId, t: nat, c': Ports)
    requires RunsTo(o, c, v) && Emits(o, c, i, t, c') && Heard(o.outboxes[i][0])
    ensures var x := Receiver(o.parent, o.outboxes[i][0]); MayHasten(c, x, |o.queues[x]|, t)
  {
    var m := o.outboxes[i][0];
    var x := Receiver(o.parent, m);
    assert TidyBox(o.parent, i, o.outboxes[i]);
    forall k: ActorId | m == PrivCnf(StopWave, k) ensures PrivCnf(StartWave, k) !in c.queues[x][|o.queues[x]|..] {
      NoStartPending(o, c, x, k);
    }
    if m == Req(StopWave, x) && |Kids(c.parent, x)| >= 2 && Late(c, x) {
      assert Follows(c, v, x);
      assert IsFork(c.parent, x);
      forall k: ActorId | KidOf(c, k, x) ensures PrivCnf(StartWave, k) !in c.queues[x][|o.queues[x]|..] {
        assert KidOf(o, k, x);
        NoStartPending(o, c, x, k);
      }
    }
  }

  lemma EmitFollows(o: Ports, c: Ports, v: System, i: ActorId) returns (c': Ports)
    requires RunsTo(o, c, v) && HasToPublish(o, i)
    ensures RunsTo(Send(o, i), c', v)
  {
    var m, o' := o.outboxes[i][0], Send(o, i);
    var t: nat;
    c', t := SendSettles(o, c, i);
    forall f: ActorId, k: ActorId | f < |o'.parent| && IsFork(o'.parent, f) && KidOf(o', k, f)
      ensures PrivCnf(StartWave, k) !in o'.outboxes[k]
    {
      assert KidOf(o, k, f);
      assert forall a :: a in o'.outboxes[k] ==> a in o.outboxes[k];
    }
    if Heard(m) {
      EmitMayHasten(o, c, v, i, t, c');
      HastenFollows(c, v, c', Receiver(o.parent, m), |o.queues[Receiver(o.parent, m)]|, t);
    }
  }

  // A child of the fork confirms no start any more.
  lemma NoStartFromKid(c: Ports, v: System, i: ActorId, f: ActorId)
    requires RunsLike(c, v) && HasMail(c, i) && f < |c.parent| && IsFork(c.parent, f) && KidOf(c, i, f)
    ensures PrivCnf(StartWave, i) !in React(c.parent, i, c.nodes[i], c.queues[i][0]).out
  {
    ForkKidsAreNotLate(c, v, f, i);
    if StartCnf(c.queues[i][0]) {
      OnlyLateHearStart(c, v, i);
    } else {
      AnswersAlike(c, v, i);
      NoStartAnswer(c, v, i);
    }
  }

  lemma StopComesToRoot(c: Ports, v: System, i: ActorId)
    requires RunsLike(c, v) && HasMail(c, i) && c.queues[i][0] == Stop
    ensures i == 0
  {
    assert Follows(c, v, i);
    assert Late(c, i) ==> LateMail(c, v, i, Stop);
    assert SameMailOf(c, v, i, Stop);
    assert Stop in multiset(c.queues[i]);
  }

  lemma BeginFollows(o: Ports, c: Ports, v: System, i: ActorId) returns (v': System)
    requires RunsTo(o, c, v) && HasMail(o, i) && o.outboxes[i] == []
    ensures HasMail(c, i) && RunsTo(Take(o, i), Serve(c, i), v')
  {
    assert Settled(o, c, i);
    var o' := Take(o, i);
    if c.queues[i][0] == Stop { StopComesToRoot(c, v, i); }
    TakeSettles(o, c, i);
    v' := StepFollows(c, v, i);
    forall f: ActorId, k: ActorId | f < |o'.parent| && IsFork(o'.parent, f) && KidOf(o', k, f)
      ensures PrivCnf(StartWave, k) !in o'.outboxes[k]
    {
      assert KidOf(o, k, f);
      if k == i { NoStartFromKid(c, v, i, f); }
    }
  }

  lemma {:induction false} RunFollows(states: seq<Ports>, acts: seq<Act>, c: Ports, v: System, k: nat) returns (c': Ports, v': System)
    requires IsChain(Acts, states, acts) && k <= |acts| && RunsTo(states[0], c, v)
    ensures RunsTo(states[k], c', v')
  {
    if k == 0 {
      c', v' := c, v;
    } else {
      var b, u := RunFollows(states, acts, c, v, k - 1);
      var o, i := states[k - 1], acts[k - 1].i;
      assert Acts(o, acts[k - 1], states[k]);
      if acts[k - 1].Begin? {
        v' := BeginFollows(o, b, u, i);
        c' := Serve(b, i);
      } else {
        c' := EmitFollows(o, b, u, i);
        v' := u;
      }
    }
  }

  // ----- the early Stop -----

  /** `o`, settled, is harmless, and the children of its fork have confirmed. */
  ghost predicate HarmlessTo(o: Ports, c: Ports, v: System) { Settles(o, c) && Harmless(c, v) && ForkTold(o) }

  lemma BeginsRunning(o: Ports, c: Ports, v: System) returns (c': Ports)
    requires HarmlessTo(o, c, v)
    ensures RunsTo(WithStop(o), c', StopSent(o.parent))
  {
    assert c.running by { assert Mirrored(c, v, 0); StageOfState(c, v, 0); }
    BeginsToRun(c, v);
    var o', c1 := WithStop(o), WithStop(c);
    c' := StopSettles(o, c);
    HastenFollows(c1, StopSent(o.parent), c', 0, |o.queues[0]|, |c.queues[0]|);
    forall f: ActorId, k: ActorId | f < |o'.parent| && IsFork(o'.parent, f) && KidOf(o', k, f)
      ensures PrivCnf(StartWave, k) !in o'.outboxes[k]
    {
      assert KidOf(o, k, f);
    }
  }

  /** When the children of the fork have confirmed, an early `Stop` is harmless: `run()` leaves over STOPPED actors only. */
  lemma HarmlessStop(o: Ports, c: Ports, v: System, o': Ports, i: ActorId)
    requires HarmlessTo(o, c, v) && Leads(WithStop(o), o') && !o'.running && i < |o'.nodes|
    ensures o'.nodes[i].state == STOPPED && i < |o'.queues| && o'.queues[i] == []
  {
    var c0 := BeginsRunning(o, c, v);
    var states: seq<Ports>, acts: seq<Act> :|
      IsChain(Acts, states, acts) && states[0] == WithStop(o) && states[|acts|] == o';
    var c', v' := RunFollows(states, acts, c0, StopSent(o.parent), |acts|);
    EndsStopped(c', v', i);
    assert Settled(o', c', i);
  }
}
