/**
 Exactly when an early `Stop` breaks the wave. The guard of `publish` looks at the publisher
 alone, so a STARTED actor may publish `Stop` while others have not started, and the shared
 counter of an actor with several children may then add start and stop confirmations. With
 messages handled per port in the order of publication and handlers cut at each publication, that
 can happen if and only if a child of the first actor with several children, going down from the
 root, has not yet published its PrivStartCnf. A start callback may thus publish `Stop` if and only
 if no actor above its own has another child.
 */
module LifeCycleEarlyStop {
  import opened Chains
  import opened LifeCycle
  import opened LifeCycleInvariant
  import opened LifeCycleSteps
  import opened LifeCycleTheorems
  import opened LifeCyclePorts
  import opened LifeCycleMirror
  import opened LifeCycleSettled
  import opened LifeCycleSpine
  import opened EarlyStopSafe
  import opened EarlyStopOvertakes

  /** By handling messages, `run()` may come to leave over an actor that is not STOPPED. */
  ghost predicate MayLeaveEarly(o: Ports) {
    exists o': Ports, i: ActorId :: Leads(o, o') && !o'.running && i < |o'.nodes| && o'.nodes[i].state != STOPPED
  }

  lemma ReachSound(parent: seq<ActorId>, o: Ports) returns (c: Ports, v: System)
    requires IsTree(parent) && CanReach(parent, o) && o.stops == 0
    ensures Settles(o, c) && Mirrors(c, v) && WaveInv(v) && v.parent == parent && o.running
  {
    var states: seq<Ports>, turns: seq<Turn> :|
      IsChain(Goes, states, turns) && states[0] == Fresh(parent) && states[|turns|] == o;
    c, v := ReachMirrors(parent, states, turns, |turns|);
    StageOfState(c, v, 0);
  }

  /** Only a STARTED actor can publish `Stop`, and it always can. */
  lemma HaltExactly(o: Ports, p: ActorId)
    requires |o.queues| > 0
    ensures forall o': Ports :: Goes(o, Halt(p), o') <==> p < |o.nodes| && o.nodes[p].state == STARTED && o' == WithStop(o)
  {
  }

  /**
   Published in any state of the start wave, `Stop` may end `run()` over actors that are not
   stopped if and only if some child of the fork has not confirmed its start.
   */
  lemma EarlyStopExactly(parent: seq<ActorId>, o: Ports, p: ActorId, o1: Ports)
    requires IsTree(parent) && CanReach(parent, o) && o.stops == 0 && Goes(o, Halt(p), o1)
    ensures Shaped(o) && o.parent == parent
    ensures MayLeaveEarly(o1) <==> !ForkConfirmed(o)
  {
    HaltExactly(o, p);
    var c, v := ReachSound(parent, o);
    if ForkConfirmed(o) {
      forall o': Ports, i: ActorId | Leads(WithStop(o), o') && !o'.running && i < |o'.nodes|
        ensures o'.nodes[i].state == STOPPED
      {
        HarmlessStop(o, c, v, o', i);
      }
    } else {
      var f: ActorId, j: ActorId :|
        f < |o.parent| && IsFork(o.parent, f) && KidOf(o, j, f)
        && (o.nodes[j].state != STARTED || PrivCnf(StartWave, j) in o.outboxes[j]);
      var o' := HarmfulStop(o, c, v, f, j);
    }
  }

  /** A pending confirmation is not counted yet, and its actor is STARTED. */
  lemma PendingIsTold(o: Ports, c: Ports, v: System, k: ActorId)
    requires Settles(o, c) && Mirrors(c, v) && WaveInv(v) && 0 < k < |o.outboxes| && PrivCnf(StartWave, k) in o.outboxes[k]
    ensures v.nodes[k].stage == 3
  {
    var m := PrivCnf(StartWave, k);
    var x := Receiver(o.parent, m);
    assert Settled(o, c, x) && SettledMail(o, c, x, m) && Mirrored(c, v, x) && SameMailOf(c, v, x, m);
    assert v.flight[m] == Expected(v, m);
  }

  /** Whoever is STARTED has the confirmations of everybody below. */
  lemma StartedIsConfirmed(o: Ports, c: Ports, v: System, a: ActorId, k: ActorId)
    requires Settles(o, c) && Mirrors(c, v) && WaveInv(v) && v.stops == 0 && a < |o.nodes| && o.nodes[a].state == STARTED
    requires k < |o.nodes| && Descends(o.parent, k, a) && k != a
    ensures o.nodes[k].state == STARTED && PrivCnf(StartWave, k) !in o.outboxes[k]
  {
    StageOfState(c, v, a);
    BelowStarted(v, k, a);
    StageOfState(c, v, k);
    DescendsLater(o.parent, k, a);
    if PrivCnf(StartWave, k) in o.outboxes[k] { PendingIsTold(o, c, v, k); }
  }

  /** The supported use is a harmless one: with the root STARTED the children of the fork have confirmed. */
  lemma RootStartedIsEnough(parent: seq<ActorId>, o: Ports)
    requires IsTree(parent) && CanReach(parent, o) && o.stops == 0 && |o.nodes| > 0 && o.nodes[0].state == STARTED
    ensures Shaped(o) && ForkConfirmed(o)
  {
    var c, v := ReachSound(parent, o);
    forall f: ActorId, k: ActorId | f < |o.parent| && IsFork(o.parent, f) && KidOf(o, k, f)
      ensures o.nodes[k].state == STARTED && PrivCnf(StartWave, k) !in o.outboxes[k]
    {
      AllDescendFromRoot(parent, k);
      StartedIsConfirmed(o, c, v, 0, k);
    }
  }

  // Below a child `k` of the fork somebody is in the middle of starting, so `k` has not confirmed.
  lemma KidNotConfirmed(o: Ports, c: Ports, v: System, i: ActorId, k: ActorId)
    requires Settles(o, c) && Mirrors(c, v) && WaveInv(v) && v.stops == 0 && 0 < i < |o.outboxes|
    requires PrivCnf(StartWave, i) in o.outboxes[i] && k < |o.nodes| && Descends(o.parent, i, k)
    ensures o.nodes[k].state != STARTED || PrivCnf(StartWave, k) in o.outboxes[k]
  {
    if i != k && o.nodes[k].state == STARTED { StartedIsConfirmed(o, c, v, k, i); }
  }

  /**
   A start callback of actor `i`, which runs before the actor confirms, may publish `Stop` without
   harm if and only if no actor above `i` has another child.
   */
  lemma CallBackStopExactly(parent: seq<ActorId>, o: Ports, i: ActorId)
    requires IsTree(parent) && CanReach(parent, o) && o.stops == 0
    requires i < |o.nodes| && o.nodes[i].state == STARTED
    requires i < |o.outboxes| && o.outboxes[i] == [PubCnf(StartWave, i), PrivCnf(StartWave, i)]
    ensures Shaped(o) && o.parent == parent && Goes(o, Halt(i), WithStop(o))
    ensures MayLeaveEarly(WithStop(o)) <==> !Spine(parent, i)
  {
    var c, v := ReachSound(parent, o);
    EarlyStopExactly(parent, o, i, WithStop(o));
    assert PrivCnf(StartWave, i) in o.outboxes[i];
    if Spine(parent, i) {
      forall f: ActorId, k: ActorId | f < |o.parent| && IsFork(o.parent, f) && KidOf(o, k, f)
        ensures o.nodes[k].state == STARTED && PrivCnf(StartWave, k) !in o.outboxes[k]
      {
        BelowFork(parent, i, f, k);
        StartedIsConfirmed(o, c, v, i, k);
      }
    } else {
      var f, k := OffSpine(parent, i);
      KidNotConfirmed(o, c, v, i, k);
      assert KidOf(o, k, f);
    }
  }

  // The children of the fork are below every actor of the spine.
  lemma BelowFork(parent: seq<ActorId>, i: ActorId, f: ActorId, k: ActorId)
    requires IsTree(parent) && i < |parent| && Spine(parent, i) && f < |parent| && IsFork(parent, f) && 0 < k < |parent| && parent[k] == f
    ensures Descends(parent, k, i) && k != i
  {
    KidsMembers(parent, f);
    SpineComparable(parent, i, k);
    if k == i || !Descends(parent, k, i) {
      assert Descends(parent, k, f);
      DescendsChain(parent, i, k, f);
      var e := SpineKid(parent, i, f);
    }
  }

  /** A harmless early `Stop` does not make the waves stick either: until `run()` may leave some actor can act. */
  lemma HarmlessStopGoesOn(parent: seq<ActorId>, o: Ports, p: ActorId, o': Ports)
    requires IsTree(parent) && CanReach(parent, o) && o.stops == 0
    requires p < |o.nodes| && o.nodes[p].state == STARTED && Shaped(o) && ForkConfirmed(o)
    requires Leads(WithStop(o), o') && o'.running
    ensures exists act: Act, o'': Ports :: Acts(o', act, o'')
  {
    var c, v := ReachSound(parent, o);
    var c0 := BeginsRunning(o, c, v);
    var states: seq<Ports>, acts: seq<Act> :|
      IsChain(Acts, states, acts) && states[0] == WithStop(o) && states[|acts|] == o';
    var c', v' := RunFollows(states, acts, c0, StopSent(o.parent), |acts|);
    var i := StopGoesOn(c', v');
    SomebodyActs(o', c', i);
  }

  // Mail of the settled view is in a queue or has still to be published.
  lemma SomebodyActs(o: Ports, c: Ports, i: ActorId)
    requires Settles(o, c) && HasMail(c, i)
    ensures exists act: Act, o': Ports :: Acts(o, act, o')
  {
    assert Settled(o, c, i);
    if o.queues[i] == [] { TailIsPending(o, c, i, 0); }
    var x := if o.queues[i] == [] then Sender(o.parent, c.queues[i][0]) else i;
    if HasToPublish(o, x) {
      assert Acts(o, Emit(x), Send(o, x));
    } else {
      assert Acts(o, Begin(i), Take(o, i));
    }
  }

  lemma StopGoesOn(o: Ports, v: System) returns (i: ActorId)
    requires RunsLike(o, v) && o.running
    ensures HasMail(o, i)
  {
    var msg := StopInFlight(v);
    i := Receiver(v.parent, msg);
    assert Follows(o, v, i);
    NotAStartCnf(v, msg);
    assert SameMailOf(o, v, i, msg) by { assert Late(o, i) ==> LateMail(o, v, i, msg); }
    assert msg in multiset(o.queues[i]);
    assert HasMail(o, i);
  }

  // ----- the harm is real -----

  // A root with the leaves 1 and 2.
  const FORK: seq<ActorId> := [0, 0, 0]

  lemma ForkKids()
    ensures IsTree(FORK) && Kids(FORK, 0) == [1, 2] && Kids(FORK, 1) == [] && Kids(FORK, 2) == []
  {
    assert KidsBelow(FORK, 0, 1) == [] && KidsBelow(FORK, 0, 2) == [1];
    assert KidsBelow(FORK, 1, 1) == [] && KidsBelow(FORK, 1, 2) == [];
    assert KidsBelow(FORK, 2, 1) == [] && KidsBelow(FORK, 2, 2) == [];
  }

  // Actor `i` handles its message without an interruption.
  lemma ReachServes(parent: seq<ActorId>, o: Ports, i: ActorId)
    requires IsTree(parent) && CanReach(parent, o) && HasMail(o, i) && i < |o.outboxes| && o.outboxes[i] == []
    ensures CanReach(parent, Serve(o, i))
  {
    ServeLeads(o, i);
    var states: seq<Ports>, acts: seq<Act> :|
      IsChain(Acts, states, acts) && states[0] == o && states[|acts|] == Serve(o, i);
    ReachLeads(parent, states, acts, |acts|);
  }

  lemma {:induction false} ReachLeads(parent: seq<ActorId>, states: seq<Ports>, acts: seq<Act>, k: nat)
    requires IsTree(parent) && IsChain(Acts, states, acts) && CanReach(parent, states[0]) && k <= |acts|
    ensures CanReach(parent, states[k])
  {
    if k > 0 {
      ReachLeads(parent, states, acts, k - 1);
      ReachGoes(parent, states[k - 1], Go(acts[k - 1]), states[k]);
    }
  }

  lemma ReachGoes(parent: seq<ActorId>, o: Ports, turn: Turn, o': Ports)
    requires IsTree(parent) && CanReach(parent, o) && Goes(o, turn, o')
    ensures CanReach(parent, o')
  {
    var states: seq<Ports>, turns: seq<Turn> :|
      IsChain(Goes, states, turns) && states[0] == Fresh(parent) && states[|turns|] == o;
    ChainGrows(Goes, states, turns, turn, o');
  }

  lemma ReachFresh(parent: seq<ActorId>)
    requires IsTree(parent)
    ensures CanReach(parent, Fresh(parent))
  {
    var none: seq<Turn> := [];
    assert IsChain(Goes, [Fresh(parent)], none);
  }

  // What the root does with its request.
  lemma RootForwards(o: Ports)
    requires o.parent == FORK && |o.nodes| == |o.queues| == 3 && o.queues == [[Req(StartWave, 0)], [], []]
    requires Kids(FORK, 0) == [1, 2]
    ensures HasMail(o, 0) && |Serve(o, 0).queues| == 3
    ensures Serve(o, 0).queues[1] == [Req(StartWave, 1)] && Serve(o, 0).queues[2] == [Req(StartWave, 2)]
    ensures Serve(o, 0).nodes == o.nodes[0 := Bare(o.nodes[0].(stage := DORMANT))]
  {
    MailOfRequests(FORK, StartWave, [1, 2], 1);
    MailOfRequests(FORK, StartWave, [1, 2], 2);
    assert Serve(o, 0).queues[1] == [] + [Req(StartWave, 1)] && Serve(o, 0).queues[2] == [] + [Req(StartWave, 2)];
  }

  // The root asks both leaves.
  lemma RootAsks() returns (o: Ports)
    ensures IsTree(FORK) && CanReach(FORK, o) && o.stops == 0 && Shaped(o) && o.parent == FORK
    ensures o.nodes[1].state == o.nodes[2].state == CTOR_FINISHED && o.outboxes[1] == o.outboxes[2] == []
    ensures o.queues[1] == [Req(StartWave, 1)] && o.queues[2] == [Req(StartWave, 2)]
  {
    ForkKids();
    ReachFresh(FORK);
    var o0 := Fresh(FORK);
    assert o0.queues == [[Req(StartWave, 0)], [], []];
    RootForwards(o0);
    ReachServes(FORK, o0, 0);
    o := Serve(o0, 0);
  }

  // Then leaf 1 starts and confirms.
  lemma LeafStarts() returns (o: Ports)
    ensures IsTree(FORK) && CanReach(FORK, o) && o.stops == 0 && Shaped(o) && o.parent == FORK
    ensures o.nodes[1].state == STARTED && o.outboxes[1] == []
    ensures o.nodes[2].state == CTOR_FINISHED && o.queues[2] == [Req(StartWave, 2)] && o.outboxes[2] == []
  {
    ForkKids();
    var o1 := RootAsks();
    ReachServes(FORK, o1, 1);
    o := Serve(o1, 1);
    MailOfCnfs(FORK, StartWave, 1, 2);
    assert o.queues[2] == o1.queues[2] + [];
  }

  /** With one `Stop`, published by a STARTED leaf, `run()` may leave although an actor was not stopped. */
  lemma EarlyStopBreaksTheWave()
    ensures exists o: Ports, p: ActorId ::
              && IsTree(FORK) && CanReach(FORK, o) && o.stops == 0 && Shaped(o)
              && Goes(o, Halt(p), WithStop(o)) && MayLeaveEarly(WithStop(o))
  {
    var o := LeafStarts();
    EarlyStopExactly(FORK, o, 1, WithStop(o));
    ForkKids();
    assert IsFork(FORK, 0) && KidOf(o, 2, 0);
  }

  /** It may do so even when every child of the fork is STARTED: leaf 2 publishes `Stop` in its start callback. */
  lemma StartedIsNotEnough()
    ensures exists o: Ports ::
              && IsTree(FORK) && CanReach(FORK, o) && o.stops == 0 && Shaped(o) && ForkStarted(o)
              && Goes(o, Halt(2), WithStop(o)) && MayLeaveEarly(WithStop(o))
  {
    var o1 := LeafStarts();
    ForkKids();
    var o := Take(o1, 2);
    assert Acts(o1, Begin(2), o);
    ReachGoes(FORK, o1, Go(Begin(2)), o);
    CallBackStopExactly(FORK, o, 2);
    assert !Spine(FORK, 2);
    forall f: ActorId, k: ActorId | f < |o.parent| && IsFork(o.parent, f) && KidOf(o, k, f)
      ensures o.nodes[k].state == STARTED
    {
      assert f == 0 && (k == 1 || k == 2);
    }
  }
}
