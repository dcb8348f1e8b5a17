/** What holds in every supported run of the two waves over every finite tree. */
module LifeCycleTheorems {
  import opened Totals
  import opened LifeCycle
  import opened LifeCycleInvariant
  import opened LifeCycleSteps

  ghost predicate CanHappen(parent: seq<ActorId>, s: System)
    requires IsTree(parent)
  {
    exists states: seq<System>, steps: seq<Step> ::
      IsSupportedRun(states, steps) && states[0] == Created(parent) && states[|steps|] == s
  }

  lemma {:induction false} RunSound(states: seq<System>, steps: seq<Step>, k: nat)
    requires IsSupportedRun(states, steps) && WaveInv(states[0]) && k <= |steps|
    ensures WaveInv(states[k]) && states[k].parent == states[0].parent
  {
    if k > 0 {
      RunSound(states, steps, k - 1);
      NextSound(states[k - 1], steps[k - 1], states[k]);
    }
  }

  lemma NextSound(s: System, step: Step, s': System)
    requires WaveInv(s) && NextSupported(s, step, s')
    ensures WaveInv(s') && s'.parent == s.parent
  {
    StepKept(s, s', step);
  }

  lemma HappensSound(parent: seq<ActorId>, s: System)
    requires IsTree(parent) && CanHappen(parent, s)
    ensures WaveInv(s) && s.parent == parent
  {
    var states: seq<System>, steps: seq<Step> :|
      IsSupportedRun(states, steps) && states[0] == Created(parent) && states[|steps|] == s;
    StartsSound(parent);
    RunSound(states, steps, |steps|);
  }

  // ----- safety -----

  lemma {:induction false} Below(s: System, d: ActorId, a: ActorId)
    requires WaveInv(s) && d < |s.nodes| && a < |s.nodes| && Descends(s.parent, d, a) && d != a
    ensures s.nodes[a].stage >= 3 ==> s.nodes[d].stage >= 4
    ensures s.nodes[a].stage < 6 ==> s.nodes[d].stage <= 4
    ensures s.nodes[a].stage >= 7 ==> s.nodes[d].stage == 8
  {
    var p := s.parent[d];
    assert IsKid(s, d, p);
    if p != a {
      Below(s, p, a);
    }
  }

  lemma {:induction false} AllDescendFromRoot(parent: seq<ActorId>, d: ActorId)
    requires IsTree(parent) && d < |parent|
    ensures Descends(parent, d, 0)
  {
    if d > 0 {
      AllDescendFromRoot(parent, parent[d]);
    }
  }

  /**
   An actor is STARTED only when all its descendants have started, and STOPPED only when all its
   descendants are STOPPED; before `Stop` nothing below a STARTED actor is anything but STARTED.
   */
  lemma {:induction false} WaveSafety(parent: seq<ActorId>, s: System, a: ActorId, d: ActorId)
    requires IsTree(parent) && CanHappen(parent, s) && a < |parent| && d < |parent| && Descends(parent, d, a)
    ensures |s.nodes| == |parent|
    ensures s.nodes[a].state != CTOR_FINISHED ==> s.nodes[d].state != CTOR_FINISHED
    ensures s.nodes[a].state == STARTED && s.stops == 0 ==> s.nodes[d].state == STARTED
    ensures s.nodes[a].state == STOPPED ==> s.nodes[d].state == STOPPED
  {
    HappensSound(parent, s);
    assert NodeSound(s.nodes[a]) && NodeSound(s.nodes[d]);
    if d != a { Below(s, d, a); }
    AllDescendFromRoot(parent, d);
    if d != 0 { Below(s, d, 0); }
  }

  /** Own start and stop callbacks run exactly once, when the actor enters STARTED and STOPPED. */
  lemma CallBacksOnce(parent: seq<ActorId>, s: System, i: ActorId)
    requires IsTree(parent) && CanHappen(parent, s) && i < |s.nodes|
    ensures s.nodes[i].startRuns == (if s.nodes[i].state == CTOR_FINISHED then 0 else 1)
    ensures s.nodes[i].stopRuns == (if s.nodes[i].state == STOPPED then 1 else 0)
  {
    HappensSound(parent, s);
    assert NodeSound(s.nodes[i]);
  }

  /** The waves never mix: while anything of the stop wave is in flight, nothing of the start wave is. */
  lemma WavesNeverMix(parent: seq<ActorId>, s: System, early: Msg, late: Msg)
    requires IsTree(parent) && CanHappen(parent, s) && early in s.flight && late in s.flight
    requires (early.Req? || early.PrivCnf?) && early.wave == StartWave
    ensures late != Stop && (late.Req? || late.PrivCnf? ==> late.wave == StartWave)
    ensures s.stops == 0
  {
    HappensSound(parent, s);
    assert s.flight[early] == Expected(s, early);
    assert s.flight[late] == Expected(s, late);
    var i := if early.Req? then early.to else early.from;
    AllDescendFromRoot(parent, i);
    if i != 0 { Below(s, i, 0); }
    if late.Req? || late.PrivCnf? {
      var j := if late.Req? then late.to else late.from;
      AllDescendFromRoot(parent, j);
      if j != 0 { Below(s, j, 0); }
    }
  }

  /** The shared counter never leaves the range below the number of children, and is zero in an actor that waits for nobody. */
  lemma CounterBounds(parent: seq<ActorId>, s: System, i: ActorId)
    requires IsTree(parent) && CanHappen(parent, s) && i < |s.nodes|
    ensures s.nodes[i].cnfCount == 0 || s.nodes[i].cnfCount < |Kids(parent, i)|
    ensures s.flight == multiset{} && s.nodes[0].state != CTOR_FINISHED ==> s.nodes[i].cnfCount == 0
  {
    HappensSound(parent, s);
    assert CountSound(s, i);
    if s.flight == multiset{} && s.nodes[0].state != CTOR_FINISHED && Waits(s.nodes[i].stage) {
      NoneWaitsForEver(s, if s.nodes[i].stage == 2 then StartWave else StopWave, i);
    }
  }

  /** In an actor that waits the shared counter is the number of children confirmed in that wave, else it is zero. */
  lemma CounterExact(parent: seq<ActorId>, s: System, i: ActorId)
    requires IsTree(parent) && CanHappen(parent, s) && i < |s.nodes|
    ensures s.nodes[i].cnfCount == |set j | 0 < j < |parent| && parent[j] == i && Confirmed(s, i, j)|
  {
    HappensSound(parent, s);
    var kids := Kids(parent, i);
    KidsMembers(parent, i);
    assert CountSound(s, i);
    TotalIsCount(s, kids, 4, IsUp);
    TotalIsCount(s, kids, 8, IsDown);
    assert (set j | 0 < j < |parent| && parent[j] == i && Confirmed(s, i, j))
           == if s.nodes[i].stage == 2 then KidsAt(s, kids, 4) else if s.nodes[i].stage == 6 then KidsAt(s, kids, 8) else {};
  }

  function KidsAt(s: System, kids: seq<ActorId>, stage: Stage): set<ActorId> { set j | j in kids && StageAt(s, j) == stage }

  /** `i` waits in a wave and has counted its child `j` in it. */
  predicate Confirmed(s: System, i: ActorId, j: ActorId) {
    i < |s.nodes| && ((s.nodes[i].stage == Waiting(StartWave) && StageAt(s, j) == Counted(StartWave))
                      || (s.nodes[i].stage == Waiting(StopWave) && StageAt(s, j) == Counted(StopWave)))
  }

  lemma {:induction false} TotalIsCount(s: System, kids: seq<ActorId>, stage: Stage, w: Stage -> nat)
    requires forall a, b :: 0 <= a < b < |kids| ==> kids[a] < kids[b]
    requires forall x: Stage :: w(x) == Bit(x == stage)
    ensures Total(StagesOf(s, kids), w) == |KidsAt(s, kids, stage)|
  {
    if kids == [] {
      assert KidsAt(s, kids, stage) == {};
    } else {
      var rest := kids[1..];
      TotalIsCount(s, rest, stage, w);
      assert StagesOf(s, kids)[1..] == StagesOf(s, rest);
      CountFirst(s, kids, stage);
    }
  }

  lemma CountFirst(s: System, kids: seq<ActorId>, stage: Stage)
    requires kids != [] && forall a :: 0 < a < |kids| ==> kids[0] < kids[a]
    ensures kids[0] !in KidsAt(s, kids[1..], stage)
    ensures KidsAt(s, kids, stage) == KidsAt(s, kids[1..], stage) + (if StageAt(s, kids[0]) == stage then {kids[0]} else {})
  {
    assert kids == [kids[0]] + kids[1..];
  }

  /** The guard: `Stop`, and a public start confirmation, leave an actor in STARTED and in no other state. */
  lemma GuardExact(s: System, p: ActorId, msg: Msg)
    ensures Possible(s, PublishStop(p)) <==> p < |s.nodes| && s.nodes[p].state == STARTED
    ensures msg == Stop || (msg.PubCnf? && msg.wave == StartWave) ==>
              forall state: ActorState :: PublishAllowed(state, msg) <==> state == STARTED
    ensures msg.Req? || msg.PrivCnf? || (msg.PubCnf? && msg.wave == StopWave) ==>
              forall state: ActorState :: PublishAllowed(state, msg)
  {
  }

  /** An actor that is asked to stop, or that counts the stop of a child, is STARTED. */
  lemma StoppingActorIsStarted(parent: seq<ActorId>, s: System, msg: Msg)
    requires IsTree(parent) && CanHappen(parent, s) && Deliverable(s, msg)
    requires (msg.Req? || (msg.PrivCnf? && msg.from > 0)) && msg.wave == StopWave
    ensures s.nodes[Receiver(parent, msg)].state == STARTED
  {
    HappensSound(parent, s);
    var i := Receiver(parent, msg);
    assert s.flight[msg] == Expected(s, msg) && NodeSound(s.nodes[i]);
    if msg.PrivCnf? { ToldStage(s, StopWave, msg.from); } else { AskedStage(s, StopWave, i); }
  }

  /** What a callback publishes under the guard passes in the state in which the handler runs the callbacks. */
  predicate CallBackMayPublish(wave: Wave, kids: seq<ActorId>, node: Node) {
    PublishAllowed(CallBackState(wave, kids, node), Stop)
  }

  /**
   When an actor stops, in a supported run, its stop callbacks may publish if and only if it is a
   leaf; when it starts, its start callbacks always may.
   */
  lemma CallBacksPublishExactly(parent: seq<ActorId>, s: System, msg: Msg, wave: Wave)
    requires IsTree(parent) && CanHappen(parent, s) && Deliverable(s, msg)
    requires (msg.Req? || (msg.PrivCnf? && msg.from > 0)) && msg.wave == wave
    ensures var i := Receiver(parent, msg);
            var kids := Kids(parent, i);
            CallBackMayPublish(wave, kids, s.nodes[i]) <==> wave.StartWave? || kids == []
  {
    HappensSound(parent, s);
    if wave.StopWave? { StoppingActorIsStarted(parent, s, msg); }
  }

  /** `run()` leaves its stop wait only when the whole tree is STOPPED, with nothing in flight and every counter zero. */
  lemma RunEndsStopped(parent: seq<ActorId>, s: System, i: ActorId)
    requires IsTree(parent) && CanHappen(parent, s) && !s.running && i < |s.nodes|
    ensures s.nodes[i] == Node(STOPPED, 0, 1, 1, DOWN)
    ensures s.flight == multiset{}
  {
    HappensSound(parent, s);
    RootDownAllDown(s);
    assert NodeSound(s.nodes[i]) && CountSound(s, i);
    forall msg ensures s.flight[msg] == 0 {
      assert s.flight[msg] == Expected(s, msg);
    }
  }

  lemma RootDownAllDown(s: System)
    requires WaveInv(s) && !s.running
    ensures forall d :: 0 <= d < |s.nodes| ==> s.nodes[d].stage == 8
  {
    forall d | 0 <= d < |s.nodes| ensures s.nodes[d].stage == 8 {
      AllDescendFromRoot(s.parent, d);
      if d != 0 { Below(s, d, 0); }
    }
  }

  /**
   In a supported run nothing is left to be handled once `run()` may leave its stop wait; so
   Core's listener, which needs stopMutex_, does not come again while `run()` holds it for the drain.
   */
  lemma NothingHeardDuringDrain(parent: seq<ActorId>, s: System, msg: Msg)
    requires IsTree(parent) && CanHappen(parent, s) && !s.running
    ensures !Deliverable(s, msg)
  {
    HappensSound(parent, s);
    RunEndsStopped(parent, s, 0);
  }

  // ----- termination -----

  function ToGo(node: Node): nat { if node.stage <= 8 then 8 - node.stage else 0 }

  /** Stages still to go, plus the `Stop` not yet published. */
  function Left(s: System): nat { Total(s.nodes, ToGo) + (if s.stops == 0 then 1 else 0) }

  // Every node is at least as far, and `x` is further.
  lemma Advanced(s: System, s': System, x: ActorId)
    requires |s'.nodes| == |s.nodes| && x < |s.nodes| && s'.stops == s.stops
    requires forall k :: 0 <= k < |s.nodes| ==> s.nodes[k].stage <= s'.nodes[k].stage <= 8
    requires s.nodes[x].stage < s'.nodes[x].stage
    ensures Left(s') < Left(s)
  {
    var mid := s.nodes[x := s'.nodes[x]];
    TotalUpdate(s.nodes, ToGo, x, s'.nodes[x]);
    TotalMonotone(s'.nodes, ToGo, mid, ToGo);
  }

  lemma StagesBounded(s: System)
    requires WaveInv(s)
    ensures forall k :: 0 <= k < |s.nodes| ==> s.nodes[k].stage <= 8
  {
    forall k | 0 <= k < |s.nodes| ensures s.nodes[k].stage <= 8 {
      if k > 0 { assert IsKid(s, k, s.parent[k]); }
    }
  }

  lemma HandleAdvances(s: System, s': System, msg: Msg)
    requires WaveInv(s) && Deliverable(s, msg) && s' == Deliver(s, msg)
    ensures Left(s') < Left(s)
  {
    FlightIsHeard(s, msg);
    HandleKept(s, s', msg);
    StagesBounded(s');
    if msg.Req? {
      ReqAdvances(s, s', msg.wave, msg.to);
    } else if msg == Stop || msg == PrivCnf(StopWave, 0) {
      RootAdvances(s, s', msg);
    } else {
      CnfAdvances(s, s', msg.wave, msg.from);
    }
  }

  lemma RootAdvances(s: System, s': System, msg: Msg)
    requires WaveInv(s) && Deliverable(s, msg) && s' == Deliver(s, msg)
    requires msg == Stop || msg == PrivCnf(StopWave, 0)
    requires forall k :: 0 <= k < |s'.nodes| ==> s'.nodes[k].stage <= 8
    ensures Left(s') < Left(s)
  {
    if msg == Stop { StopHeardMoves(s); } else { RootDownMoves(s); }
    Advanced(s, s', 0);
  }

  lemma ReqAdvances(s: System, s': System, wave: Wave, i: ActorId)
    requires WaveInv(s) && Deliverable(s, Req(wave, i)) && s' == Deliver(s, Req(wave, i))
    requires forall k :: 0 <= k < |s'.nodes| ==> s'.nodes[k].stage <= 8
    ensures Left(s') < Left(s)
  {
    AskedStage(s, wave, i);
    if Kids(s.parent, i) == [] {
      LeafCompletes(s, wave, i);
    } else {
      ReqAsksKids(s, wave, i);
    }
    Advanced(s, s', i);
  }

  lemma CnfAdvances(s: System, s': System, wave: Wave, j: ActorId)
    requires WaveInv(s) && Deliverable(s, PrivCnf(wave, j)) && j > 0 && s' == Deliver(s, PrivCnf(wave, j))
    requires forall k :: 0 <= k < |s'.nodes| ==> s'.nodes[k].stage <= 8
    ensures Left(s') < Left(s)
  {
    ToldStage(s, wave, j);
    CounterReads(s, wave, j);
    if s.nodes[s.parent[j]].cnfCount + 1 == |Kids(s.parent, s.parent[j])| {
      LastCnfCompletes(s, s', wave, j);
      CompletesAdvances(s, s', wave, j);
    } else {
      CnfPuts(s, wave, j);
      PutCounts(s, s', wave, j);
      Advanced(s, s', j);
    }
  }

  lemma CompletesAdvances(s: System, s': System, wave: Wave, j: ActorId)
    requires 0 < j < |s.nodes| == |s.parent| && s.nodes[j].stage == Told(wave)
    requires s.parent[j] < |s.nodes| && s.nodes[s.parent[j]].stage == Waiting(wave)
    requires Completes(s, s', wave, s.parent[j], PrivCnf(wave, j))
    requires forall k :: 0 <= k < |s'.nodes| ==> s'.nodes[k].stage <= 8
    ensures Left(s') < Left(s)
  {
    Advanced(s, s', j);
  }

  lemma {:induction false} RunShrinks(states: seq<System>, steps: seq<Step>, k: nat)
    requires IsSupportedRun(states, steps) && WaveInv(states[0]) && k <= |steps|
    ensures Left(states[k]) + k <= Left(states[0])
  {
    if k > 0 {
      RunShrinks(states, steps, k - 1);
      RunSound(states, steps, k - 1);
      var s, step := states[k - 1], steps[k - 1];
      NextShrinks(s, step, states[k]);
    }
  }

  lemma NextShrinks(s: System, step: Step, s': System)
    requires WaveInv(s) && NextSupported(s, step, s')
    ensures Left(s') < Left(s)
  {
    if step.Handle? {
      HandleAdvances(s, s', step.msg);
    }
  }

  /** Every supported run over a tree of `n` actors, start and stop together, has at most `8n` steps. */
  lemma WavesTerminate(parent: seq<ActorId>, states: seq<System>, steps: seq<Step>)
    requires IsTree(parent) && IsSupportedRun(states, steps) && states[0] == Created(parent)
    ensures |steps| <= 8 * |parent|
  {
    StartsSound(parent);
    RunShrinks(states, steps, |steps|);
    var s := states[0];
    AtMostEightEach(s.nodes[1..]);
  }

  lemma {:induction false} AtMostEightEach(nodes: seq<Node>)
    ensures Total(nodes, ToGo) <= 8 * |nodes|
  {
    if nodes != [] {
      AtMostEightEach(nodes[1..]);
    }
  }

  // ----- progress -----

  // With nothing in flight nobody can be waiting: some child below would be waiting too, without end.
  lemma {:induction false} NoneWaitsForEver(s: System, wave: Wave, i: ActorId)
    requires WaveInv(s) && s.flight == multiset{} && i < |s.nodes| && s.nodes[i].stage == Waiting(wave)
    ensures false
    decreases |s.nodes| - i
  {
    var j := UncountedKid(s, wave, i);
    assert IsKid(s, j, i);
    assert s.flight[Req(wave, j)] == Expected(s, Req(wave, j));
    assert s.flight[PrivCnf(wave, j)] == Expected(s, PrivCnf(wave, j));
    NoneWaitsForEver(s, wave, j);
  }

  lemma UncountedKid(s: System, wave: Wave, i: ActorId) returns (j: ActorId)
    requires WaveInv(s) && i < |s.nodes| && s.nodes[i].stage == Waiting(wave)
    ensures IsKid(s, j, i) && j < |s.nodes| && i < j && s.nodes[j].stage != Counted(wave)
  {
    assert CountSound(s, i);
    var kids := Kids(s.parent, i);
    var w: Stage -> nat := if wave.StartWave? then IsUp else IsDown;
    TotalFull(StagesOf(s, kids), w);
    KidsAreKids(s, i);
    var m :| 0 <= m < |kids| && w(StagesOf(s, kids)[m]) != 1;
    j := kids[m];
  }

  lemma InFlightIsDeliverable(s: System, msg: Msg)
    requires WaveInv(s) && msg in s.flight
    ensures Deliverable(s, msg)
  {
    assert s.flight[msg] == Expected(s, msg);
  }

  /** The start wave never sticks: until the root is STARTED some message can be delivered. */
  lemma StartProgress(parent: seq<ActorId>, s: System)
    requires IsTree(parent) && CanHappen(parent, s) && s.nodes != [] && s.nodes[0].state == CTOR_FINISHED
    ensures exists msg :: Deliverable(s, msg)
  {
    HappensSound(parent, s);
    assert NodeSound(s.nodes[0]);
    if s.nodes[0].stage == Asked(StartWave) {
      assert s.flight[Req(StartWave, 0)] == Expected(s, Req(StartWave, 0));
      InFlightIsDeliverable(s, Req(StartWave, 0));
    } else {
      SomethingIsInFlight(s, StartWave);
    }
  }

  lemma SomethingIsInFlight(s: System, wave: Wave)
    requires WaveInv(s) && s.nodes[0].stage == Waiting(wave)
    ensures exists msg :: Deliverable(s, msg)
  {
    if s.flight == multiset{} {
      NoneWaitsForEver(s, wave, 0);
    }
    var msg :| msg in s.flight;
    InFlightIsDeliverable(s, msg);
  }

  /** The stop wave never sticks: from the publication of `Stop` until `run()` may leave, some message can be delivered. */
  lemma StopProgress(parent: seq<ActorId>, s: System)
    requires IsTree(parent) && CanHappen(parent, s) && s.stops == 1 && s.running
    ensures exists msg :: Deliverable(s, msg)
  {
    HappensSound(parent, s);
    var msg := StopInFlight(s);
    InFlightIsDeliverable(s, msg);
  }

  lemma StopInFlight(s: System) returns (msg: Msg)
    requires WaveInv(s) && s.stops == 1 && s.running
    ensures msg in s.flight && Deliverable(s, msg)
  {
    StagesBounded(s);
    if s.nodes[0].stage == Waiting(StopWave) {
      SomethingIsInFlight(s, StopWave);
      msg :| Deliverable(s, msg);
    } else {
      msg := if s.nodes[0].stage == Counted(StartWave) then Stop
             else if s.nodes[0].stage == Asked(StopWave) then Req(StopWave, 0)
             else PrivCnf(StopWave, 0);
      assert s.flight[msg] == Expected(s, msg);
      InFlightIsDeliverable(s, msg);
    }
  }

  // ----- the publish guard -----

  /** What a handler publishes passes the guard of `publish` in the state the handler leaves the actor in. */
  lemma OwnPublicationsPass(wave: Wave, i: ActorId, kids: seq<ActorId>, node: Node, msg: Msg)
    ensures msg in OnReq(wave, i, kids, node).out ==> PublishAllowed(OnReq(wave, i, kids, node).node.state, msg)
    ensures msg in OnCnf(wave, i, kids, node).out ==> PublishAllowed(OnCnf(wave, i, kids, node).node.state, msg)
  {
  }
}
