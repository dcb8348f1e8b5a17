/** Every supported step keeps the invariant of the two waves. */
module LifeCycleSteps {
  import opened Totals
  import opened LifeCycle
  import opened LifeCycleInvariant

  predicate SameShape(s: System, s': System) { s'.parent == s.parent && |s'.nodes| == |s.nodes| }

  // ----- counters -----

  lemma KidsAreKids(s: System, k: ActorId)
    ensures forall m :: 0 <= m < |Kids(s.parent, k)| ==> IsKid(s, Kids(s.parent, k)[m], k)
  {
    KidsMembers(s.parent, k);
    var kids := Kids(s.parent, k);
    assert forall m :: 0 <= m < |kids| ==> kids[m] in kids;
  }

  predicate Waits(stage: Stage) { stage == 2 || stage == 6 }

  /** An actor whose own counter stands and whose children keep their weight. */
  lemma CountFrame(s: System, s': System, k: ActorId)
    requires SameShape(s, s') && k < |s.nodes| && CountSound(s, k)
    requires s'.nodes[k].cnfCount == s.nodes[k].cnfCount
    requires s'.nodes[k].stage == s.nodes[k].stage || (!Waits(s.nodes[k].stage) && !Waits(s'.nodes[k].stage))
    requires forall c :: IsKid(s, c, k) ==>
               IsUp(StageAt(s', c)) == IsUp(StageAt(s, c)) && IsDown(StageAt(s', c)) == IsDown(StageAt(s, c))
    ensures CountSound(s', k)
  {
    KidsAreKids(s, k);
    var kids := Kids(s.parent, k);
    TotalSame(StagesOf(s, kids), StagesOf(s', kids), IsUp);
    TotalSame(StagesOf(s, kids), StagesOf(s', kids), IsDown);
  }

  /** An actor that starts to wait. */
  lemma CountBegins(s: System, k: ActorId)
    requires k < |s.nodes| && Waits(s.nodes[k].stage) && s.nodes[k].cnfCount == 0 && Kids(s.parent, k) != []
    requires forall c :: IsKid(s, c, k) ==> IsUp(StageAt(s, c)) == IsDown(StageAt(s, c)) == 0
    ensures CountSound(s, k)
  {
    KidsAreKids(s, k);
    TotalZero(StagesOf(s, Kids(s.parent, k)), IsUp);
    TotalZero(StagesOf(s, Kids(s.parent, k)), IsDown);
  }

  // ----- a request arrives at an actor with children -----

  /** `i` passes the request on to each child. */
  ghost predicate AsksKids(s: System, s': System, wave: Wave, i: ActorId) {
    && SameShape(s, s') && s'.running == s.running && s'.stops == s.stops
    && i < |s.nodes| && Kids(s.parent, i) != []
    && (forall k :: 0 <= k < |s.nodes| ==>
          s'.nodes[k] == if k == i then s.nodes[k].(stage := Waiting(wave))
                         else if IsKid(s, k, i) then s.nodes[k].(stage := Asked(wave))
                         else s.nodes[k])
    && s.flight[Req(wave, i)] > 0
    && (forall msg :: s'.flight[msg] ==
          s.flight[msg] - Bit(msg == Req(wave, i)) + Bit(msg.Req? && msg.wave == wave && IsKid(s, msg.to, i)))
  }

  lemma ReqAsksKids(s: System, wave: Wave, i: ActorId)
    requires Deliverable(s, Req(wave, i)) && Kids(s.parent, i) != []
    ensures AsksKids(s, Deliver(s, Req(wave, i)), wave, i)
  {
    var kids, s' := Kids(s.parent, i), Deliver(s, Req(wave, i));
    KidsMembers(s.parent, i);
    RequestsHeard(wave, kids);
    assert s' == Put(s, Req(wave, i), i, Reaction(s.nodes[i].(stage := Waiting(wave)), Requests(wave, kids)), kids, Asked(wave));
    assert i !in kids;
    assert forall k :: k in kids <==> IsKid(s, k, i);
    assert s'.flight == s.flight - multiset{Req(wave, i)} + HeardOf(Requests(wave, kids));
  }

  lemma AskedStage(s: System, wave: Wave, i: ActorId)
    requires InFlight(s) && i < |s.nodes| && s.flight[Req(wave, i)] > 0
    ensures s.nodes[i].stage == Asked(wave) && s.flight[Req(wave, i)] == 1
  {
    assert s.flight[Req(wave, i)] == Expected(s, Req(wave, i));
  }

  lemma AsksKidsFlight(s: System, s': System, wave: Wave, i: ActorId)
    requires WaveInv(s) && AsksKids(s, s', wave, i)
    ensures InFlight(s')
  {
    AskedStage(s, wave, i);
    forall msg ensures s'.flight[msg] == Expected(s', msg) {
      assert s.flight[msg] == Expected(s, msg);
    }
  }

  lemma AsksKidsRest(s: System, s': System, wave: Wave, i: ActorId)
    requires WaveInv(s) && AsksKids(s, s', wave, i)
    ensures RootSound(s') && NodesSound(s') && EdgesSound(s')
  {
    AskedStage(s, wave, i);
    forall j, p | IsKid(s', j, p) ensures EdgeSound(StageAt(s', p), StageAt(s', j)) {
      assert IsKid(s, j, p);
    }
  }

  lemma AsksKidsCounts(s: System, s': System, wave: Wave, i: ActorId, k: ActorId)
    requires WaveInv(s) && AsksKids(s, s', wave, i) && k < |s.nodes|
    ensures CountSound(s', k)
  {
    AskedStage(s, wave, i);
    assert CountSound(s, k);
    if k == i {
      CountBegins(s', k);
    } else {
      CountFrame(s, s', k);
    }
  }

  // ----- an actor completes a wave -----

  /** The node of an actor that has completed the wave. */
  function Completed(wave: Wave, i: ActorId, node: Node): Node { Complete(wave, i, node.(cnfCount := 0)).node }

  /** `i` completes the wave on receiving `msg`; if that was a child's confirmation, the child `j` is counted. */
  ghost predicate Completes(s: System, s': System, wave: Wave, i: ActorId, msg: Msg) {
    && SameShape(s, s') && s'.running == s.running && s'.stops == s.stops
    && i < |s.nodes| && s.flight[msg] > 0
    && (msg == Req(wave, i) || (msg.PrivCnf? && msg.wave == wave && IsKid(s, msg.from, i) && msg.from < |s.nodes| && msg.from != i))
    && (forall k :: 0 <= k < |s.nodes| ==>
          s'.nodes[k] == if k == i then Completed(wave, i, s.nodes[k])
                         else if msg.PrivCnf? && k == msg.from then s.nodes[k].(stage := Counted(wave))
                         else s.nodes[k])
    && (forall m :: s'.flight[m] ==
          s.flight[m] - Bit(m == msg) + Bit(m == PrivCnf(wave, i) && m != PrivCnf(StartWave, 0)))
  }

  lemma LeafCompletes(s: System, wave: Wave, i: ActorId)
    requires WaveInv(s) && Deliverable(s, Req(wave, i)) && Kids(s.parent, i) == []
    ensures Completes(s, Deliver(s, Req(wave, i)), wave, i, Req(wave, i))
  {
    CompletionHeard(wave, i);
    AskedStage(s, wave, i);
    assert CountSound(s, i);
  }

  lemma LastCnfPuts(s: System, wave: Wave, j: ActorId)
    requires RootSound(s) && Deliverable(s, PrivCnf(wave, j)) && j > 0
    requires s.nodes[s.parent[j]].cnfCount + 1 == |Kids(s.parent, s.parent[j])|
    ensures var i := s.parent[j];
            Deliver(s, PrivCnf(wave, j)) ==
              Put(s, PrivCnf(wave, j), i, Complete(wave, i, s.nodes[i].(cnfCount := 0)), [j], Counted(wave))
  {
    var i := s.parent[j];
    assert Receiver(s.parent, PrivCnf(wave, j)) == i;
    assert OnCnf(wave, i, Kids(s.parent, i), s.nodes[i]) == Complete(wave, i, s.nodes[i].(cnfCount := 0));
  }

  lemma PutCompletesFlight(s: System, s': System, wave: Wave, i: ActorId, msg: Msg)
    requires msg in s.flight && s'.flight == s.flight - multiset{msg} + HeardOf([PubCnf(wave, i), PrivCnf(wave, i)])
    ensures forall m :: s'.flight[m] ==
              s.flight[m] - Bit(m == msg) + Bit(m == PrivCnf(wave, i) && m != PrivCnf(StartWave, 0))
  {
    CompletionHeard(wave, i);
  }

  lemma PutCompletes(s: System, s': System, wave: Wave, j: ActorId)
    requires IsTree(s.parent) && |s.nodes| == |s.parent| && 0 < j < |s.parent| && PrivCnf(wave, j) in s.flight
    requires var i := s.parent[j];
             s' == Put(s, PrivCnf(wave, j), i, Complete(wave, i, s.nodes[i].(cnfCount := 0)), [j], Counted(wave))
    ensures Completes(s, s', wave, s.parent[j], PrivCnf(wave, j))
  {
    PutCompletesFlight(s, s', wave, s.parent[j], PrivCnf(wave, j));
  }

  lemma LastCnfCompletes(s: System, s': System, wave: Wave, j: ActorId)
    requires RootSound(s) && Deliverable(s, PrivCnf(wave, j)) && j > 0 && s' == Deliver(s, PrivCnf(wave, j))
    requires s.nodes[s.parent[j]].cnfCount + 1 == |Kids(s.parent, s.parent[j])|
    ensures Completes(s, s', wave, s.parent[j], PrivCnf(wave, j))
  {
    LastCnfPuts(s, wave, j);
    PutCompletes(s, s', wave, j);
  }

  lemma ToldStage(s: System, wave: Wave, j: ActorId)
    requires WaveInv(s) && 0 < j < |s.nodes| && s.flight[PrivCnf(wave, j)] > 0
    ensures s.nodes[j].stage == Told(wave) && s.flight[PrivCnf(wave, j)] == 1
    ensures s.parent[j] < |s.nodes| && s.nodes[s.parent[j]].stage == Waiting(wave)
  {
    assert s.flight[PrivCnf(wave, j)] == Expected(s, PrivCnf(wave, j));
    assert IsKid(s, j, s.parent[j]);
  }

  /** The completing actor was waiting for its last child, or was a leaf that was asked. */
  ghost predicate Ready(s: System, wave: Wave, i: ActorId, msg: Msg) {
    && i < |s.nodes| && s.flight[msg] == 1
    && (if msg == Req(wave, i) then s.nodes[i].stage == Asked(wave) && forall k :: !IsKid(s, k, i)
        else
          && msg.PrivCnf? && msg.wave == wave && IsKid(s, msg.from, i) && msg.from < |s.nodes|
          && s.nodes[i].stage == Waiting(wave) && s.nodes[msg.from].stage == Told(wave)
          && forall k :: IsKid(s, k, i) && k != msg.from ==> StageAt(s, k) == Counted(wave))
  }

  lemma CompletesFlight(s: System, s': System, wave: Wave, i: ActorId, msg: Msg)
    requires InFlight(s) && RootSound(s) && Completes(s, s', wave, i, msg) && Ready(s, wave, i, msg)
    ensures InFlight(s')
  {
    forall m ensures s'.flight[m] == Expected(s', m) {
      assert s.flight[m] == Expected(s, m);
    }
  }

  lemma CompletesRest(s: System, s': System, wave: Wave, i: ActorId, msg: Msg)
    requires WaveInv(s) && Completes(s, s', wave, i, msg) && Ready(s, wave, i, msg)
    ensures RootSound(s') && NodesSound(s') && EdgesSound(s')
  {
    forall j, p | IsKid(s', j, p) ensures EdgeSound(StageAt(s', p), StageAt(s', j)) {
      assert IsKid(s, j, p);
    }
  }

  lemma CompletesCounts(s: System, s': System, wave: Wave, i: ActorId, msg: Msg, k: ActorId)
    requires WaveInv(s) && Completes(s, s', wave, i, msg) && Ready(s, wave, i, msg) && k < |s.nodes|
    ensures CountSound(s', k)
  {
    assert CountSound(s, k);
    if k != i {
      CountFrame(s, s', k);
    }
  }

  lemma LeafReady(s: System, wave: Wave, i: ActorId)
    requires WaveInv(s) && i < |s.nodes| && s.flight[Req(wave, i)] > 0 && Kids(s.parent, i) == []
    ensures Ready(s, wave, i, Req(wave, i))
  {
    AskedStage(s, wave, i);
    KidsMembers(s.parent, i);
  }

  // How the counter of a waiting actor reads its children.
  lemma CounterReads(s: System, wave: Wave, j: ActorId)
    requires WaveInv(s) && 0 < j < |s.nodes| && s.flight[PrivCnf(wave, j)] > 0
    ensures s.nodes[s.parent[j]].cnfCount + 1 <= |Kids(s.parent, s.parent[j])|
    ensures s.nodes[s.parent[j]].cnfCount + 1 == |Kids(s.parent, s.parent[j])| ==>
              Ready(s, wave, s.parent[j], PrivCnf(wave, j))
  {
    ToldStage(s, wave, j);
    var i := s.parent[j];
    assert CountSound(s, i);
    if s.nodes[i].cnfCount + 1 == |Kids(s.parent, i)| {
      forall k | IsKid(s, k, i) && k != j ensures StageAt(s, k) == Counted(wave) {
        OthersCounted(s, wave, i, j, k);
      }
    }
  }

  lemma OthersCounted(s: System, wave: Wave, i: ActorId, j: ActorId, k: ActorId)
    requires i < |s.nodes| && CountSound(s, i) && s.nodes[i].stage == Waiting(wave)
    requires IsKid(s, j, i) && StageAt(s, j) == Told(wave) && IsKid(s, k, i) && k != j
    requires s.nodes[i].cnfCount + 1 == |Kids(s.parent, i)|
    ensures StageAt(s, k) == Counted(wave)
  {
    var kids := Kids(s.parent, i);
    KidsMembers(s.parent, i);
    var m :| 0 <= m < |kids| && kids[m] == j;
    var stages := StagesOf(s, kids);
    var w: Stage -> nat := if wave.StartWave? then IsUp else IsDown;
    TotalUpdate(stages, w, m, Counted(wave));
    TotalFull(stages[m := Counted(wave)], w);
    var l :| 0 <= l < |kids| && kids[l] == k;
    assert w(stages[m := Counted(wave)][l]) == 1;
  }

  // ----- a confirmation that is not the last -----

  ghost predicate Counts(s: System, s': System, wave: Wave, j: ActorId) {
    && SameShape(s, s') && s'.running == s.running && s'.stops == s.stops
    && 0 < j < |s.nodes| && j < |s.parent| && s.parent[j] < j && s.flight[PrivCnf(wave, j)] > 0
    && (forall k :: 0 <= k < |s.nodes| ==>
          s'.nodes[k] == if k == s.parent[j] then s.nodes[k].(cnfCount := s.nodes[k].cnfCount + 1)
                         else if k == j then s.nodes[k].(stage := Counted(wave))
                         else s.nodes[k])
    && (forall m :: s'.flight[m] == s.flight[m] - Bit(m == PrivCnf(wave, j)))
  }

  lemma CnfPuts(s: System, wave: Wave, j: ActorId)
    requires RootSound(s) && Deliverable(s, PrivCnf(wave, j)) && j > 0
    requires s.nodes[s.parent[j]].cnfCount + 1 != |Kids(s.parent, s.parent[j])|
    ensures var i := s.parent[j];
            Deliver(s, PrivCnf(wave, j)) ==
              Put(s, PrivCnf(wave, j), i, Reaction(s.nodes[i].(cnfCount := s.nodes[i].cnfCount + 1), []), [j], Counted(wave))
  {
    var i := s.parent[j];
    assert Receiver(s.parent, PrivCnf(wave, j)) == i;
    assert OnCnf(wave, i, Kids(s.parent, i), s.nodes[i]) == Reaction(s.nodes[i].(cnfCount := s.nodes[i].cnfCount + 1), []);
  }

  lemma PutCounts(s: System, s': System, wave: Wave, j: ActorId)
    requires IsTree(s.parent) && |s.nodes| == |s.parent| && 0 < j < |s.parent| && PrivCnf(wave, j) in s.flight
    requires var i := s.parent[j];
             s' == Put(s, PrivCnf(wave, j), i, Reaction(s.nodes[i].(cnfCount := s.nodes[i].cnfCount + 1), []), [j], Counted(wave))
    ensures Counts(s, s', wave, j)
  {
    assert s'.flight == s.flight - multiset{PrivCnf(wave, j)};
  }

  lemma CountsFlight(s: System, s': System, wave: Wave, j: ActorId)
    requires WaveInv(s) && Counts(s, s', wave, j)
    ensures InFlight(s')
  {
    ToldStage(s, wave, j);
    forall m ensures s'.flight[m] == Expected(s', m) {
      assert s.flight[m] == Expected(s, m);
    }
  }

  lemma CountsRest(s: System, s': System, wave: Wave, j: ActorId)
    requires WaveInv(s) && Counts(s, s', wave, j)
    ensures RootSound(s') && NodesSound(s') && EdgesSound(s')
  {
    ToldStage(s, wave, j);
    forall c, p | IsKid(s', c, p) ensures EdgeSound(StageAt(s', p), StageAt(s', c)) {
      assert IsKid(s, c, p);
    }
  }

  lemma CountsUp(s: System, s': System, wave: Wave, j: ActorId)
    requires WaveInv(s) && Counts(s, s', wave, j)
    requires s.nodes[s.parent[j]].cnfCount + 1 < |Kids(s.parent, s.parent[j])|
    ensures CountSound(s', s.parent[j])
  {
    ToldStage(s, wave, j);
    var i := s.parent[j];
    var kids := Kids(s.parent, i);
    KidsMembers(s.parent, i);
    assert CountSound(s, i) && IsKid(s, j, i);
    var m :| 0 <= m < |kids| && kids[m] == j;
    TotalUpdate(StagesOf(s, kids), IsUp, m, Counted(wave));
    TotalUpdate(StagesOf(s, kids), IsDown, m, Counted(wave));
    assert StagesOf(s', kids) == StagesOf(s, kids)[m := Counted(wave)] by {
      KidsAreKids(s, i);
    }
  }

  lemma CountsCounts(s: System, s': System, wave: Wave, j: ActorId, k: ActorId)
    requires WaveInv(s) && Counts(s, s', wave, j) && k < |s.nodes|
    requires s.nodes[s.parent[j]].cnfCount + 1 < |Kids(s.parent, s.parent[j])|
    ensures CountSound(s', k)
  {
    ToldStage(s, wave, j);
    assert CountSound(s, k);
    if k == s.parent[j] {
      CountsUp(s, s', wave, j);
    } else {
      CountFrame(s, s', k);
    }
  }

  // ----- the root and Core -----

  /** Only the root's stage changes, from `before` to `after`. */
  ghost predicate RootMoves(s: System, s': System, before: Stage, after: Stage) {
    && SameShape(s, s') && |s.nodes| > 0 && s.nodes[0].stage == before
    && s'.nodes == s.nodes[0 := s.nodes[0].(stage := after)]
  }

  lemma RootMovesKeeps(s: System, s': System, before: Stage, after: Stage)
    requires WaveInv(s) && RootMoves(s, s', before, after)
    requires (before == Told(StopWave) && after == DOWN) || (before == Counted(StartWave) && after == Asked(StopWave))
    ensures NodesSound(s') && EdgesSound(s') && CountsSound(s')
  {
    forall c, p | IsKid(s', c, p) ensures EdgeSound(StageAt(s', p), StageAt(s', c)) {
      assert IsKid(s, c, p);
    }
    forall k | 0 <= k < |s'.nodes| ensures CountSound(s', k) {
      assert CountSound(s, k);
      CountFrame(s, s', k);
    }
  }

  lemma RootDownMoves(s: System)
    requires InFlight(s) && RootSound(s) && Deliverable(s, PrivCnf(StopWave, 0))
    ensures var s' := Deliver(s, PrivCnf(StopWave, 0));
            RootMoves(s, s', Told(StopWave), DOWN) && s'.flight == s.flight - multiset{PrivCnf(StopWave, 0)}
            && s'.stops == s.stops && !s'.running && s.flight[PrivCnf(StopWave, 0)] == 1
  {
    assert s.flight[PrivCnf(StopWave, 0)] == Expected(s, PrivCnf(StopWave, 0));
  }

  lemma RootDownKept(s: System, s': System)
    requires WaveInv(s) && Deliverable(s, PrivCnf(StopWave, 0)) && s' == Deliver(s, PrivCnf(StopWave, 0))
    ensures WaveInv(s')
  {
    RootDownMoves(s);
    RootMovesKeeps(s, s', Told(StopWave), DOWN);
    RootDownFlight(s, s');
  }

  lemma RootDownFlight(s: System, s': System)
    requires InFlight(s) && RootMoves(s, s', Told(StopWave), DOWN) && s'.stops == s.stops
    requires s'.flight == s.flight - multiset{PrivCnf(StopWave, 0)} && s.flight[PrivCnf(StopWave, 0)] == 1
    ensures InFlight(s')
  {
    forall m ensures s'.flight[m] == Expected(s', m) {
      assert s.flight[m] == Expected(s, m);
    }
  }

  lemma StopHeardMoves(s: System)
    requires InFlight(s) && RootSound(s) && Deliverable(s, Stop)
    ensures var s' := Deliver(s, Stop);
            RootMoves(s, s', Counted(StartWave), Asked(StopWave))
            && s'.flight == s.flight - multiset{Stop} + multiset{Req(StopWave, 0)}
            && s'.stops == s.stops == 1 && s'.running == s.running && s.flight[Stop] == 1
  {
    assert s.flight[Stop] == Expected(s, Stop);
    assert HeardOf([Req(StopWave, 0)]) == multiset{Req(StopWave, 0)};
  }

  lemma StopHeardFlight(s: System, s': System)
    requires InFlight(s) && RootMoves(s, s', Counted(StartWave), Asked(StopWave))
    requires s'.stops == s.stops == 1 && s.flight[Stop] == 1
    requires s'.flight == s.flight - multiset{Stop} + multiset{Req(StopWave, 0)}
    ensures InFlight(s')
  {
    forall m ensures s'.flight[m] == Expected(s', m) {
      assert s.flight[m] == Expected(s, m);
    }
  }

  lemma StopHeardKept(s: System, s': System)
    requires WaveInv(s) && Deliverable(s, Stop) && s' == Deliver(s, Stop)
    ensures WaveInv(s')
  {
    StopHeardMoves(s);
    RootMovesKeeps(s, s', Counted(StartWave), Asked(StopWave));
    StopHeardFlight(s, s');
  }

  lemma StopPublishedKept(s: System, s': System)
    requires WaveInv(s) && s.stops == 0 && s.nodes[0].state == STARTED
    requires s' == s.(flight := s.flight + multiset{Stop}, stops := s.stops + 1)
    ensures s.nodes[0].stage == Counted(StartWave)
    ensures WaveInv(s')
  {
    assert NodeSound(s.nodes[0]);
    assert s'.flight == s.flight + multiset{Stop};
    forall m ensures s'.flight[m] == Expected(s', m) {
      assert s.flight[m] == Expected(s, m);
    }
    forall c, p | IsKid(s', c, p) ensures EdgeSound(StageAt(s', p), StageAt(s', c)) {
      assert IsKid(s, c, p);
    }
    forall k | 0 <= k < |s'.nodes| ensures CountSound(s', k) {
      assert CountSound(s, k);
      CountFrame(s, s', k);
    }
  }

  // ----- all steps -----

  lemma ReqKept(s: System, s': System, wave: Wave, i: ActorId)
    requires WaveInv(s) && Deliverable(s, Req(wave, i)) && s' == Deliver(s, Req(wave, i))
    ensures WaveInv(s')
  {
    if Kids(s.parent, i) != [] {
      ReqAsksKids(s, wave, i);
      AsksKidsFlight(s, s', wave, i);
      AsksKidsRest(s, s', wave, i);
      forall k | 0 <= k < |s'.nodes| ensures CountSound(s', k) { AsksKidsCounts(s, s', wave, i, k); }
    } else {
      LeafCompletes(s, wave, i);
      LeafReady(s, wave, i);
      CompletesKept(s, s', wave, i, Req(wave, i));
    }
  }

  lemma CompletesKept(s: System, s': System, wave: Wave, i: ActorId, msg: Msg)
    requires WaveInv(s) && Completes(s, s', wave, i, msg) && Ready(s, wave, i, msg)
    ensures WaveInv(s')
  {
    CompletesFlight(s, s', wave, i, msg);
    CompletesRest(s, s', wave, i, msg);
    forall k | 0 <= k < |s'.nodes| ensures CountSound(s', k) { CompletesCounts(s, s', wave, i, msg, k); }
  }

  lemma CnfKept(s: System, s': System, wave: Wave, j: ActorId)
    requires WaveInv(s) && Deliverable(s, PrivCnf(wave, j)) && j > 0 && s' == Deliver(s, PrivCnf(wave, j))
    ensures WaveInv(s')
  {
    var i := s.parent[j];
    CounterReads(s, wave, j);
    if s.nodes[i].cnfCount + 1 == |Kids(s.parent, i)| {
      LastCnfCompletes(s, s', wave, j);
      CompletesKept(s, s', wave, i, PrivCnf(wave, j));
    } else {
      CnfPuts(s, wave, j);
      PutCounts(s, s', wave, j);
      CountsFlight(s, s', wave, j);
      CountsRest(s, s', wave, j);
      forall k | 0 <= k < |s'.nodes| ensures CountSound(s', k) { CountsCounts(s, s', wave, j, k); }
    }
  }

  lemma HandleKept(s: System, s': System, msg: Msg)
    requires WaveInv(s) && Deliverable(s, msg) && s' == Deliver(s, msg)
    ensures WaveInv(s')
  {
    FlightIsHeard(s, msg);
    if msg.Req? {
      ReqKept(s, s', msg.wave, msg.to);
    } else if msg == Stop {
      StopHeardKept(s, s');
    } else if msg == PrivCnf(StopWave, 0) {
      RootDownKept(s, s');
    } else {
      CnfKept(s, s', msg.wave, msg.from);
    }
  }

  /** The invariant of the waves survives every supported step. */
  lemma StepKept(s: System, s': System, step: Step)
    requires WaveInv(s) && Possible(s, step) && Supported(s, step) && s' == Do(s, step)
    ensures WaveInv(s')
  {
    match step {
      case PublishStop(_) => StopPublishedKept(s, s');
      case Handle(msg) => HandleKept(s, s', msg);
    }
  }

  lemma FlightIsHeard(s: System, msg: Msg)
    requires InFlight(s) && RootSound(s) && msg in s.flight
    ensures msg.Req? || msg == Stop || msg == PrivCnf(StopWave, 0) || (msg.PrivCnf? && msg.from > 0)
  {
    assert s.flight[msg] == Expected(s, msg);
  }

  lemma StartsSound(parent: seq<ActorId>)
    requires IsTree(parent)
    ensures WaveInv(Created(parent))
  {
    var s := Created(parent);
    forall k | 0 <= k < |s.nodes| ensures CountSound(s, k) {}
  }
}
