/** The invariant of the two waves. */
module LifeCycleInvariant {
  import opened Totals
  import opened LifeCycle

  function Bit(b: bool): nat { if b then 1 else 0 }

  function StageAt(s: System, i: ActorId): Stage { if i < |s.nodes| then s.nodes[i].stage else DORMANT }

  /** How often a message is in flight, told from the stages alone. */
  function Expected(s: System, msg: Msg): nat {
    match msg
    case Req(wave, i) => Bit(StageAt(s, i) == Asked(wave))
    case PrivCnf(wave, i) => Bit(StageAt(s, i) == Told(wave))
    case PubCnf(_, _) => 0
    case Stop => Bit(s.stops == 1 && StageAt(s, 0) == Counted(StartWave))
  }

  ghost predicate InFlight(s: System) { forall msg :: s.flight[msg] == Expected(s, msg) }

  /** State and callback runs follow from the stage. */
  predicate NodeSound(node: Node) {
    && node.state == (if node.stage <= 2 then CTOR_FINISHED else if node.stage <= 6 then STARTED else STOPPED)
    && node.startRuns == Bit(node.stage >= 3)
    && node.stopRuns == Bit(node.stage >= 7)
  }

  ghost predicate NodesSound(s: System) { forall i :: 0 <= i < |s.nodes| ==> NodeSound(s.nodes[i]) }

  ghost predicate RootSound(s: System) {
    && IsTree(s.parent) && |s.nodes| == |s.parent|
    && s.stops <= 1
    && StageAt(s, 0) != DORMANT && StageAt(s, 0) != Told(StartWave)
    && (if s.stops == 0 then StageAt(s, 0) <= 4 else 4 <= StageAt(s, 0) <= 8)
    && (s.running <==> StageAt(s, 0) != DOWN)
  }

  /** A child's stage lies where its parent's stage puts it. */
  predicate EdgeSound(p: Stage, c: Stage) {
    if p <= 1 then c == 0
    else if p == 2 then 1 <= c <= 4
    else if p <= 5 then c == 4
    else if p == 6 then 5 <= c <= 8
    else c == 8
  }

  predicate IsKid(s: System, k: ActorId, i: ActorId) { 0 < k < |s.parent| && s.parent[k] == i }

  ghost predicate EdgesSound(s: System) {
    forall j, i :: IsKid(s, j, i) ==> EdgeSound(StageAt(s, i), StageAt(s, j))
  }

  function StagesOf(s: System, kids: seq<ActorId>): (r: seq<Stage>)
    ensures |r| == |kids| && forall m :: 0 <= m < |r| ==> r[m] == StageAt(s, kids[m])
  {
    seq(|kids|, m requires 0 <= m < |kids| => StageAt(s, kids[m]))
  }

  function IsUp(stage: Stage): nat { Bit(stage == 4) }
  function IsDown(stage: Stage): nat { Bit(stage == 8) }

  /** The shared counter holds the children counted in the wave the actor waits in, and is zero otherwise. */
  ghost predicate CountSound(s: System, i: ActorId)
    requires i < |s.nodes|
  {
    var kids := Kids(s.parent, i);
    && s.nodes[i].cnfCount == (if s.nodes[i].stage == 2 then Total(StagesOf(s, kids), IsUp)
                               else if s.nodes[i].stage == 6 then Total(StagesOf(s, kids), IsDown)
                               else 0)
    && (s.nodes[i].stage == 2 || s.nodes[i].stage == 6 ==> s.nodes[i].cnfCount < |kids|)
  }

  ghost predicate CountsSound(s: System) { forall i :: 0 <= i < |s.nodes| ==> CountSound(s, i) }

  ghost predicate WaveInv(s: System) {
    RootSound(s) && InFlight(s) && NodesSound(s) && EdgesSound(s) && CountsSound(s)
  }

  // ----- children -----

  lemma {:induction false} KidsBelowMembers(parent: seq<ActorId>, i: ActorId, n: nat)
    requires n <= |parent|
    ensures forall j :: j in KidsBelow(parent, i, n) <==> 0 < j < n && parent[j] == i
    ensures forall x, y :: 0 <= x < y < |KidsBelow(parent, i, n)| ==> KidsBelow(parent, i, n)[x] < KidsBelow(parent, i, n)[y]
  {
    if n > 0 {
      KidsBelowMembers(parent, i, n - 1);
      var kids := KidsBelow(parent, i, n - 1);
      forall x | 0 <= x < |kids| ensures kids[x] < n - 1 {
        assert kids[x] in kids;
      }
      assert KidsBelow(parent, i, n) == kids || KidsBelow(parent, i, n) == kids + [n - 1];
    }
  }

  /** The children of an actor are those whose parent it is, each once. */
  lemma KidsMembers(parent: seq<ActorId>, i: ActorId)
    ensures forall j :: j in Kids(parent, i) <==> 0 < j < |parent| && parent[j] == i
    ensures forall x, y :: 0 <= x < y < |Kids(parent, i)| ==> Kids(parent, i)[x] < Kids(parent, i)[y]
  {
    KidsBelowMembers(parent, i, |parent|);
  }

  lemma {:induction false} RequestsHeard(wave: Wave, kids: seq<ActorId>)
    requires forall x, y :: 0 <= x < y < |kids| ==> kids[x] < kids[y]
    ensures forall msg :: HeardOf(Requests(wave, kids))[msg] == Bit(msg.Req? && msg.wave == wave && msg.to in kids)
  {
    if kids != [] {
      assert Requests(wave, kids)[1..] == Requests(wave, kids[1..]);
      RequestsHeard(wave, kids[1..]);
    }
  }

  lemma CompletionHeard(wave: Wave, i: ActorId)
    ensures forall msg :: HeardOf([PubCnf(wave, i), PrivCnf(wave, i)])[msg] == Bit(msg == PrivCnf(wave, i) && Heard(msg))
  {
    var out := [PubCnf(wave, i), PrivCnf(wave, i)];
    assert out[1..] == [PrivCnf(wave, i)] && out[1..][1..] == [];
    assert HeardOf(out[1..]) == if Heard(out[1]) then multiset{out[1]} else multiset{};
  }
}
