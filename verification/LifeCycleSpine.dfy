/** The way down from the root as far as it does not branch, and what lies off it. */
module LifeCycleSpine {
  import opened LifeCycle
  import opened LifeCycleInvariant
  import opened LifeCycleSteps
  import opened LifeCycleTheorems

  /** No actor above `i` has another child than the one on the way to `i`. */
  predicate Spine(parent: seq<ActorId>, i: ActorId)
    requires IsTree(parent) && i < |parent|
  {
    i == 0 || (Spine(parent, parent[i]) && Kids(parent, parent[i]) == [i])
  }

  /** The first actor, from the root down, with several children. */
  predicate IsFork(parent: seq<ActorId>, f: ActorId)
    requires IsTree(parent) && f < |parent|
  {
    Spine(parent, f) && |Kids(parent, f)| >= 2
  }

  lemma {:induction false} SpineKid(parent: seq<ActorId>, i: ActorId, p: ActorId) returns (e: ActorId)
    requires IsTree(parent) && i < |parent| && p < |parent| && Spine(parent, i) && Descends(parent, i, p) && i != p
    ensures e < |parent| && 0 < e && parent[e] == p && Kids(parent, p) == [e]
    ensures Spine(parent, p) && Spine(parent, e) && Descends(parent, i, e)
  {
    if parent[i] == p {
      e := i;
    } else {
      e := SpineKid(parent, parent[i], p);
    }
  }

  /** Every actor is above or below an actor of the spine. */
  lemma {:induction false} SpineComparable(parent: seq<ActorId>, i: ActorId, d: ActorId)
    requires IsTree(parent) && i < |parent| && d < |parent| && Spine(parent, i)
    ensures Descends(parent, d, i) || Descends(parent, i, d)
  {
    if d == 0 {
      AllDescendFromRoot(parent, i);
    } else {
      var p := parent[d];
      SpineComparable(parent, i, p);
      if !Descends(parent, p, i) {
        var e := SpineKid(parent, i, p);
        KidsMembers(parent, p);
        assert d in Kids(parent, p);
      }
    }
  }

  /** An actor off the spine is below a child of the fork. */
  lemma {:induction false} OffSpine(parent: seq<ActorId>, x: ActorId) returns (f: ActorId, k: ActorId)
    requires IsTree(parent) && x < |parent| && !Spine(parent, x)
    ensures f < |parent| && IsFork(parent, f) && 0 < k < |parent| && parent[k] == f && Descends(parent, x, k)
  {
    var p := parent[x];
    KidsMembers(parent, p);
    assert x in Kids(parent, p);
    if Spine(parent, p) {
      f, k := p, x;
    } else {
      f, k := OffSpine(parent, p);
    }
  }

  lemma {:induction false} DescendsChain(parent: seq<ActorId>, d: ActorId, k: ActorId, a: ActorId)
    requires IsTree(parent) && d < |parent| && k < |parent| && Descends(parent, d, k) && Descends(parent, k, a)
    ensures Descends(parent, d, a) && a <= k <= d
  {
    DescendsLater(parent, d, k);
    DescendsLater(parent, k, a);
    if d != k {
      DescendsChain(parent, parent[d], k, a);
    }
  }

  lemma {:induction false} DescendsLater(parent: seq<ActorId>, d: ActorId, a: ActorId)
    requires IsTree(parent) && d < |parent| && Descends(parent, d, a)
    ensures a <= d
  {
    if d != a {
      DescendsLater(parent, parent[d], a);
    }
  }

  /** Below different children there are different actors. */
  lemma {:induction false} Apart(parent: seq<ActorId>, x: ActorId, i: ActorId, j: ActorId)
    requires IsTree(parent) && x < |parent| && 0 < i < |parent| && 0 < j < |parent| && parent[i] == parent[j] && i != j
    requires Descends(parent, x, i)
    ensures !Descends(parent, x, j)
  {
    DescendsLater(parent, x, i);
    if x == i {
      if Descends(parent, x, j) {
        DescendsLater(parent, parent[i], j);
      }
    } else if x == j {
      DescendsLater(parent, parent[j], i);
    } else {
      Apart(parent, parent[x], i, j);
    }
  }

  // ----- a started tree -----

  /** Every actor has started and nothing is in flight. */
  function AllStarted(parent: seq<ActorId>): System
    requires IsTree(parent)
  {
    System(parent, seq(|parent|, _ => Node(STARTED, 0, 1, 0, Counted(StartWave))), multiset{}, true, 0)
  }

  /** ... and `Stop` has been published. */
  function StopSent(parent: seq<ActorId>): System
    requires IsTree(parent)
  {
    AllStarted(parent).(flight := multiset{Stop}, stops := 1)
  }

  lemma StopSentSound(parent: seq<ActorId>)
    requires IsTree(parent)
    ensures WaveInv(StopSent(parent))
  {
    var s := StopSent(parent);
    forall k | 0 <= k < |s.nodes| ensures CountSound(s, k) {}
  }

  // ----- what the stages say -----

  /** An actor that has been asked has ancestors that wait or have gone further. */
  lemma {:induction false} AboveWaits(s: System, d: ActorId, a: ActorId)
    requires WaveInv(s) && d < |s.nodes| && a < |s.nodes| && Descends(s.parent, d, a) && d != a
    requires s.nodes[d].stage >= 1
    ensures s.nodes[a].stage >= 2
  {
    var p := s.parent[d];
    assert IsKid(s, d, p);
    if p != a {
      AboveWaits(s, p, a);
    }
  }

  /** Before `Stop`, everything below an actor that has started has been counted. */
  lemma {:induction false} BelowStarted(s: System, d: ActorId, a: ActorId)
    requires WaveInv(s) && s.stops == 0 && d < |s.nodes| && a < |s.nodes| && Descends(s.parent, d, a) && d != a
    requires s.nodes[a].stage >= 3
    ensures s.nodes[d].stage == 4
  {
    Below(s, d, a);
    AllDescendFromRoot(s.parent, d);
    if d != 0 { Below(s, d, 0); }
  }

  /** While an actor takes part in a wave and has not completed it, a message for somebody below it is in flight. */
  lemma {:induction false} Active(s: System, wave: Wave, i: ActorId) returns (msg: Msg)
    requires WaveInv(s) && i < |s.nodes| && (s.nodes[i].stage == Asked(wave) || s.nodes[i].stage == Waiting(wave))
    ensures s.flight[msg] > 0 && Receiver(s.parent, msg) < |s.nodes| && Descends(s.parent, Receiver(s.parent, msg), i)
    decreases |s.nodes| - i
  {
    if s.nodes[i].stage == Asked(wave) {
      msg := Req(wave, i);
      assert s.flight[msg] == Expected(s, msg);
    } else {
      var j := UncountedKid(s, wave, i);
      assert IsKid(s, j, i);
      assert EdgeSound(StageAt(s, i), StageAt(s, j));
      if s.nodes[j].stage == Told(wave) {
        msg := PrivCnf(wave, j);
        assert s.flight[msg] == Expected(s, msg);
      } else {
        msg := Active(s, wave, j);
        assert Descends(s.parent, j, i);
        DescendsChain(s.parent, Receiver(s.parent, msg), j, i);
      }
    }
  }
}
