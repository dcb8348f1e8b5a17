/** When the blocking calls of the dispatcher pool come to an end. */
module DispatcherPoolProgress {
  import opened Totals
  import opened Chains
  import opened DispatcherPool
  import opened DispatcherPoolSafety

  // ----- start -----

  /** `start` never hangs: whenever it is blocked un-notified, some dispatcher has a step of its own. */
  lemma StartProgress(dispatcherCount: nat, s: Pool)
    requires dispatcherCount > 0 && Reachable(dispatcherCount, s) && s.main == AwaitStarted(false)
    ensures exists t :: Enabled(s, Gate(t)) || Enabled(s, CountDown(t)) || Enabled(s, Announce(t))
  {
    ReachableInv(dispatcherCount, s);
    SleepBounds(s);
    if s.startCount == 0 {
      var t :| 0 <= t < |s.threads| && s.threads[t] == Counted;
      assert Enabled(s, Announce(t));
    } else {
      var t :| 0 <= t < |s.threads| && Unstarted(s.threads[t]) != 0;
      assert Enabled(s, Gate(t)) || Enabled(s, CountDown(t));
    }
  }

  function StartWork(d: Dispatcher): nat {
    match d
    case Fresh => 3
    case AwaitStart(_) => 3
    case Gated => 2
    case Counted => 1
    case _ => 0
  }

  /** What the dispatchers still have to do before the last of them has announced itself. */
  function StartLeft(s: Pool): nat { Total(s.threads, StartWork) }

  /** While RUNNING no step adds to what `start` waits for, and each of the steps of `StartProgress` takes something away. */
  lemma StartShrinks(s: Pool, a: Action)
    requires Inv(s) && s.phase == RUNNING && s.main != StartSignal && Enabled(s, a)
    ensures StartLeft(Apply(s, a)) <= StartLeft(s)
    ensures a.Gate? || a.CountDown? || a.Announce? ==> StartLeft(Apply(s, a)) < StartLeft(s)
  {
    if a.Gate? || a.CountDown? || a.Announce? {
      StartStepShrinks(s, a);
    } else {
      NoStartWorkAdded(s, a);
      TotalMonotone(Apply(s, a).threads, StartWork, s.threads, StartWork);
    }
  }

  lemma StartStepShrinks(s: Pool, a: Action)
    requires s.phase == RUNNING && Enabled(s, a) && (a.Gate? || a.CountDown? || a.Announce?)
    ensures StartLeft(Apply(s, a)) < StartLeft(s)
  {
    TotalUpdate(s.threads, StartWork, a.t, Apply(s, a).threads[a.t]);
  }

  lemma NoStartWorkAdded(s: Pool, a: Action)
    requires Inv(s) && s.phase == RUNNING && s.main != StartSignal && Enabled(s, a) && !a.Gate? && !a.CountDown? && !a.Announce?
    ensures |Apply(s, a).threads| == |s.threads|
    ensures forall t :: 0 <= t < |s.threads| ==> StartWork(Apply(s, a).threads[t]) <= StartWork(s.threads[t])
  {
  }

  /** When nothing is left, `start` has been notified and returns with its next test. */
  lemma StartEnds(dispatcherCount: nat, s: Pool)
    requires dispatcherCount > 0 && Reachable(dispatcherCount, s) && s.main.AwaitStarted? && StartLeft(s) == 0
    ensures Enabled(s, TestStarted) && Apply(s, TestStarted).main == Idle
  {
    ReachableInv(dispatcherCount, s);
    TotalZero(s.threads, StartWork);
    TotalZero(s.threads, Unstarted);
  }

  // ----- stop -----

  /** Every dispatcher has left its loop and work is queued: nobody will ever take it. */
  predicate Hopeless(s: Pool) {
    && s.phase == STOPPING
    && s.queue != []
    && forall t :: 0 <= t < |s.threads| ==> s.threads[t] == Exited
  }

  // Steps no dispatcher and not the controller takes on its own account.
  predicate Disturbance(a: Action) {
    a.ScheduleInside? || a.ScheduleOutside? || a.SpuriousController?
  }

  function Work(d: Dispatcher): nat {
    match d
    case Counted => 4
    case Executing(_, _) => 3
    case Parked(false) => 3
    case Parked(true) => 2
    case AtLoop => 2
    case _ => 0
  }

  /** The work left in STOPPING. */
  function Remaining(s: Pool): nat {
    3 * |s.queue| + Total(s.threads, Work) + (if s.main == AwaitDrained(true) then 1 else 0)
  }

  lemma RemainingMoved(s: Pool, t: nat, d: Dispatcher)
    requires t < |s.threads|
    ensures Total(s.threads[t := d], Work) == Total(s.threads, Work) - Work(s.threads[t]) + Work(d)
  {
    TotalUpdate(s.threads, Work, t, d);
  }

  lemma DispatcherStepShrinks(s: Pool, a: Action)
    requires Inv(s) && s.phase == STOPPING && Enabled(s, a)
    requires a.Announce? || a.Loop? || a.Wake? || a.Return?
    ensures Remaining(Apply(s, a)) < Remaining(s) && Apply(s, a).phase == STOPPING
  {
    RemainingMoved(s, a.t, Apply(s, a).threads[a.t]);
  }

  lemma StoppingStep(s: Pool, a: Action)
    requires Inv(s) && s.phase == STOPPING && Enabled(s, a)
    ensures !Disturbance(a) && Apply(s, a).phase == STOPPING ==> Remaining(Apply(s, a)) < Remaining(s)
    ensures Disturbance(a) ==> Remaining(Apply(s, a)) <= Remaining(s) + 3
    ensures Apply(s, a).phase == STOPPING || Apply(s, a).phase == STOPPED
  {
    SleepBounds(s);
    match a {
      case Announce(t) => DispatcherStepShrinks(s, a);
      case Loop(t) => DispatcherStepShrinks(s, a);
      case Wake(t) => DispatcherStepShrinks(s, a);
      case Return(t) => DispatcherStepShrinks(s, a);
      case SpuriousDispatcher(t) => RemainingMoved(s, t, Parked(true));
      case ScheduleInside(_, _) => TotalMonotone(AllWoken(s.threads), Work, s.threads, Work);
      case ScheduleOutside(_) => TotalMonotone(AllWoken(s.threads), Work, s.threads, Work);
      case _ =>
    }
  }

  function Disturbances(actions: seq<Action>): nat {
    if actions == [] then 0 else (if Disturbance(actions[0]) then 1 else 0) + Disturbances(actions[1..])
  }

  /**
   A run that stays in STOPPING is no longer than the work it started with plus four steps for
   each callback scheduled meanwhile and each spurious wakeup of the stopping thread.
   */
  lemma {:induction false} StoppingIsBounded(states: seq<Pool>, actions: seq<Action>)
    requires IsRun(states, actions) && Inv(states[0])
    requires forall i :: 0 <= i < |states| ==> states[i].phase == STOPPING
    ensures |actions| <= Remaining(states[0]) + 4 * Disturbances(actions)
  {
    if actions != [] {
      var a := actions[0];
      assert states[1] == Apply(states[0], a);
      StoppingStep(states[0], a);
      InvKept(states[0], a);
      assert states[1..][0] == states[1];
      StoppingIsBounded(states[1..], actions[1..]);
    }
  }

  /** Only a schedule from outside, made after the last dispatcher has left, makes a stop hopeless. */
  lemma HopelessOrigin(s: Pool, a: Action)
    requires Inv(s) && Enabled(s, a) && !Hopeless(s)
    ensures Hopeless(Apply(s, a)) ==> a.ScheduleOutside? && forall t :: 0 <= t < |s.threads| ==> s.threads[t] == Exited
  {
    var s' := Apply(s, a);
    match a {
      case Loop(t) => assert s'.threads[t] != Exited || s'.queue == [];
      case Wake(t) => assert s'.threads[t] != Exited || s'.queue == [];
      case ScheduleInside(t, _) => assert s'.threads[t] != Exited;
      case Return(t) => assert s'.threads[t] != Exited;
      case Announce(t) => assert s'.threads[t] != Exited;
      case CountDown(t) => assert s'.threads[t] != Exited;
      case Gate(t) => assert s'.threads[t] != Exited;
      case SpuriousDispatcher(t) => assert s'.threads[t] != Exited;
      case ScheduleOutside(_) =>
        assert forall t :: 0 <= t < |s.threads| && s'.threads[t] == Exited ==> s.threads[t] == Exited;
      case BeginStop =>
        assert s.threads[0] != Exited && s'.threads[0] == s.threads[0];
      case _ =>
    }
  }

  lemma HopelessForever(s: Pool, a: Action)
    requires Inv(s) && Hopeless(s) && Enabled(s, a)
    ensures Hopeless(Apply(s, a))
  {
    assert s.threads[0] == Exited;
  }

  // In STOPPING some thread can always advance, unless the stop is hopeless.
  lemma NextStep(s: Pool) returns (a: Action)
    requires Inv(s) && s.phase == STOPPING && !Hopeless(s)
    ensures Enabled(s, a) && !Disturbance(a) && !a.SpuriousDispatcher?
  {
    SleepBounds(s);
    if t :| 0 <= t < |s.threads| && s.threads[t] == AtLoop {
      a := Loop(t);
    } else if t :| 0 <= t < |s.threads| && s.threads[t].Executing? {
      a := Return(t);
    } else if t :| 0 <= t < |s.threads| && s.threads[t] == Counted {
      a := Announce(t);
    } else if t :| 0 <= t < |s.threads| && s.threads[t] == Parked(true) {
      a := Wake(t);
    } else {
      assert forall t :: 0 <= t < |s.threads| ==> Asleep(s.threads[t]) == 1;
      assert s.main == AwaitDrained(true);
      a := TestDrained;
    }
  }

  ghost predicate CanReturn(s: Pool) {
    exists states: seq<Pool>, actions: seq<Action> :: IsRun(states, actions) && states[0] == s && states[|actions|].phase == STOPPED
  }

  lemma {:induction false} StopReturns(s: Pool)
    requires Inv(s) && s.phase == STOPPING && !Hopeless(s)
    ensures CanReturn(s)
    decreases Remaining(s)
  {
    var a := NextStep(s);
    var s' := Apply(s, a);
    StoppingStep(s, a);
    InvKept(s, a);
    if s'.phase == STOPPED {
      assert IsRun([s, s'], [a]);
    } else {
      if Hopeless(s') { HopelessOrigin(s, a); }
      StopReturns(s');
      ReturnsFrom(s, a, s');
    }
  }

  lemma ReturnsFrom(s: Pool, a: Action, s': Pool)
    requires Moves(s, a, s') && CanReturn(s')
    ensures CanReturn(s)
  {
    var states: seq<Pool>, actions: seq<Action> :| IsRun(states, actions) && states[0] == s' && states[|actions|].phase == STOPPED;
    ChainBeginsEarlier(Moves, s, a, states, actions);
  }

  lemma {:induction false} HopelessRun(states: seq<Pool>, actions: seq<Action>, k: nat)
    requires IsRun(states, actions) && Inv(states[0]) && Hopeless(states[0]) && k <= |actions|
    ensures Hopeless(states[k])
  {
    if k > 0 {
      HopelessRun(states, actions, k - 1);
      RunKeepsInv(states, actions, k - 1);
      HopelessForever(states[k - 1], actions[k - 1]);
    }
  }

  /** `stop` can return exactly when it is not hopeless. */
  lemma StopReturnsExactly(dispatcherCount: nat, s: Pool)
    requires dispatcherCount > 0 && Reachable(dispatcherCount, s) && s.phase == STOPPING
    ensures CanReturn(s) <==> !Hopeless(s)
  {
    ReachableInv(dispatcherCount, s);
    if Hopeless(s) {
      forall states: seq<Pool>, actions: seq<Action> | IsRun(states, actions) && states[0] == s
        ensures states[|actions|].phase != STOPPED
      {
        HopelessRun(states, actions, |actions|);
      }
    } else {
      StopReturns(s);
    }
  }

  /** As long as no thread outside the pool schedules after `start`, `stop` can return. */
  lemma StopReturnsUndisturbed(dispatcherCount: nat, s: Pool)
    requires dispatcherCount > 0 && Reachable(dispatcherCount, s) && s.phase == STOPPING && !s.outsider
    ensures CanReturn(s)
  {
    ReachableInv(dispatcherCount, s);
    SleepBounds(s);
    if Hopeless(s) { AllExitedAsleep(s); }
    StopReturnsExactly(dispatcherCount, s);
  }

  lemma AllExitedAsleep(s: Pool)
    requires Counts(s) && forall t :: 0 <= t < |s.threads| ==> s.threads[t] == Exited
    ensures s.sleeping == |s.threads|
  {
    TotalFull(s.threads, Asleep);
  }

  lemma {:induction false} StaysHopeful(states: seq<Pool>, actions: seq<Action>, k: nat)
    requires IsRun(states, actions) && Inv(states[0]) && states[0].phase == STOPPING && !Hopeless(states[0])
    requires forall i :: 0 <= i < |actions| ==> !actions[i].ScheduleOutside?
    requires forall i :: 0 <= i < |states| ==> states[i].phase != STOPPED
    requires k <= |actions|
    ensures Inv(states[k]) && states[k].phase == STOPPING && !Hopeless(states[k])
  {
    if k > 0 {
      StaysHopeful(states, actions, k - 1);
      var s, a := states[k - 1], actions[k - 1];
      assert Moves(s, a, states[k]);
      InvKept(s, a);
      StoppingStep(s, a);
      HopelessOrigin(s, a);
    }
  }

  /**
   As long as no thread outside the pool schedules, every run from a state that is not hopeless
   reaches STOPPED: one that has not yet is no longer than the work it began with plus four steps
   for each callback scheduled by a callback and each spurious wakeup of the stopping thread, and
   a step that is none of these can follow.
   */
  lemma EveryRunStops(dispatcherCount: nat, states: seq<Pool>, actions: seq<Action>)
    requires dispatcherCount > 0 && IsRun(states, actions) && Reachable(dispatcherCount, states[0])
    requires states[0].phase == STOPPING && !Hopeless(states[0])
    requires forall i :: 0 <= i < |actions| ==> !actions[i].ScheduleOutside?
    ensures (exists k :: 0 <= k < |states| && states[k].phase == STOPPED)
            || (|actions| <= Remaining(states[0]) + 4 * Disturbances(actions)
                && exists a :: Enabled(states[|actions|], a) && !Disturbance(a))
  {
    if forall i :: 0 <= i < |states| ==> states[i].phase != STOPPED {
      ReachableInv(dispatcherCount, states[0]);
      forall i | 0 <= i < |states| ensures states[i].phase == STOPPING { StaysHopeful(states, actions, i); }
      StoppingIsBounded(states, actions);
      StaysHopeful(states, actions, |actions|);
      var a := NextStep(states[|actions|]);
    }
  }

  lemma OneDispatcherGated() returns (s: Pool)
    ensures s == Pool(RUNNING, [], 0, 1, [Gated], AwaitStarted(true), [], [], {}, false, false) && Reachable(1, s)
  {
    s := Created(1);
    assert IsRun([s], []);
    ReachableStep(1, s, BeginStart);
    s := Apply(s, BeginStart);
    ReachableStep(1, s, SignalStart);
    s := Apply(s, SignalStart);
    assert s.threads == [Fresh];
    ReachableStep(1, s, Gate(0));
    s := Apply(s, Gate(0));
  }

  lemma OneDispatcherStarts() returns (s: Pool)
    ensures s == Pool(RUNNING, [], 0, 0, [AtLoop], Idle, [], [], {}, false, false) && Reachable(1, s)
  {
    s := OneDispatcherGated();
    ReachableStep(1, s, CountDown(0));
    s := Apply(s, CountDown(0));
    ReachableStep(1, s, Announce(0));
    s := Apply(s, Announce(0));
    ReachableStep(1, s, TestStarted);
    s := Apply(s, TestStarted);
  }

  /** `waitForIdle` does return with work queued: one dispatcher, asleep, and one `schedule` from outside. */
  lemma IntruderIsReachable(job: Job)
    ensures exists s ::
              && Reachable(1, s) && s.phase == RUNNING && s.queue == [job] && Enabled(s, BeginIdleWait)
              && Apply(s, BeginIdleWait).main == Idle && Apply(s, BeginIdleWait).queue == [job]
  {
    var s := OneDispatcherStarts();
    ReachableStep(1, s, Loop(0));
    s := Apply(s, Loop(0));
    assert s.threads == [Parked(false)] && s.sleeping == 1;
    ReachableStep(1, s, ScheduleOutside(job));
    s := Apply(s, ScheduleOutside(job));
    assert s.queue == [job] && Apply(s, BeginIdleWait).main == Idle;
  }

  /** The hopeless case is real: one dispatcher, one outside `schedule` between its exit and the stopper's wakeup. */
  lemma HopelessIsReachable(job: Job)
    ensures exists s :: Reachable(1, s) && Hopeless(s)
  {
    var s := OneDispatcherStarts();
    ReachableStep(1, s, BeginStop);
    s := Apply(s, BeginStop);
    ReachableStep(1, s, Loop(0));
    s := Apply(s, Loop(0));
    assert s.threads == [Exited];
    ReachableStep(1, s, ScheduleOutside(job));
    s := Apply(s, ScheduleOutside(job));
    assert Hopeless(s);
  }

  /** After `stop` has signalled, no dispatcher can block any more, so joining them terminates. */
  lemma JoinTerminates(dispatcherCount: nat, s: Pool, t: nat)
    requires dispatcherCount > 0 && Reachable(dispatcherCount, s)
    requires s.phase == STOPPED && s.main != StopSignal && t < |s.threads|
    ensures s.threads[t] == Exited || (Enabled(s, Wake(t)) && Apply(s, Wake(t)).threads[t] == Exited)
  {
    ReachableInv(dispatcherCount, s);
    SleepBounds(s);
    assert Asleep(s.threads[t]) == 1;
  }
}
