/** What a running pool does with its queue, and that it comes to the end of it. */
module DispatcherPoolRunning {
  import opened Totals
  import opened DispatcherPool
  import opened DispatcherPoolSafety
  import opened DispatcherPoolProgress

  // ----- what one step does -----

  /** Whoever comes to the loop while work is queued, in any phase, takes the oldest callback and runs it. */
  lemma WorkIsTaken(s: Pool, a: Action)
    requires Enabled(s, a) && (a.Loop? || a.Wake?) && s.queue != []
    ensures var s' := Apply(s, a);
            && s'.taken == s.taken + s.queue[..1] && s'.queue == s.queue[1..]
            && s'.threads == s.threads[a.t := Executing(s.queue[0], |s.taken|)]
            && s'.sleeping == s.sleeping - (if a.Wake? then 1 else 0)
            && s'.phase == s.phase && s'.main == s.main && s'.submitted == s.submitted && s'.finished == s.finished
  {
  }

  /** Without work it parks while the pool is RUNNING, and leaves for good otherwise. */
  lemma NoWorkNoTaking(s: Pool, a: Action)
    requires Enabled(s, a) && (a.Loop? || a.Wake?) && s.queue == []
    ensures var s' := Apply(s, a);
            && s'.taken == s.taken && s'.queue == [] && s'.phase == s.phase && s'.submitted == s.submitted
            && s'.finished == s.finished
            && s'.threads == s.threads[a.t := if s.phase == RUNNING then Parked(false) else Exited]
            && s'.sleeping == s.sleeping + (if a.Loop? then 1 else 0)
  {
  }

  /** Nothing but a schedule puts work in the queue, at its end; nothing but a dispatcher at the loop takes any out. */
  lemma QueueChanges(s: Pool, a: Action)
    requires Enabled(s, a)
    ensures a.ScheduleInside? || a.ScheduleOutside? ==>
              && Apply(s, a).queue == s.queue + [a.job] && Apply(s, a).submitted == s.submitted + [a.job]
              && Apply(s, a).taken == s.taken && Apply(s, a).finished == s.finished
    ensures !a.ScheduleInside? && !a.ScheduleOutside? ==> Apply(s, a).submitted == s.submitted
    ensures !a.ScheduleInside? && !a.ScheduleOutside? && !a.Loop? && !a.Wake? ==>
              Apply(s, a).queue == s.queue && Apply(s, a).taken == s.taken
    ensures Apply(s, a).finished == s.finished + (if a.Return? then {s.threads[a.t].ticket} else {})
  {
  }

  /** `waitForIdle` goes on if and only if every dispatcher sleeps, on entry and at each later test. */
  lemma IdleTestExact(dispatcherCount: nat, s: Pool, a: Action)
    requires dispatcherCount > 0 && Reachable(dispatcherCount, s) && a in {BeginIdleWait, TestIdle} && Enabled(s, a)
    ensures Apply(s, a) == s.(main := if forall t :: 0 <= t < |s.threads| ==> s.threads[t].Parked? || s.threads[t].Exited?
                                      then Idle else AwaitIdle(false))
  {
    ReachableInv(dispatcherCount, s);
    SleepBounds(s);
    assert forall t :: 0 <= t < |s.threads| ==> (Asleep(s.threads[t]) == 1 <==> s.threads[t].Parked? || s.threads[t].Exited?);
  }

  /** What the two flags of history mean. */
  lemma FlagsExact(dispatcherCount: nat, s: Pool, a: Action)
    requires dispatcherCount > 0 && Reachable(dispatcherCount, s) && Enabled(s, a)
    ensures Apply(s, a).outsider <==> s.outsider || (a.ScheduleOutside? && s.phase != START)
    ensures Apply(s, a).intruder <==>
              (a.ScheduleOutside? && forall t :: 0 <= t < |s.threads| ==> s.threads[t].Parked? || s.threads[t].Exited?)
              || (s.intruder && !(a.Wake? && (s.queue != [] || s.phase != RUNNING)))
  {
    ReachableInv(dispatcherCount, s);
    SleepBounds(s);
    assert forall t :: 0 <= t < |s.threads| ==> (Asleep(s.threads[t]) == 1 <==> s.threads[t].Parked? || s.threads[t].Exited?);
  }

  // ----- the work left while RUNNING -----

  function Duty(d: Dispatcher): nat {
    match d
    case Fresh => 6
    case AwaitStart(_) => 6
    case Gated => 5
    case Counted => 4
    case Executing(_, _) => 3
    case AtLoop => 2
    case Parked(woken) => if woken then 2 else 0
    case Exited => 0
  }

  function Attention(main: Controller): nat {
    match main
    case StartSignal => 2
    case AwaitStarted(woken) => if woken then 1 else 0
    case AwaitIdle(woken) => if woken then 1 else 0
    case AwaitDrained(woken) => if woken then 1 else 0
    case _ => 0
  }

  /** The work left in RUNNING: the queue, the way of every dispatcher to its sleep, and the tests the controller has to make. */
  function Due(s: Pool): nat { 3 * |s.queue| + Total(s.threads, Duty) + Attention(s.main) }

  /** New work, a spurious wakeup, or a call of the controller. */
  predicate Nudge(a: Action) {
    a.ScheduleInside? || a.ScheduleOutside? || a.SpuriousDispatcher? || a.SpuriousController? || a.BeginIdleWait?
  }

  predicate OfDispatcher(a: Action) { a.Gate? || a.CountDown? || a.Announce? || a.Loop? || a.Wake? || a.Return? }

  lemma DutyMoved(s: Pool, t: nat, d: Dispatcher)
    requires t < |s.threads|
    ensures Total(s.threads[t := d], Duty) == Total(s.threads, Duty) - Duty(s.threads[t]) + Duty(d)
  {
    TotalUpdate(s.threads, Duty, t, d);
  }

  lemma DispatcherStepShrinks(s: Pool, a: Action)
    requires Inv(s) && s.phase == RUNNING && Enabled(s, a) && OfDispatcher(a)
    ensures Due(Apply(s, a)) < Due(s) && Apply(s, a).phase == RUNNING
  {
    if a.Loop? || a.Wake? {
      LoopShrinks(s, a);
    } else {
      DutyMoved(s, a.t, Apply(s, a).threads[a.t]);
    }
  }

  lemma LoopShrinks(s: Pool, a: Action)
    requires s.phase == RUNNING && Enabled(s, a) && (a.Loop? || a.Wake?)
    ensures Due(Apply(s, a)) < Due(s) && Apply(s, a).phase == RUNNING
  {
    if s.queue != [] { WorkIsTaken(s, a); } else { NoWorkNoTaking(s, a); }
    DutyMoved(s, a.t, Apply(s, a).threads[a.t]);
  }

  lemma StartedDuty(threads: seq<Dispatcher>)
    ensures Total(AllStarted(threads), Duty) == Total(threads, Duty)
  {
    TotalSame(AllStarted(threads), threads, Duty);
  }

  lemma ControllerStepShrinks(s: Pool, a: Action)
    requires Inv(s) && s.phase == RUNNING && Enabled(s, a) && !OfDispatcher(a) && !Nudge(a) && !a.BeginStop?
    ensures Due(Apply(s, a)) < Due(s) && Apply(s, a).phase == RUNNING
  {
    if a.SignalStart? { StartedDuty(s.threads); }
  }

  function Wakeable(d: Dispatcher): nat { Duty(d) + 2 }

  lemma {:induction false} WakeableTotal(threads: seq<Dispatcher>)
    ensures Total(threads, Wakeable) == Total(threads, Duty) + 2 * |threads|
  {
    if threads != [] { WakeableTotal(threads[1..]); }
  }

  lemma WokenDuty(threads: seq<Dispatcher>)
    ensures Total(AllWoken(threads), Duty) <= Total(threads, Duty) + 2 * |threads|
  {
    TotalMonotone(AllWoken(threads), Duty, threads, Wakeable);
    WakeableTotal(threads);
  }

  /** A nudge adds a constant. */
  lemma NudgeAdds(s: Pool, a: Action)
    requires Inv(s) && s.phase == RUNNING && Enabled(s, a) && Nudge(a)
    ensures Due(Apply(s, a)) <= Due(s) + (if a.ScheduleInside? || a.ScheduleOutside? then 3 + 2 * |s.threads| else 2)
    ensures Apply(s, a).phase == RUNNING && |Apply(s, a).threads| == |s.threads|
  {
    if a.ScheduleInside? || a.ScheduleOutside? {
      WokenDuty(s.threads);
    } else if a.SpuriousDispatcher? {
      DutyMoved(s, a.t, Apply(s, a).threads[a.t]);
    }
  }

  lemma RunningStep(s: Pool, a: Action)
    requires Inv(s) && s.phase == RUNNING && Enabled(s, a) && !Nudge(a) && !a.BeginStop?
    ensures Due(Apply(s, a)) < Due(s) && Apply(s, a).phase == RUNNING && |Apply(s, a).threads| == |s.threads|
  {
    if OfDispatcher(a) { DispatcherStepShrinks(s, a); } else { ControllerStepShrinks(s, a); }
  }

  // ----- every run -----

  /** `cost` for each nudge in a run. */
  function Nudges(actions: seq<Action>, cost: nat): nat {
    if actions == [] then 0 else (if Nudge(actions[0]) then cost else 0) + Nudges(actions[1..], cost)
  }

  /** Nothing is queued, every callback handed out has ended, and every dispatcher sleeps. */
  ghost predicate AllServed(s: Pool) {
    && s.queue == [] && (forall t :: 0 <= t < |s.threads| ==> s.threads[t] == Parked(false))
    && forall k: nat :: k < |s.taken| ==> k in s.finished
  }

  /** Until then some dispatcher, or `start`, has a step of its own. */
  lemma ServiceGoesOn(s: Pool) returns (a: Action)
    requires Inv(s) && s.phase == RUNNING && !AllServed(s)
    ensures Enabled(s, a) && (OfDispatcher(a) || a == SignalStart)
  {
    if t: nat :| t < |s.threads| && s.threads[t] != Parked(false) {
      a := match s.threads[t] {
        case Fresh => Gate(t)
        case AwaitStart(woken) => if woken then Gate(t) else SignalStart
        case Gated => CountDown(t)
        case Counted => Announce(t)
        case AtLoop => Loop(t)
        case Parked(_) => Wake(t)
        case _ => Return(t)
      };
    } else {
      ServedIfParked(s);
      a := SignalStart;
    }
  }

  lemma ServedIfParked(s: Pool)
    requires Inv(s) && forall t: nat :: t < |s.threads| ==> s.threads[t] == Parked(false)
    ensures AllServed(s)
  {
    assert s.threads[0] == Parked(false);
    forall k: nat | k < |s.taken| ensures k in s.finished {
      assert forall t :: 0 <= t < |s.threads| ==> !Executes(s, t, k);
    }
  }

  lemma RunningCosts(s: Pool, a: Action)
    requires Inv(s) && s.phase == RUNNING && Enabled(s, a) && Apply(s, a).phase == RUNNING
    ensures Due(Apply(s, a)) + 1 <= Due(s) + (if Nudge(a) then 4 + 2 * |s.threads| else 0)
    ensures |Apply(s, a).threads| == |s.threads|
  {
    if Nudge(a) { NudgeAdds(s, a); } else { RunningStep(s, a); }
  }

  /** While the pool is RUNNING a run is no longer than the work it began with plus a constant for each nudge. */
  lemma {:induction false} RunningIsBounded(states: seq<Pool>, actions: seq<Action>, cost: nat)
    requires IsRun(states, actions) && Inv(states[0]) && cost == 4 + 2 * |states[0].threads|
    requires forall i :: 0 <= i < |states| ==> states[i].phase == RUNNING
    ensures |actions| <= Due(states[0]) + Nudges(actions, cost)
  {
    if actions != [] {
      RunningNext(states[0], actions[0], states[1], cost);
      assert states[1..][0] == states[1];
      RunningIsBounded(states[1..], actions[1..], cost);
    }
  }

  lemma RunningNext(s: Pool, a: Action, s': Pool, cost: nat)
    requires Inv(s) && s.phase == RUNNING && Moves(s, a, s') && s'.phase == RUNNING && cost == 4 + 2 * |s.threads|
    ensures Inv(s') && cost == 4 + 2 * |s'.threads| && Due(s') + 1 <= Due(s) + (if Nudge(a) then cost else 0)
  {
    RunningCosts(s, a);
    InvKept(s, a);
  }

  /**
   Every callback that is scheduled is run: a run of a pool that stays RUNNING is bounded by the
   work it began with and the nudges, and as long as anything is queued, handed out and not ended,
   or awake, a step that is no nudge can follow.
   */
  lemma EveryCallBackRuns(dispatcherCount: nat, states: seq<Pool>, actions: seq<Action>)
    requires dispatcherCount > 0 && IsRun(states, actions) && Reachable(dispatcherCount, states[0])
    requires forall i :: 0 <= i < |states| ==> states[i].phase == RUNNING
    ensures |actions| <= Due(states[0]) + Nudges(actions, 4 + 2 * |states[0].threads|)
    ensures AllServed(states[|actions|]) || exists a :: Enabled(states[|actions|], a) && !Nudge(a) && !a.BeginStop?
  {
    ReachableInv(dispatcherCount, states[0]);
    RunningIsBounded(states, actions, 4 + 2 * |states[0].threads|);
    RunKeepsInv(states, actions, |actions|);
    if !AllServed(states[|actions|]) {
      var a := ServiceGoesOn(states[|actions|]);
    }
  }

  /** And then a `waitForIdle` that was blocked has been notified, and returns with its next test. */
  lemma ServedWakesIdleWait(dispatcherCount: nat, s: Pool)
    requires dispatcherCount > 0 && Reachable(dispatcherCount, s) && s.phase == RUNNING && AllServed(s) && s.main.AwaitIdle?
    ensures Enabled(s, TestIdle) && Apply(s, TestIdle).main == Idle
  {
    ReachableInv(dispatcherCount, s);
    SleepBounds(s);
    IdleTestExact(dispatcherCount, s, TestIdle);
  }
}
