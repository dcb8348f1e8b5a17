/** What every run of the dispatcher pool keeps. */
module DispatcherPoolSafety {
  import opened Totals
  import opened Chains
  import opened DispatcherPool

  // How the two counters move when one thread changes its place.
  lemma Moved(threads: seq<Dispatcher>, t: nat, d: Dispatcher)
    requires t < |threads|
    ensures Total(threads[t := d], Asleep) == Total(threads, Asleep) - Asleep(threads[t]) + Asleep(d)
    ensures Total(threads[t := d], Unstarted) == Total(threads, Unstarted) - Unstarted(threads[t]) + Unstarted(d)
  {
    TotalUpdate(threads, Asleep, t, d);
    TotalUpdate(threads, Unstarted, t, d);
  }

  lemma Notified(threads: seq<Dispatcher>)
    ensures Total(AllWoken(threads), Asleep) == Total(threads, Asleep)
    ensures Total(AllWoken(threads), Unstarted) == Total(threads, Unstarted)
    ensures Total(AllStarted(threads), Asleep) == Total(threads, Asleep)
    ensures Total(AllStarted(threads), Unstarted) == Total(threads, Unstarted)
  {
    TotalSame(threads, AllWoken(threads), Asleep);
    TotalSame(threads, AllWoken(threads), Unstarted);
    TotalSame(threads, AllStarted(threads), Asleep);
    TotalSame(threads, AllStarted(threads), Unstarted);
  }

  lemma LoopTopCounts(s: Pool, t: nat, awake: Dispatcher)
    requires t < |s.threads| && Asleep(awake) == Unstarted(awake) == 0 && Unstarted(s.threads[t]) == 0
    requires s.sleeping == Total(s.threads[t := awake], Asleep)
    requires s.startCount == Total(s.threads[t := awake], Unstarted)
    ensures Counts(LoopTop(s, t))
  {
    var s' := LoopTop(s, t);
    Moved(s.threads, t, awake);
    Moved(s.threads, t, s'.threads[t]);
  }

  lemma WakeUpCounts(s: Pool, t: nat)
    requires Counts(s) && t < |s.threads| && s.threads[t] == Parked(true)
    ensures Counts(WakeUp(s, t))
  {
    if s.queue != [] || s.phase != RUNNING {
      Moved(s.threads, t, AtLoop);
      LoopTopCounts(s.(sleeping := s.sleeping - 1, intruder := false), t, AtLoop);
    } else {
      Moved(s.threads, t, Parked(false));
    }
  }

  lemma CountsKeptByMove(s: Pool, a: Action)
    requires Counts(s) && Enabled(s, a)
    requires a.Gate? || a.CountDown? || a.Announce? || a.Return? || a.SpuriousDispatcher?
    ensures Counts(Apply(s, a))
  {
    Moved(s.threads, a.t, Apply(s, a).threads[a.t]);
  }

  lemma CountsKept(s: Pool, a: Action)
    requires Counts(s) && Enabled(s, a)
    ensures Counts(Apply(s, a))
  {
    match a {
      case Loop(t) =>
        Moved(s.threads, t, AtLoop);
        LoopTopCounts(s, t, AtLoop);
      case Wake(t) => WakeUpCounts(s, t);
      case ScheduleInside(_, _) => Notified(s.threads);
      case ScheduleOutside(_) => Notified(s.threads);
      case SignalStart => Notified(s.threads);
      case SignalStopped => Notified(s.threads);
      case Gate(_) => CountsKeptByMove(s, a);
      case CountDown(_) => CountsKeptByMove(s, a);
      case Announce(_) => CountsKeptByMove(s, a);
      case Return(_) => CountsKeptByMove(s, a);
      case SpuriousDispatcher(_) => CountsKeptByMove(s, a);
      case _ =>
    }
  }

  lemma FifoKept(s: Pool, a: Action)
    requires Fifo(s) && Enabled(s, a)
    ensures Fifo(Apply(s, a))
  {
  }

  // Steps that neither hand out nor complete a callback.
  ghost predicate SameExecutions(s: Pool, s': Pool) {
    && s'.taken == s.taken && s'.finished == s.finished && |s'.threads| == |s.threads|
    && forall t :: 0 <= t < |s.threads| ==>
         (s.threads[t].Executing? || s'.threads[t].Executing? ==> s'.threads[t] == s.threads[t])
  }

  lemma LedgerFrame(s: Pool, s': Pool)
    requires Ledger(s) && SameExecutions(s, s')
    ensures Ledger(s')
  {
    assert forall t, k :: Executes(s, t, k) ==> Executes(s', t, k);
  }

  lemma TakeLedger(s: Pool, t: nat)
    requires Ledger(s) && t < |s.threads| && !s.threads[t].Executing? && s.queue != []
    ensures Ledger(LoopTop(s, t))
  {
    var s' := LoopTop(s, t);
    assert Executes(s', t, |s.taken|);
    assert forall u, k :: Executes(s, u, k) ==> Executes(s', u, k);
  }

  lemma LoopTopLedger(s: Pool, t: nat)
    requires Ledger(s) && t < |s.threads| && !s.threads[t].Executing?
    ensures Ledger(LoopTop(s, t))
  {
    if s.queue != [] {
      TakeLedger(s, t);
    } else {
      LedgerFrame(s, LoopTop(s, t));
    }
  }

  lemma OtherStepsKeepExecutions(s: Pool, a: Action)
    requires Enabled(s, a) && !a.Loop? && !a.Return? && !(a.Wake? && (s.queue != [] || s.phase != RUNNING))
    ensures SameExecutions(s, Apply(s, a))
  {
  }

  lemma WakeUpLedger(s: Pool, t: nat)
    requires Ledger(s) && Enabled(s, Wake(t)) && (s.queue != [] || s.phase != RUNNING)
    ensures Ledger(WakeUp(s, t))
  {
    var awake := s.(sleeping := s.sleeping - 1, intruder := false);
    LedgerFrame(s, awake);
    LoopTopLedger(awake, t);
  }

  lemma ReturnLedger(s: Pool, t: nat)
    requires Ledger(s) && Enabled(s, Return(t))
    ensures Ledger(Apply(s, Return(t)))
  {
    var s' := Apply(s, Return(t));
    assert forall u, k :: Executes(s, u, k) && u != t ==> Executes(s', u, k);
  }

  lemma LedgerKept(s: Pool, a: Action)
    requires Ledger(s) && Enabled(s, a)
    ensures Ledger(Apply(s, a))
  {
    if a.Loop? {
      LoopTopLedger(s, a.t);
    } else if a.Wake? && (s.queue != [] || s.phase != RUNNING) {
      WakeUpLedger(s, a.t);
    } else if a.Return? {
      ReturnLedger(s, a.t);
    } else {
      OtherStepsKeepExecutions(s, a);
      LedgerFrame(s, Apply(s, a));
    }
  }

  lemma NoSleeperWithWorkKept(s: Pool, a: Action)
    requires NoSleeperWithWork(s) && Enabled(s, a)
    ensures NoSleeperWithWork(Apply(s, a))
  {
  }

  /** `sleepingCount_` is between zero and the number of dispatchers, at the top exactly when all sleep. */
  lemma SleepBounds(s: Pool)
    requires Counts(s)
    ensures 0 <= s.sleeping <= |s.threads|
    ensures s.sleeping == |s.threads| <==> forall t :: 0 <= t < |s.threads| ==> Asleep(s.threads[t]) == 1
    ensures forall t :: 0 <= t < |s.threads| && s.threads[t].Parked? ==> s.sleeping > 0
    ensures s.sleeping == 0 <==> forall t :: 0 <= t < |s.threads| ==> Asleep(s.threads[t]) == 0
    ensures s.startCount == 0 <==> forall t :: 0 <= t < |s.threads| ==> Unstarted(s.threads[t]) == 0
  {
    TotalFull(s.threads, Asleep);
    TotalZero(s.threads, Asleep);
    TotalZero(s.threads, Unstarted);
  }

  lemma PhasedKept(s: Pool, a: Action)
    requires Inv(s) && Enabled(s, a)
    ensures Phased(Apply(s, a))
  {
    SleepBounds(s);
    if a.Loop? || a.Wake? {
      PhasedLoop(s, a);
    } else if a.BeginStop? || a.TestDrained? || a.SignalStopped? {
      PhasedStop(s, a);
    } else if a.ScheduleInside? || a.ScheduleOutside? {
      PhasedSchedule(s, a);
    }
  }

  lemma PhasedSchedule(s: Pool, a: Action)
    requires Inv(s) && Enabled(s, a) && (a.ScheduleInside? || a.ScheduleOutside?)
    ensures Phased(Apply(s, a))
  {
  }

  lemma PhasedLoop(s: Pool, a: Action)
    requires Inv(s) && Enabled(s, a) && (a.Loop? || a.Wake?)
    ensures Phased(Apply(s, a))
  {
    SleepBounds(s);
  }

  lemma PhasedStop(s: Pool, a: Action)
    requires Inv(s) && Enabled(s, a) && (a.BeginStop? || a.TestDrained? || a.SignalStopped?)
    ensures Phased(Apply(s, a))
  {
    SleepBounds(s);
  }

  lemma ControlledKept(s: Pool, a: Action)
    requires Inv(s) && Enabled(s, a)
    ensures Controlled(Apply(s, a))
  {
    SleepBounds(s);
    if a.Loop? || a.Wake? { ControlledLoop(s, a); }
  }

  lemma ControlledLoop(s: Pool, a: Action)
    requires Inv(s) && Enabled(s, a) && (a.Loop? || a.Wake?)
    ensures Controlled(Apply(s, a))
  {
    SleepBounds(s);
  }

  lemma StartCoveredKept(s: Pool, a: Action)
    requires StartCovered(s) && Controlled(s) && Enabled(s, a)
    ensures StartCovered(Apply(s, a))
  {
    var s' := Apply(s, a);
    if s'.main == AwaitStarted(false) && s'.startCount == 0 {
      var u := if a.CountDown? then a.t
               else var u :| 0 <= u < |s.threads| && s.threads[u] == Counted; u;
      assert s'.threads[u] == Counted;
    }
  }

  lemma IntrudedKept(s: Pool, a: Action)
    requires Inv(s) && Enabled(s, a)
    ensures Intruded(Apply(s, a))
  {
    SleepBounds(s);
  }

  lemma InvKept(s: Pool, a: Action)
    requires Inv(s) && Enabled(s, a)
    ensures Inv(Apply(s, a))
  {
    CountsKept(s, a);
    FifoKept(s, a);
    LedgerKept(s, a);
    NoSleeperWithWorkKept(s, a);
    PhasedKept(s, a);
    ControlledKept(s, a);
    StartCoveredKept(s, a);
    IntrudedKept(s, a);
  }

  lemma InvAtStart(dispatcherCount: nat)
    requires dispatcherCount > 0
    ensures Inv(Created(dispatcherCount))
  {
    var s := Created(dispatcherCount);
    SleepersAtStart(s.threads);
  }

  lemma {:induction false} SleepersAtStart(threads: seq<Dispatcher>)
    requires forall t :: 0 <= t < |threads| ==> threads[t] == Fresh
    ensures Total(threads, Asleep) == 0 && Total(threads, Unstarted) == |threads|
  {
    if threads != [] {
      SleepersAtStart(threads[1..]);
    }
  }

  lemma {:induction false} RunKeepsInv(states: seq<Pool>, actions: seq<Action>, k: nat)
    requires IsRun(states, actions) && Inv(states[0]) && k <= |actions|
    ensures Inv(states[k])
  {
    if k > 0 {
      RunKeepsInv(states, actions, k - 1);
      InvKept(states[k - 1], actions[k - 1]);
    }
  }

  /** Every invariant above holds in every reachable state of a pool of any positive size. */
  lemma ReachableInv(dispatcherCount: nat, s: Pool)
    requires dispatcherCount > 0 && Reachable(dispatcherCount, s)
    ensures Inv(s)
  {
    var states, actions :| IsRun(states, actions) && states[0] == Created(dispatcherCount) && states[|actions|] == s;
    InvAtStart(dispatcherCount);
    RunKeepsInv(states, actions, |actions|);
  }

  lemma ReachableStep(dispatcherCount: nat, s: Pool, a: Action)
    requires Reachable(dispatcherCount, s) && Enabled(s, a)
    ensures Reachable(dispatcherCount, Apply(s, a))
  {
    var states, actions :| IsRun(states, actions) && states[0] == Created(dispatcherCount) && states[|actions|] == s;
    ChainGrows(Moves, states, actions, a, Apply(s, a));
  }

  /** No wakeup is lost: with work queued, every dispatcher blocked on scheduleEvent_ is already notified. */
  lemma NoLostWakeup(dispatcherCount: nat, s: Pool, t: nat)
    requires dispatcherCount > 0 && Reachable(dispatcherCount, s) && t < |s.threads|
    ensures s.queue != [] && s.threads[t].Parked? ==> Enabled(s, Wake(t))
    ensures s.main == AwaitIdle(false) ==> s.sleeping < |s.threads|
    ensures s.main == AwaitDrained(false) ==> !Drained(s)
  {
    ReachableInv(dispatcherCount, s);
    SleepBounds(s);
  }

  /** `sleepingCount_` is exactly the number of parked and exited dispatchers, and its decrement never wraps. */
  lemma SleepAccounting(dispatcherCount: nat, s: Pool)
    requires dispatcherCount > 0 && Reachable(dispatcherCount, s)
    ensures s.sleeping == Total(s.threads, Asleep) && 0 <= s.sleeping <= |s.threads|
    ensures forall t :: 0 <= t < |s.threads| && s.threads[t].Parked? ==> s.sleeping > 0
    ensures s.sleeping == |s.threads| && !s.outsider ==> s.queue == []
  {
    ReachableInv(dispatcherCount, s);
    SleepBounds(s);
  }

  /**
   `stop` drains: in STOPPED every callback ever scheduled, whether before `start`, while running
   or by another callback while stopping, has been taken in FIFO order and completed exactly once.
   */
  lemma StopDrains(dispatcherCount: nat, s: Pool)
    requires dispatcherCount > 0 && Reachable(dispatcherCount, s) && s.phase == STOPPED
    ensures s.queue == [] && s.taken == s.submitted
    ensures forall t :: 0 <= t < |s.threads| ==> !s.threads[t].Executing?
    ensures forall k: nat :: k in s.finished <==> k < |s.submitted|
  {
    ReachableInv(dispatcherCount, s);
    SleepBounds(s);
    assert forall t :: 0 <= t < |s.threads| ==> Asleep(s.threads[t]) == 1;
    assert s.taken + s.queue == s.taken;
    assert forall t, k :: !Executes(s, t, k);
  }

  /**
   When `waitForIdle` returns, every dispatcher is parked or gone; the queue is empty as well
   exactly when no outside thread has scheduled since the last dispatcher went to sleep. The
   predicate the code waits for does not test the queue.
   */
  lemma WaitForIdleExact(dispatcherCount: nat, s: Pool, a: Action)
    requires dispatcherCount > 0 && Reachable(dispatcherCount, s)
    requires a in {BeginIdleWait, TestIdle} && Enabled(s, a) && Apply(s, a).main == Idle
    ensures forall t :: 0 <= t < |s.threads| ==> s.threads[t].Parked? || s.threads[t].Exited?
    ensures s.phase == RUNNING ==> forall t :: 0 <= t < |s.threads| ==> s.threads[t].Parked?
    ensures s.queue == [] <==> !s.intruder
    ensures !s.outsider ==> s.queue == []
  {
    ReachableInv(dispatcherCount, s);
    SleepBounds(s);
    assert forall t :: 0 <= t < |s.threads| ==> Asleep(s.threads[t]) == 1;
  }

  /** The failing family: an outside schedule while all sleep, then `waitForIdle` returns at once with work queued. */
  lemma IntruderDefeatsIdle(s: Pool, job: Job)
    requires Inv(s) && s.phase == RUNNING && s.main == Idle && s.sleeping == |s.threads|
    ensures Enabled(s, ScheduleOutside(job))
    ensures var s1 := Apply(s, ScheduleOutside(job));
            && Enabled(s1, BeginIdleWait)
            && Apply(s1, BeginIdleWait).main == Idle
            && Apply(s1, BeginIdleWait).queue != []
  {
  }
}
