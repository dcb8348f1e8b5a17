/**
 `Priority` of `rapi_core/src/priority.cpp`: its fields, and one method for each critical
 section and notification of its member functions. Every method does exactly what the pool's
 step system says of the corresponding action, so it keeps the pool's invariant.
 */
module PriorityClass {
  import opened DispatcherPool
  import opened DispatcherPoolSafety

  // A call either goes on or ends in the error callback, which does not return.
  datatype Status = Ok | Fatal(code: int)

  class Priority {
    var state: Phase
    var actorQueue: seq<Job>
    var sleepingCount: int
    var startCount: int
    var dispatchers: seq<Dispatcher>  // the program point of each thread
    var controller: Controller        // the program point of start, waitForIdle and stop
    // history: written here, read by no decision
    var submitted: seq<Job>
    var taken: seq<Job>
    var finished: set<nat>
    var intruder: bool
    var outsider: bool

    ghost function View(): Pool
      reads this
    {
      Pool(state, actorQueue, sleepingCount, startCount, dispatchers, controller,
           submitted, taken, finished, intruder, outsider)
    }

    ghost predicate Valid()
      reads this
    {
      Inv(View())
    }

    constructor (dispatcherCount: nat)
      requires dispatcherCount > 0
      ensures Valid() && View() == Created(dispatcherCount)
    {
      state, actorQueue, sleepingCount, startCount := START, [], 0, dispatcherCount;
      controller := Idle;
      submitted, taken, finished, intruder, outsider := [], [], {}, false, false;
      var threads: seq<Dispatcher> := [];
      for count := 0 to dispatcherCount
        invariant threads == seq(count, _ => Fresh)
      {
        threads := threads + [Fresh];
      }
      dispatchers := threads;
      new;
      InvAtStart(dispatcherCount);
    }

    // ----- dispatcherLoop -----

    method PassGate(t: nat)
      requires Valid() && Enabled(View(), Gate(t))
      modifies this
      ensures Valid() && View() == Apply(old(View()), Gate(t))
    {
      InvKept(View(), Gate(t));
      if state != RUNNING {
        dispatchers := dispatchers[t := AwaitStart(false)];
      } else {
        dispatchers := dispatchers[t := Gated];
      }
    }

    method ReportStarted(t: nat)
      requires Valid() && Enabled(View(), CountDown(t))
      modifies this
      ensures Valid() && View() == Apply(old(View()), CountDown(t))
    {
      InvKept(View(), CountDown(t));
      startCount := startCount - 1;
      dispatchers := dispatchers[t := Counted];
    }

    method AnnounceStarted(t: nat)
      requires Valid() && Enabled(View(), Announce(t))
      modifies this
      ensures Valid() && View() == Apply(old(View()), Announce(t))
    {
      InvKept(View(), Announce(t));
      controller := SignalStarted(controller);
      dispatchers := dispatchers[t := AtLoop];
    }

    /** Thread `t` has taken the front of the queue and runs it. */
    predicate Took(t: nat, queue: seq<Job>, threads: seq<Dispatcher>, handedOut: seq<Job>)
      reads this
    {
      && queue != [] && t < |threads|
      && actorQueue == queue[1..] && taken == handedOut + [queue[0]]
      && dispatchers == threads[t := Executing(queue[0], |handedOut|)]
    }

    // Lines 43-69 with the lock held: test the loop condition, then take, park or leave.
    method IterateOrLeave(t: nat)
      requires t < |dispatchers|
      modifies this
      ensures View() == LoopTop(old(View()), t)
    {
      if state == RUNNING || actorQueue != [] {
        if actorQueue == [] {
          sleepingCount := sleepingCount + 1;
          if sleepingCount == |dispatchers| {
            controller := SignalIdle(controller);
          }
          dispatchers := dispatchers[t := Parked(false)];
        } else {
          var callBack := actorQueue[0];
          actorQueue := actorQueue[1..];
          dispatchers := dispatchers[t := Executing(callBack, |taken|)];
          taken := taken + [callBack];
        }
      } else {
        sleepingCount := sleepingCount + 1;
        controller := SignalStarted(controller);
        dispatchers := dispatchers[t := Exited];
      }
    }

    method RunLoop(t: nat)
      requires Valid() && Enabled(View(), Loop(t))
      modifies this
      ensures Valid() && View() == Apply(old(View()), Loop(t))
      ensures state == old(state)
      ensures old(actorQueue) != [] ==> Took(t, old(actorQueue), old(dispatchers), old(taken)) && sleepingCount == old(sleepingCount)
      ensures old(actorQueue) == [] ==>
                && actorQueue == [] && taken == old(taken) && sleepingCount == old(sleepingCount) + 1
                && dispatchers == old(dispatchers)[t := if old(state) == RUNNING then Parked(false) else Exited]
    {
      InvKept(View(), Loop(t));
      IterateOrLeave(t);
    }

    /** A notified sleeper: block again while the predicate is false, else go on with the loop. */
    method ResumeLoop(t: nat)
      requires Valid() && Enabled(View(), Wake(t))
      modifies this
      ensures Valid() && View() == Apply(old(View()), Wake(t))
      ensures state == old(state)
      ensures old(actorQueue) != [] ==> Took(t, old(actorQueue), old(dispatchers), old(taken)) && sleepingCount == old(sleepingCount) - 1
      ensures old(actorQueue) == [] ==>
                && actorQueue == [] && taken == old(taken) && sleepingCount == old(sleepingCount)
                && dispatchers == old(dispatchers)[t := if old(state) == RUNNING then Parked(false) else Exited]
    {
      InvKept(View(), Wake(t));
      if actorQueue == [] && state == RUNNING {
        dispatchers := dispatchers[t := Parked(false)];
      } else {
        sleepingCount := sleepingCount - 1;
        intruder := false;
        IterateOrLeave(t);
      }
    }

    method CallBackReturns(t: nat)
      requires Valid() && Enabled(View(), Return(t))
      modifies this
      ensures Valid() && View() == Apply(old(View()), Return(t))
    {
      InvKept(View(), Return(t));
      finished := finished + {dispatchers[t].ticket};
      dispatchers := dispatchers[t := AtLoop];
    }

    // ----- schedule -----

    /** `t` is the thread whose callback calls, when `inside`; otherwise the caller is a thread outside the pool. */
    method Schedule(job: Job, inside: bool, t: nat) returns (status: Status)
      requires Valid() && (inside ==> t < |dispatchers| && dispatchers[t].Executing?)
      modifies this
      ensures Valid()
      ensures old(state) == STOPPED <==> status == Fatal(3)
      ensures old(state) == STOPPED ==> View() == old(View())
      ensures old(state) != STOPPED ==>
                status == Ok &&
                View() == Apply(old(View()), if inside then ScheduleInside(t, job) else ScheduleOutside(job))
      ensures actorQueue == old(actorQueue) + (if old(state) == STOPPED then [] else [job])
      ensures inside ==> status == Ok
    {
      if state == STOPPED {
        SleepBounds(View());
        return Fatal(3);
      }
      InvKept(View(), if inside then ScheduleInside(t, job) else ScheduleOutside(job));
      if !inside {
        intruder := intruder || sleepingCount == |dispatchers|;
        outsider := outsider || state != START;
      }
      Enqueue(job);
      return Ok;
    }

    // Only the first callback in the queue wakes the dispatchers.
    method Enqueue(job: Job)
      modifies this`actorQueue, this`submitted, this`dispatchers
      ensures View() == Push(old(View()), job)
    {
      actorQueue := actorQueue + [job];
      submitted := submitted + [job];
      if |actorQueue| == 1 {
        dispatchers := AllWoken(dispatchers);
      }
    }

    // ----- start, waitForIdle, stop -----

    method Start() returns (status: Status)
      requires Valid() && controller == Idle
      modifies this
      ensures Valid()
      ensures old(state) != START ==> status == Fatal(4) && View() == old(View())
      ensures old(state) == START ==> status == Ok && View() == Apply(old(View()), BeginStart)
    {
      if state != START {
        return Fatal(4);
      }
      InvKept(View(), BeginStart);
      state := RUNNING;
      controller := StartSignal;
      return Ok;
    }

    method NotifyStart()
      requires Valid() && controller == StartSignal
      modifies this
      ensures Valid() && View() == Apply(old(View()), SignalStart)
    {
      InvKept(View(), SignalStart);
      dispatchers := AllStarted(dispatchers);
      controller := AwaitStarted(true);
    }

    method TestAllStarted() returns (done: bool)
      requires Valid() && controller == AwaitStarted(true)
      modifies this
      ensures Valid() && View() == Apply(old(View()), TestStarted)
      ensures done <==> forall t :: 0 <= t < |dispatchers| ==> Unstarted(dispatchers[t]) == 0
    {
      InvKept(View(), TestStarted);
      SleepBounds(View());
      done := startCount == 0;
      controller := if done then Idle else AwaitStarted(false);
    }

    method WaitForIdle() returns (idle: bool)
      requires Valid() && (controller == Idle || controller == AwaitIdle(true))
      modifies this
      ensures Valid()
      ensures View() == Apply(old(View()), if old(controller) == Idle then BeginIdleWait else TestIdle)
      ensures idle <==> forall t :: 0 <= t < |dispatchers| ==> Asleep(dispatchers[t]) == 1
      ensures controller == if idle then Idle else AwaitIdle(false)
    {
      InvKept(View(), if controller == Idle then BeginIdleWait else TestIdle);
      SleepBounds(View());
      if controller == Idle && actorQueue == [] && sleepingCount == |dispatchers| {
        return true;
      }
      idle := sleepingCount == |dispatchers|;
      controller := if idle then Idle else AwaitIdle(false);
    }

    /** From the lock to STOPPED or to blocking; `resumed` when called again after a wakeup. */
    method Stop(resumed: bool) returns (status: Status)
      requires Valid() && controller == (if resumed then AwaitDrained(true) else Idle)
      modifies this
      ensures Valid()
      ensures !resumed && old(state) != RUNNING ==> status == Fatal(2) && View() == old(View())
      ensures resumed || old(state) == RUNNING ==>
                status == Ok && View() == Apply(old(View()), if resumed then TestDrained else BeginStop)
    {
      if !resumed && state != RUNNING {
        return Fatal(2);
      }
      InvKept(View(), if resumed then TestDrained else BeginStop);
      state := STOPPING;
      if actorQueue != [] || sleepingCount != |dispatchers| {
        controller := AwaitDrained(false);
      } else {
        state := STOPPED;
        controller := StopSignal;
      }
      return Ok;
    }

    method NotifyStopped()
      requires Valid() && controller == StopSignal
      modifies this
      ensures Valid() && View() == Apply(old(View()), SignalStopped)
    {
      InvKept(View(), SignalStopped);
      dispatchers := AllWoken(dispatchers);
      controller := Idle;
    }
  }
}
