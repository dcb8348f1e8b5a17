/**
 `Core` of `rapi_core/src/core.cpp`: `run` cut at the points where it blocks, and the two
 listeners that `init` installs on the root. Between two methods any other thread may run.
 */
module CoreClass {
  import opened DispatcherPool
  import opened DispatcherPoolSafety
  import opened PriorityClass
  import L = LifeCycle

  datatype RunStep =
    | NotRun
    | Starting      // inside Priority::start, or on the way to waitForIdle
    | Idling        // blocked in waitForIdle
    | AwaitingStop  // StartReq is sent
    | Stopping      // inside Priority::stop
    | Returned

  class Core {
    const priority: Priority
    var running: bool
    var stopMutexHeld: bool   // by run(), from the end of its stop wait on
    var step: RunStep
    var published: seq<L.Msg> // history: what Core itself publishes

    ghost predicate Valid()
      reads this, priority
    {
      && priority.Valid()
      && (!step.NotRun? ==> priority.state != START)
      && (step.NotRun? || step.Starting? || step.Idling? ==> L.Req(L.StartWave, 0) !in published)
      && (stopMutexHeld <==> step.Stopping?)
      && (step.Stopping? || step.Returned? ==> !running)
    }

    constructor (priority: Priority)
      requires priority.Valid()
      ensures Valid() && this.priority == priority && step == NotRun && !running && published == []
    {
      this.priority, running, stopMutexHeld, step, published := priority, false, false, NotRun, [];
    }

    /** A second `run` ends in the error callback. */
    method Run() returns (status: Status)
      requires Valid() && priority.controller == Idle
      modifies this, priority
      ensures published == old(published) && stopMutexHeld == old(stopMutexHeld)
      ensures status == Ok <==> old(priority.state) == START
      ensures old(step) != NotRun ==> status == Fatal(4)
      ensures status == Ok ==>
                Valid() && running && step == Starting && priority.View() == Apply(old(priority.View()), BeginStart)
      ensures status != Ok ==> status == Fatal(4) && priority.View() == old(priority.View()) && step == old(step)
    {
      running := true;
      status := priority.Start();
      if status == Ok {
        step := Starting;
      }
    }

    /** The root's StartReq goes out only at a moment when every dispatcher is asleep, and only once. */
    method PassIdle() returns (sent: bool)
      requires Valid()
      requires (step == Starting && priority.controller == Idle) || (step == Idling && priority.controller == AwaitIdle(true))
      modifies this, priority
      ensures Valid() && running == old(running)
      ensures sent <==> forall t :: 0 <= t < |priority.dispatchers| ==> Asleep(priority.dispatchers[t]) == 1
      ensures published == old(published) + (if sent then [L.Req(L.StartWave, 0)] else [])
      ensures step == if sent then AwaitingStop else Idling
      ensures priority.View()
              == Apply(old(priority.View()), if old(priority.controller) == Idle then BeginIdleWait else TestIdle)
    {
      sent := priority.WaitForIdle();
      step := Idling;
      if sent {
        published, step := published + [L.Req(L.StartWave, 0)], AwaitingStop;
      }
    }

    /** The pool is told to stop only after the root's PrivStopCnf was heard, and with stopMutex_ held. */
    method PassStopWait() returns (status: Status)
      requires Valid() && step == AwaitingStop && priority.controller == Idle
      modifies this, priority
      ensures Valid() && running == old(running) && published == old(published)
      ensures running ==> status == Ok && step == AwaitingStop && !stopMutexHeld && priority.View() == old(priority.View())
      ensures !running ==> step == Stopping && stopMutexHeld && (status == Ok <==> old(priority.state) == RUNNING)
      ensures !running && status == Ok ==> priority.View() == Apply(old(priority.View()), BeginStop)
    {
      if running {
        return Ok;
      }
      stopMutexHeld, step := true, Stopping;
      status := priority.Stop(false);
    }

    /** `run` returns, and releases stopMutex_, over a pool that has nothing queued and nothing executing. */
    method Return()
      requires Valid() && step == Stopping && priority.state == STOPPED && priority.controller == Idle
      modifies this
      ensures Valid() && step == Returned && !stopMutexHeld && running == old(running) && published == old(published)
      ensures priority.actorQueue == []
      ensures forall t :: 0 <= t < |priority.dispatchers| ==> !priority.dispatchers[t].Executing?
    {
      SleepBounds(priority.View());
      stopMutexHeld, step := false, Returned;
    }

    // ----- the listeners -----

    /** Adds to what is in flight exactly what `Deliver` says for `Stop`. */
    method OnStop()
      requires Valid()
      modifies this`published
      ensures Valid() && old(published) <= published
      ensures forall s: L.System :: L.Deliverable(s, L.Stop) ==>
                L.Deliver(s, L.Stop).flight == s.flight - multiset{L.Stop} + L.HeardOf(published[|old(published)|..])
    {
      published := published + [L.Req(L.StopWave, 0)];
      assert published[|old(published)|..] == [L.Req(L.StopWave, 0)];
    }

    /**
     Ends the stop wait as `Deliver` says for the root's PrivStopCnf, unless `run` has stopMutex_:
     then the dispatcher is blocked in here as long as `run` drains the pool.
     */
    method OnRootStopCnf() returns (done: bool)
      requires Valid()
      modifies this`running
      ensures Valid() && (done <==> !step.Stopping?)
      ensures done ==>
                forall s: L.System :: L.Deliverable(s, L.PrivCnf(L.StopWave, 0)) ==>
                  L.Deliver(s, L.PrivCnf(L.StopWave, 0)).running == running
      ensures !done ==> running == old(running)
    {
      done := !stopMutexHeld;
      if done {
        running := false;
      }
    }
  }
}
