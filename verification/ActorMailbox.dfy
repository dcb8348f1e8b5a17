/**
 `Actor` of `rapi_core/src/actor.cpp`: the mailbox and the flag that keeps at most one
 `consume` of an actor in the pool. Threads that schedule while a callback runs appear as a
 list of arrivals, one batch for each time the mutex is free.
 */
module ActorClass {
  import opened Options
  import opened DispatcherPool
  import opened PriorityClass
  import opened Runtime

  type CallBack = nat

  /** The callbacks a consumer runs, when `arrivals[k]` comes during the `k`th. */
  function RunOrder(queue: seq<CallBack>, arrivals: seq<seq<CallBack>>): seq<CallBack>
    decreases |arrivals|, |queue|
  {
    if queue == [] then []
    else if arrivals == [] then queue
    else [queue[0]] + RunOrder(queue[1..] + arrivals[0], arrivals[1..])
  }

  function Flat(batches: seq<seq<CallBack>>): seq<CallBack> {
    if batches == [] then [] else batches[0] + Flat(batches[1..])
  }

  /** Nothing lost, nothing twice, nothing overtaken: what waited, then the batches that came, each in order. */
  lemma {:induction false} RunOrderIsFifo(queue: seq<CallBack>, arrivals: seq<seq<CallBack>>) returns (k: nat)
    ensures k <= |arrivals| && RunOrder(queue, arrivals) == queue + Flat(arrivals[..k])
    ensures k == |arrivals| || k == |RunOrder(queue, arrivals)|
    decreases |arrivals|, |queue|
  {
    if queue == [] || arrivals == [] {
      k := 0;
      assert queue + Flat(arrivals[..0]) == queue;
    } else {
      var tail := queue[1..] + arrivals[0];
      var k' := RunOrderIsFifo(tail, arrivals[1..]);
      k := k' + 1;
      FlatStep(arrivals, k');
      Regroup(queue, arrivals[0], Flat(arrivals[1..][..k']));
    }
  }

  lemma FlatStep(batches: seq<seq<CallBack>>, k: nat)
    requires k < |batches|
    ensures Flat(batches[..k + 1]) == batches[0] + Flat(batches[1..][..k])
  {
    assert batches[..k + 1][1..] == batches[1..][..k];
  }

  lemma Regroup(queue: seq<CallBack>, batch: seq<CallBack>, rest: seq<CallBack>)
    requires queue != []
    ensures [queue[0]] + (queue[1..] + batch + rest) == queue + (batch + rest)
  {
  }

  class Actor {
    const id: ActorId
    const priority: Priority
    var constructing: bool
    var scheduled: bool
    var callBackQueue: seq<CallBack>
    var dtorBlocked: bool  // the destructor waits on constDestEvent_, un-notified
    var ran: seq<CallBack> // history

    /**
     Waiting callbacks imply the flag, and so does construction, which holds back the first token.
     A destructor that waits un-notified waits for a consumer that is still to come to its end.
     */
    ghost predicate Valid()
      reads this
    {
      (constructing ==> scheduled && !dtorBlocked) && (callBackQueue != [] || dtorBlocked ==> scheduled)
    }

    constructor (id: ActorId, priority: Priority)
      ensures Valid() && this.id == id && this.priority == priority
      ensures constructing && callBackQueue == [] && ran == []
    {
      this.id, this.priority := id, priority;
      constructing, scheduled, callBackQueue, dtorBlocked, ran := true, true, [], false, [];
    }

    predicate MayPush(who: Option<Tid>)
      reads priority
    {
      who.Some? ==> who.value < |priority.dispatchers| && priority.dispatchers[who.value].Executing?
    }

    method Push(who: Option<Tid>) returns (status: Status)
      requires priority.Valid() && MayPush(who)
      modifies priority
      ensures priority.Valid() && MayPush(who) && priority.state == old(priority.state)
      ensures status == Fatal(3) <==> old(priority.state) == STOPPED
      ensures old(priority.state) == STOPPED ==> priority.View() == old(priority.View())
      ensures old(priority.state) != STOPPED ==>
                status == Ok && priority.View() == Apply(old(priority.View()), PushAction(who, id))
    {
      status := priority.Schedule(id, who.Some?, if who.Some? then who.value else 0);
    }

    /** The pool hears of the actor only when the flag goes up; it never refuses a call from a callback. */
    method Schedule(callBack: CallBack, who: Option<Tid>) returns (status: Status)
      requires Valid() && priority.Valid() && MayPush(who)
      modifies this, priority
      ensures Valid() && priority.Valid() && MayPush(who) && scheduled && priority.state == old(priority.state)
      ensures callBackQueue == old(callBackQueue) + [callBack]
      ensures constructing == old(constructing) && dtorBlocked == old(dtorBlocked) && ran == old(ran)
      ensures status == Fatal(3) <==> !old(scheduled) && old(priority.state) == STOPPED
      ensures status == Ok <==> old(scheduled) || old(priority.state) != STOPPED
      ensures old(scheduled) ==> priority.View() == old(priority.View())
      ensures !old(scheduled) && status == Ok ==> priority.View() == Apply(old(priority.View()), PushAction(who, id))
    {
      callBackQueue := callBackQueue + [callBack];
      if !scheduled {
        scheduled := true;
        status := Push(who);
      } else {
        status := Ok;
      }
    }

    /** Callbacks that came during construction get their token now; without any the flag goes down. */
    method CtorFinished(who: Option<Tid>) returns (status: Status)
      requires Valid() && constructing && priority.Valid() && MayPush(who)
      modifies this, priority
      ensures priority.Valid() && !constructing
      ensures callBackQueue == old(callBackQueue) && ran == old(ran)
      ensures Valid() && (scheduled <==> callBackQueue != [])
      ensures status == Fatal(3) <==> callBackQueue != [] && old(priority.state) == STOPPED
      ensures callBackQueue == [] ==> priority.View() == old(priority.View())
      ensures callBackQueue != [] && status == Ok ==> priority.View() == Apply(old(priority.View()), PushAction(who, id))
    {
      constructing := false;
      status := Ok;
      if callBackQueue != [] {
        status := Push(who);
      } else {
        scheduled := false;
      }
    }

    /**
     Runs callbacks until none waits; only then does the flag go down, and a waiting destructor is
     notified, in the same critical section.
     */
    method Consume(arrivals: seq<seq<CallBack>>)
      requires Valid() && scheduled && !constructing
      modifies this
      ensures Valid() && !scheduled && !constructing && callBackQueue == [] && !dtorBlocked
      ensures ran == old(ran) + RunOrder(old(callBackQueue), arrivals)
    {
      var rest := arrivals;
      while callBackQueue != []
        invariant scheduled && !constructing
        invariant ran + RunOrder(callBackQueue, rest) == old(ran) + RunOrder(old(callBackQueue), arrivals)
        decreases |rest|, |callBackQueue|
      {
        ghost var queue, before := callBackQueue, ran;
        var callBack := callBackQueue[0];
        callBackQueue := callBackQueue[1..];
        ran := ran + [callBack];
        if rest != [] { // the mutex is free while the callback runs
          callBackQueue, rest := callBackQueue + rest[0], rest[1..];
        } else {
          assert RunOrder(callBackQueue, []) == callBackQueue;
          assert queue == [callBack] + callBackQueue;
        }
      }
      scheduled, dtorBlocked := false, false;
    }

    /** The destructor, on entry and after each notification: it goes on, or waits for the end of a consumer. */
    method WaitForReadyToDtor() returns (ready: bool)
      requires Valid() && !constructing
      modifies this`dtorBlocked
      ensures Valid() && (ready <==> !scheduled) && (dtorBlocked <==> !ready)
      ensures ready ==> callBackQueue == []
    {
      ready := !scheduled;
      dtorBlocked := !ready;
    }
  }
}
