/**
 The life cycle of one actor as a class: the handlers that `ActorLifeCycle`'s constructor and
 `Actor::newChild` install, with `Actor::publish` and its guard. `LifeCycle` says what each does
 to the actor and what it publishes; here the loops do it, and the trace shows the order.
 */
module LifeCycleClass {
  import opened LifeCycle
  import opened PriorityClass

  type CallBack = nat

  /** A callback that ran, with the state the actor was in, or a message handed to the network. */
  datatype Effect = Ran(callBack: CallBack, state: ActorState) | Sent(msg: Msg)

  function Runs(callBacks: seq<CallBack>, state: ActorState): (r: seq<Effect>)
    ensures |r| == |callBacks| && forall i :: 0 <= i < |r| ==> r[i] == Ran(callBacks[i], state)
  {
    seq(|callBacks|, i requires 0 <= i < |callBacks| => Ran(callBacks[i], state))
  }

  function Sends(out: seq<Msg>): (r: seq<Effect>)
    ensures |r| == |out| && forall i :: 0 <= i < |r| ==> r[i] == Sent(out[i])
  {
    seq(|out|, i requires 0 <= i < |out| => Sent(out[i]))
  }

  function Confirmations(wave: Wave, i: ActorId): seq<Msg> { [PubCnf(wave, i), PrivCnf(wave, i)] }

  /** The public confirmation, then the private one. */
  function Confirmed(wave: Wave, i: ActorId): seq<Effect> { [Sent(PubCnf(wave, i)), Sent(PrivCnf(wave, i))] }

  /** Each child was asked once, in order, and nothing else was done. */
  predicate AskedEach(before: seq<Effect>, after: seq<Effect>, wave: Wave, children: seq<ActorId>) {
    && |after| == |before| + |children| && after[..|before|] == before
    && forall k :: 0 <= k < |children| ==> after[|before| + k] == Sent(Req(wave, children[k]))
  }

  class LifeCycleActor {
    const id: ActorId
    const children: seq<ActorId>
    const publicStartCallbackList: seq<CallBack>
    const publicStopCallbackList: seq<CallBack>
    var state: ActorState
    var childrenCnfCount: nat
    // history
    var startRuns: nat
    var stopRuns: nat
    var stage: Stage
    var trace: seq<Effect>

    ghost function View(): Node
      reads this
    {
      Node(state, childrenCnfCount, startRuns, stopRuns, stage)
    }

    constructor (id: ActorId, children: seq<ActorId>, onStarted: seq<CallBack>, onStopped: seq<CallBack>, stage: Stage)
      ensures View() == Node(CTOR_FINISHED, 0, 0, 0, stage) && trace == []
      ensures this.id == id && this.children == children
      ensures publicStartCallbackList == onStarted && publicStopCallbackList == onStopped
    {
      this.id, this.children, publicStartCallbackList, publicStopCallbackList := id, children, onStarted, onStopped;
      state, childrenCnfCount, startRuns, stopRuns, this.stage, trace := CTOR_FINISHED, 0, 0, 0, stage, [];
    }

    /** Error 5 is for `Stop` and the public start confirmations, and only outside STARTED. */
    method Publish(msg: Msg) returns (status: Status)
      modifies this`trace
      ensures status == Fatal(5) <==> state != STARTED && (msg == Stop || (msg.PubCnf? && msg.wave == StartWave))
      ensures status == Ok <==> PublishAllowed(state, msg)
      ensures status == Ok ==> trace == old(trace) + [Sent(msg)]
      ensures status != Ok ==> status == Fatal(5) && trace == old(trace)
    {
      if state != STARTED && ((msg.PubCnf? && msg.wave.StartWave?) || msg.Stop?) {
        return Fatal(5);
      }
      trace := trace + [Sent(msg)];
      return Ok;
    }

    method ForwardToChildren(wave: Wave)
      modifies this`trace
      ensures trace == old(trace) + Sends(Requests(wave, children))
    {
      var requests := Requests(wave, children);
      for i := 0 to |children|
        invariant trace == old(trace) + Sends(requests[..i])
      {
        var status := Publish(Req(wave, children[i]));
        assert Sends(requests[..i + 1]) == Sends(requests[..i]) + [Sent(requests[i])];
      }
      assert requests[..|children|] == requests;
    }

    method RunCallBacks(callBacks: seq<CallBack>)
      modifies this`trace
      ensures trace == old(trace) + Runs(callBacks, state)
    {
      for i := 0 to |callBacks|
        invariant trace == old(trace) + Runs(callBacks[..i], state)
      {
        trace := trace + [Ran(callBacks[i], state)];
        assert Runs(callBacks[..i + 1], state) == Runs(callBacks[..i], state) + [Ran(callBacks[i], state)];
      }
      assert callBacks[..|callBacks|] == callBacks;
    }

    /** The public confirmation first; the guard lets it pass. */
    method PublishCnf(wave: Wave)
      requires wave.StartWave? ==> state == STARTED
      modifies this`trace
      ensures trace == old(trace) + Sends(Confirmations(wave, id)) && Sends(Confirmations(wave, id)) == Confirmed(wave, id)
    {
      assert Sends(Confirmations(wave, id)) == Confirmed(wave, id);
      var status := Publish(PubCnf(wave, id));
      status := Publish(PrivCnf(wave, id));
    }

    /** STARTED comes before the start callbacks, which may therefore publish. */
    method CompleteStart()
      modifies this
      ensures View() == Complete(StartWave, id, old(View())).node
      ensures trace == old(trace) + Runs(publicStartCallbackList, STARTED) + Sends(Complete(StartWave, id, old(View())).out)
    {
      state := STARTED;
      RunCallBacks(publicStartCallbackList);
      startRuns, stage := startRuns + 1, if id == 0 then Counted(StartWave) else Told(StartWave);
      PublishCnf(StartWave);
    }

    method OnStartReq()
      modifies this
      ensures View() == OnReq(StartWave, id, children, old(View())).node
      ensures trace == old(trace) + (if children == [] then Runs(publicStartCallbackList, CallBackState(StartWave, children, old(View()))) else [])
                       + Sends(OnReq(StartWave, id, children, old(View())).out)
      ensures children == [] ==>
                state == STARTED && trace == old(trace) + Runs(publicStartCallbackList, STARTED) + Confirmed(StartWave, id)
      ensures children != [] ==> state == old(state) && AskedEach(old(trace), trace, StartWave, children)
      ensures childrenCnfCount == old(childrenCnfCount)
    {
      ForwardToChildren(StartWave);
      if children == [] {
        assert trace == old(trace);
        CompleteStart();
      } else {
        stage := Waiting(StartWave);
      }
    }

    /** A leaf runs its stop callbacks in the state it had: they may still publish. */
    method OnStopReq()
      modifies this
      ensures View() == OnReq(StopWave, id, children, old(View())).node
      ensures trace == old(trace) + (if children == [] then Runs(publicStopCallbackList, CallBackState(StopWave, children, old(View()))) else [])
                       + Sends(OnReq(StopWave, id, children, old(View())).out)
      ensures children == [] ==>
                state == STOPPED && trace == old(trace) + Runs(publicStopCallbackList, old(state)) + Confirmed(StopWave, id)
      ensures children != [] ==> state == old(state) && AskedEach(old(trace), trace, StopWave, children)
      ensures childrenCnfCount == old(childrenCnfCount)
    {
      ForwardToChildren(StopWave);
      if children == [] {
        assert trace == old(trace);
        RunCallBacks(publicStopCallbackList);
        state := STOPPED;
        stopRuns, stage := stopRuns + 1, Told(StopWave);
        PublishCnf(StopWave);
      } else {
        stage := Waiting(StopWave);
      }
    }

    method OnStartCnf()
      modifies this
      ensures View() == OnCnf(StartWave, id, children, old(View())).node
      ensures trace == old(trace)
                       + (if old(childrenCnfCount) + 1 == |children|
                          then Runs(publicStartCallbackList, CallBackState(StartWave, children, old(View()))) else [])
                       + Sends(OnCnf(StartWave, id, children, old(View())).out)
      ensures if old(childrenCnfCount) + 1 == |children| then
                childrenCnfCount == 0 && state == STARTED
                && trace == old(trace) + Runs(publicStartCallbackList, STARTED) + Confirmed(StartWave, id)
              else
                childrenCnfCount == old(childrenCnfCount) + 1 && state == old(state) && trace == old(trace)
    {
      childrenCnfCount := childrenCnfCount + 1;
      if childrenCnfCount == |children| {
        childrenCnfCount := 0;
        CompleteStart();
      }
    }

    /** An inner actor is STOPPED before its stop callbacks run: what they publish is refused. */
    method OnStopCnf()
      modifies this
      ensures View() == OnCnf(StopWave, id, children, old(View())).node
      ensures trace == old(trace)
                       + (if old(childrenCnfCount) + 1 == |children|
                          then Runs(publicStopCallbackList, CallBackState(StopWave, children, old(View()))) else [])
                       + Sends(OnCnf(StopWave, id, children, old(View())).out)
      ensures if old(childrenCnfCount) + 1 == |children| then
                childrenCnfCount == 0 && state == STOPPED
                && trace == old(trace) + Runs(publicStopCallbackList, STOPPED) + Confirmed(StopWave, id)
              else
                childrenCnfCount == old(childrenCnfCount) + 1 && state == old(state) && trace == old(trace)
    {
      childrenCnfCount := childrenCnfCount + 1;
      if childrenCnfCount == |children| {
        childrenCnfCount := 0;
        state := STOPPED;
        RunCallBacks(publicStopCallbackList);
        stopRuns, stage := stopRuns + 1, Told(StopWave);
        PublishCnf(StopWave);
      }
    }
  }
}
