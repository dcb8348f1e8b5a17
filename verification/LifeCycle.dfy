/**
 The start and stop wave over the actor tree: `Actor::newChild`, `ActorLifeCycle`, `Core::init`.

 Requests go from parent to children, confirmations back; one counter per actor serves both
 waves. Messages in flight may be delivered in any order, which covers every interleaving of
 the runtime's queues. A handler and what it publishes are one step here; `LifeCyclePorts` cuts
 it at each publication. Every actor type occurs once, so a message is addressed by its actor.
 Actor 0 is the root and every other actor has a smaller parent.
 */
module LifeCycle {
  import opened Chains

  type ActorId = nat

  datatype Wave = StartWave | StopWave

  datatype ActorState = CTOR_FINISHED | STARTED | STOPPED

  datatype Msg =
    | Req(wave: Wave, to: ActorId)       // StartReq<to>, StopReq<to>
    | PrivCnf(wave: Wave, from: ActorId) // PrivStartCnf<from>, PrivStopCnf<from>
    | PubCnf(wave: Wave, from: ActorId)  // StartCnf<from>, StopCnf<from>
    | Stop

  /** How far an actor has come; history. Four stages in each wave. */
  type Stage = nat

  // Before the first wave, and after the second.
  const DORMANT: Stage := 0
  const DOWN: Stage := 8

  function Base(wave: Wave): nat { if wave.StartWave? then 0 else 4 }

  // Its request is in flight.
  function Asked(wave: Wave): Stage { Base(wave) + 1 }

  // It has forwarded the request and waits for its children.
  function Waiting(wave: Wave): Stage { Base(wave) + 2 }

  // Its private confirmation is in flight.
  function Told(wave: Wave): Stage { Base(wave) + 3 }

  // Its parent has counted the confirmation.
  function Counted(wave: Wave): Stage { Base(wave) + 4 }

  /** `startRuns` and `stopRuns` count how often the actor's own start and stop callbacks were run; `stage` is history. */
  datatype Node = Node(state: ActorState, cnfCount: nat, startRuns: nat, stopRuns: nat, stage: Stage)

  datatype System = System(
    parent: seq<ActorId>,
    nodes: seq<Node>,
    flight: multiset<Msg>,
    running: bool,     // Core::running_
    stops: nat         // how often Stop was published
  )

  // ----- the tree -----

  predicate IsTree(parent: seq<ActorId>) {
    |parent| > 0 && forall i :: 0 < i < |parent| ==> parent[i] < i
  }

  /** The children of `i` among the first `n` actors. */
  function KidsBelow(parent: seq<ActorId>, i: ActorId, n: nat): seq<ActorId>
    requires n <= |parent|
  {
    if n == 0 then []
    else KidsBelow(parent, i, n - 1) + (if n - 1 > 0 && parent[n - 1] == i then [n - 1] else [])
  }

  function Kids(parent: seq<ActorId>, i: ActorId): seq<ActorId> { KidsBelow(parent, i, |parent|) }

  predicate Descends(parent: seq<ActorId>, d: ActorId, a: ActorId)
    requires IsTree(parent) && d < |parent|
  {
    d == a || (d > 0 && Descends(parent, parent[d], a))
  }

  // ----- the handlers -----

  /** What a handler does to its actor, and what it publishes, in order. */
  datatype Reaction = Reaction(node: Node, out: seq<Msg>)

  function Requests(wave: Wave, kids: seq<ActorId>): (r: seq<Msg>)
    ensures |r| == |kids| && forall m :: 0 <= m < |r| ==> r[m] == Req(wave, kids[m])
  {
    seq(|kids|, m requires 0 <= m < |kids| => Req(wave, kids[m]))
  }

  /** The actor has completed the wave. Nobody listens to the root's PrivStartCnf, so the root counts at once. */
  function Complete(wave: Wave, i: ActorId, node: Node): Reaction {
    var done :=
      if wave.StartWave? then
        node.(state := STARTED, startRuns := node.startRuns + 1, stage := if i == 0 then Counted(wave) else Told(wave))
      else
        node.(state := STOPPED, stopRuns := node.stopRuns + 1, stage := Told(wave));
    Reaction(done, [PubCnf(wave, i), PrivCnf(wave, i)])
  }

  function OnReq(wave: Wave, i: ActorId, kids: seq<ActorId>, node: Node): Reaction {
    if kids == [] then Complete(wave, i, node)
    else Reaction(node.(stage := Waiting(wave)), Requests(wave, kids))
  }

  function OnCnf(wave: Wave, i: ActorId, kids: seq<ActorId>, node: Node): Reaction {
    if node.cnfCount + 1 == |kids| then Complete(wave, i, node.(cnfCount := 0))
    else Reaction(node.(cnfCount := node.cnfCount + 1), [])
  }

  /**
   The state in which a handler that completes the wave runs the actor's callbacks: a leaf sets
   STOPPED only after its stop callbacks, everybody else sets the new state before.
   */
  function CallBackState(wave: Wave, kids: seq<ActorId>, node: Node): ActorState {
    if wave.StartWave? then STARTED else if kids == [] then node.state else STOPPED
  }

  /** `Actor::publish` refuses these messages outside STARTED. */
  predicate PublishAllowed(state: ActorState, msg: Msg) {
    (msg.PubCnf? && msg.wave.StartWave?) || msg.Stop? ==> state == STARTED
  }

  // ----- the system -----

  // Messages somebody in the protocol listens to.
  predicate Heard(msg: Msg) { !msg.PubCnf? && msg != PrivCnf(StartWave, 0) }

  function HeardOf(out: seq<Msg>): multiset<Msg> {
    if out == [] then multiset{}
    else (if Heard(out[0]) then multiset{out[0]} else multiset{}) + HeardOf(out[1..])
  }

  function Created(parent: seq<ActorId>): System
    requires IsTree(parent)
  {
    System(parent,
           seq(|parent|, i => Node(CTOR_FINISHED, 0, 0, 0, if i == 0 then Asked(StartWave) else DORMANT)),
           multiset{Req(StartWave, 0)}, true, 0)
  }

  // The actor on whose port a message is handled.
  function Receiver(parent: seq<ActorId>, msg: Msg): ActorId {
    match msg
    case Req(_, i) => i
    case PrivCnf(_, j) => if 0 < j < |parent| then parent[j] else 0
    case _ => 0
  }

  predicate Deliverable(s: System, msg: Msg) {
    && msg in s.flight && |s.nodes| == |s.parent| && IsTree(s.parent)
    && Receiver(s.parent, msg) < |s.nodes|
    && (msg.PrivCnf? ==> msg.from < |s.nodes|)
  }

  // History: whoever was asked, or counted, moves to `stage`.
  function Mark(nodes: seq<Node>, who: seq<ActorId>, stage: Stage): (r: seq<Node>)
    ensures |r| == |nodes|
    ensures forall j :: 0 <= j < |r| ==> r[j] == if j in who then nodes[j].(stage := stage) else nodes[j]
  {
    seq(|nodes|, j requires 0 <= j < |nodes| => if j in who then nodes[j].(stage := stage) else nodes[j])
  }

  function Put(s: System, msg: Msg, i: ActorId, reaction: Reaction, who: seq<ActorId>, stage: Stage): System
    requires i < |s.nodes|
  {
    s.(nodes := Mark(s.nodes[i := reaction.node], who, stage),
       flight := s.flight - multiset{msg} + HeardOf(reaction.out))
  }

  function Deliver(s: System, msg: Msg): System
    requires Deliverable(s, msg)
  {
    var i := Receiver(s.parent, msg);
    var kids, node := Kids(s.parent, i), s.nodes[i];
    match msg
    case Req(wave, _) => Put(s, msg, i, OnReq(wave, i, kids, node), kids, Asked(wave))
    case PrivCnf(wave, j) =>
      if j == 0 then // Core's listener for the root's PrivStopCnf
        Put(s, msg, 0, Reaction(node, []), [0], DOWN).(running := false)
      else
        Put(s, msg, i, OnCnf(wave, i, kids, node), [j], Counted(wave))
    case _ => // Core's listener for Stop
      Put(s, msg, 0, Reaction(node, [Req(StopWave, 0)]), [0], Asked(StopWave))
  }

  datatype Step = Handle(msg: Msg) | PublishStop(publisher: ActorId)

  predicate Possible(s: System, step: Step) {
    match step
    case Handle(msg) => Deliverable(s, msg)
    case PublishStop(i) => i < |s.nodes| && PublishAllowed(s.nodes[i].state, Stop)
  }

  function Do(s: System, step: Step): System
    requires Possible(s, step)
  {
    match step
    case Handle(msg) => Deliver(s, msg)
    case PublishStop(_) => s.(flight := s.flight + multiset{Stop}, stops := s.stops + 1)
  }

  /** The supported use: `Stop` is published once, by whatever actor, and not before the root is STARTED. */
  predicate Supported(s: System, step: Step) {
    step.PublishStop? ==> s.stops == 0 && |s.nodes| > 0 && s.nodes[0].state == STARTED
  }

  ghost predicate Next(s: System, step: Step, s': System) { Possible(s, step) && s' == Do(s, step) }

  ghost predicate NextSupported(s: System, step: Step, s': System) { Supported(s, step) && Next(s, step, s') }

  ghost predicate IsRun(states: seq<System>, steps: seq<Step>) { IsChain(Next, states, steps) }

  ghost predicate IsSupportedRun(states: seq<System>, steps: seq<Step>) { IsChain(NextSupported, states, steps) }
}
