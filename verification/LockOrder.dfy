/**
 The mutexes of the runtime and the order in which its code nests them, for any number of
 threads, actors and ports: no cycle of threads waiting for mutexes, and what can block the
 runtime nevertheless. Waiting on a condition variable leaves the section of its mutex and
 enters it again, so it appears as two sections. Two waits of `Core::run` appear as waits: the
 one for the end of the stop wave, and `Priority::stop` waiting for the dispatchers, the only
 wait that is made with another mutex held.
 */
module LockOrder {
  import opened Chains
  import opened Totals

  type Id = nat // an actor, and the port it owns

  datatype Lock =
    | PortCallbacks(p: Id)  // Port::callbacksMutex_
    | CoreStop              // Core::stopMutex_
    | NetworkCallbacks      // Network::callbacksMutex_
    | PortEvents(p: Id)     // Port::eventMutex_
    | ActorCallBacks(a: Id) // Actor::callBackMutex_
    | StateChange           // Priority::stateChangeMutex_
    | StartedCount          // Priority::startedMutex_

  function Rank(lock: Lock): nat {
    match lock
    case PortCallbacks(_) => 1
    case CoreStop => 2
    case NetworkCallbacks => 3
    case PortEvents(_) => 4
    case ActorCallBacks(_) => 5
    case StateChange => 6
    case StartedCount => 7
  }

  // ----- code as nested sections -----

  /** `Hear` is the assignment to `running_` in Core's listener for the root's PrivStopCnf. */
  datatype Code = Section(lock: Lock, body: seq<Code>) | Hear

  /** Every lock taken in the code ranks above `floor` and above all locks around it. */
  predicate Ascends(code: Code, floor: nat) {
    code.Hear? ||
    (Rank(code.lock) > floor && forall i :: 0 <= i < |code.body| ==> Ascends(code.body[i], Rank(code.lock)))
  }

  predicate AllAscend(codes: seq<Code>, floor: nat) { forall i :: 0 <= i < |codes| ==> Ascends(codes[i], floor) }

  // ----- the code of the runtime -----

  /** What a user callback may do. */
  datatype Call =
    | CallListen(p: Id)
    | CallUnlisten(p: Id)
    | CallUnlistenAll(p: Id)
    | CallPublish(listeners: seq<Id>)
    | CallNewChild(a: Id)

  function Plain(lock: Lock): Code { Section(lock, []) }

  // Actor::schedule, and Priority::schedule inside it.
  function ScheduleActorCode(a: Id): Code { Section(ActorCallBacks(a), [Plain(StateChange)]) }

  // Port::listen, unlisten, schedule, and the final section of consume: scheduleOnOwner inside.
  function PortSectionCode(p: Id): Code { Section(PortEvents(p), [ScheduleActorCode(p)]) }

  function DeliverAll(listeners: seq<Id>): (r: seq<Code>)
    ensures |r| == |listeners| && forall i :: 0 <= i < |r| ==> r[i] == PortSectionCode(listeners[i])
  {
    seq(|listeners|, i requires 0 <= i < |listeners| => PortSectionCode(listeners[i]))
  }

  function PublishCode(listeners: seq<Id>): Code { Section(NetworkCallbacks, DeliverAll(listeners)) }

  function CallCode(call: Call): seq<Code> {
    match call
    case CallListen(p) => [Plain(PortEvents(p)), PortSectionCode(p)]
    case CallUnlisten(p) => [PortSectionCode(p)]
    case CallUnlistenAll(p) => [Plain(PortEvents(p))]
    case CallPublish(listeners) => [PublishCode(listeners)]
    case CallNewChild(a) => [Plain(ActorCallBacks(a)), PortSectionCode(a), ScheduleActorCode(a)]
  }

  function CallsCode(calls: seq<Call>): seq<Code> {
    if calls == [] then [] else CallCode(calls[0]) + CallsCode(calls[1..])
  }

  /**
   What a port's consumer does between two looks at its queues. `HearStopCnf` dispatches the
   root's PrivStopCnf, with Core's own listener among the others.
   */
  datatype Work = RunListen(newType: bool) | RunOther | Dispatch(calls: seq<Call>) | HearStopCnf(before: seq<Call>, after: seq<Call>)

  function WorkCode(p: Id, work: Work): seq<Code> {
    match work
    case RunListen(newType) =>
      [Plain(PortEvents(p)),
       Section(PortCallbacks(p), if newType then [Plain(NetworkCallbacks), Plain(NetworkCallbacks)] else [])]
    case RunOther => [Plain(PortEvents(p)), Plain(PortCallbacks(p))]
    case Dispatch(calls) => [Plain(PortEvents(p)), Plain(PortEvents(p)), Section(PortCallbacks(p), CallsCode(calls))]
    case HearStopCnf(before, after) =>
      [Plain(PortEvents(p)), Plain(PortEvents(p)),
       Section(PortCallbacks(p), CallsCode(before) + [Section(CoreStop, [Hear])] + CallsCode(after))]
  }

  function WorksCode(p: Id, works: seq<Work>): seq<Code> {
    if works == [] then [] else WorkCode(p, works[0]) + WorksCode(p, works[1..])
  }

  /** A whole turn of a dispatcher: take actor `a` from the pool, consume its port, finish. */
  function TurnCode(a: Id, works: seq<Work>): seq<Code> {
    [Plain(StateChange), Plain(ActorCallBacks(a))] + WorksCode(a, works) + [PortSectionCode(a), Plain(ActorCallBacks(a))]
  }

  datatype Role =
    | Dispatcher(turns: seq<(Id, seq<Work>)>)
    | Runner(listeners: seq<Id>)   // Core::run
    | Outsider(calls: seq<Call>)   // constructs actors or publishes from outside

  function TurnsCode(turns: seq<(Id, seq<Work>)>): seq<Code> {
    if turns == [] then [] else TurnCode(turns[0].0, turns[0].1) + TurnsCode(turns[1..])
  }

  /** Without `stop`, and without its last section a dispatcher parks or leaves in. */
  function RoleCode(role: Role): seq<Code> {
    match role
    case Dispatcher(turns) => [Plain(StateChange), Plain(StartedCount)] + TurnsCode(turns) + [Plain(StateChange)]
    case Runner(listeners) =>
      [Plain(StateChange), Plain(StartedCount), Plain(StateChange), PublishCode(listeners), Plain(CoreStop)]
    case Outsider(calls) => CallsCode(calls)
  }

  // ----- every role ascends -----

  lemma SectionsAscend(p: Id, floor: nat)
    requires floor <= 3
    ensures Ascends(PortSectionCode(p), floor) && Ascends(ScheduleActorCode(p), floor)
  {
    assert Ascends(Plain(StateChange), 5);
    assert Ascends(ScheduleActorCode(p), 4);
    assert Ascends(ScheduleActorCode(p), floor);
  }

  lemma PlainAscends(lock: Lock, floor: nat)
    requires floor < Rank(lock)
    ensures Ascends(Plain(lock), floor)
  {
  }

  lemma PublishAscends(listeners: seq<Id>, floor: nat)
    requires floor <= 2
    ensures Ascends(PublishCode(listeners), floor)
  {
    forall i | 0 <= i < |listeners| ensures Ascends(DeliverAll(listeners)[i], 3) {
      SectionsAscend(listeners[i], 3);
    }
  }

  lemma CallAscends(call: Call)
    ensures AllAscend(CallCode(call), 1)
  {
    match call {
      case CallListen(p) => SectionsAscend(p, 1); PlainAscends(PortEvents(p), 1);
      case CallUnlisten(p) => SectionsAscend(p, 1);
      case CallUnlistenAll(p) => PlainAscends(PortEvents(p), 1);
      case CallPublish(listeners) => PublishAscends(listeners, 1);
      case CallNewChild(a) => SectionsAscend(a, 1); PlainAscends(ActorCallBacks(a), 1);
    }
  }

  lemma {:induction false} CallsAscend(calls: seq<Call>)
    ensures AllAscend(CallsCode(calls), 1)
  {
    if calls != [] {
      CallAscends(calls[0]);
      CallsAscend(calls[1..]);
    }
  }

  lemma WorkAscends(p: Id, work: Work)
    ensures AllAscend(WorkCode(p, work), 0)
  {
    match work {
      case Dispatch(calls) => CallsAscend(calls);
      case HearStopCnf(before, after) =>
        CallsAscend(before);
        CallsAscend(after);
        assert Ascends(Section(CoreStop, [Hear]), 1);
      case _ =>
    }
  }

  lemma {:induction false} WorksAscend(p: Id, works: seq<Work>)
    ensures AllAscend(WorksCode(p, works), 0)
  {
    if works != [] {
      WorkAscends(p, works[0]);
      WorksAscend(p, works[1..]);
    }
  }

  lemma {:induction false} TurnsAscend(turns: seq<(Id, seq<Work>)>)
    ensures AllAscend(TurnsCode(turns), 0)
  {
    if turns != [] {
      var (a, works) := turns[0];
      WorksAscend(a, works);
      SectionsAscend(a, 0);
      PlainAscends(StateChange, 0);
      PlainAscends(ActorCallBacks(a), 0);
      assert AllAscend(TurnCode(a, works), 0);
      TurnsAscend(turns[1..]);
    }
  }

  lemma Higher(codes: seq<Code>, floor: nat, lower: nat)
    requires AllAscend(codes, floor) && lower <= floor
    ensures AllAscend(codes, lower)
  {
  }

  /** Whatever its callbacks do, a thread of the runtime takes its locks in ascending rank. */
  lemma RoleAscends(role: Role)
    ensures AllAscend(RoleCode(role), 0)
  {
    match role {
      case Dispatcher(turns) => TurnsAscend(turns);
      case Runner(listeners) => PublishAscends(listeners, 0);
      case Outsider(calls) =>
        CallsAscend(calls);
        Higher(CallsCode(calls), 1, 0);
    }
  }

  // ----- execution -----

  datatype Op =
    | Acquire(lock: Lock)
    | Release(lock: Lock)
    | SetStopped     // running_ := false
    | AwaitStop      // the stop wait of run(): until running_ is false
    | AwaitDrained   // the wait of Priority::stop: until no dispatcher has work

  function Flatten(code: Code): seq<Op>
    decreases code, 0
  {
    match code
    case Section(lock, body) => [Acquire(lock)] + FlattenAll(body) + [Release(lock)]
    case Hear => [SetStopped]
  }

  function FlattenAll(codes: seq<Code>): seq<Op>
    decreases codes
  {
    if codes == [] then [] else Flatten(codes[0]) + FlattenAll(codes[1..])
  }

  // `stop` drains with stopMutex_ held.
  const DRAIN: seq<Op> :=
    [Acquire(StateChange), Release(StateChange), AwaitDrained, Acquire(StateChange), Release(StateChange), Release(CoreStop)]

  function RoleOps(role: Role): seq<Op> {
    FlattenAll(RoleCode(role)) + (if role.Runner? then [AwaitStop, Acquire(CoreStop)] + DRAIN else [])
  }

  /** `held` is a stack, the last lock on top. */
  datatype Thread = Thread(role: Role, held: seq<Lock>, todo: seq<Op>)

  datatype System = System(threads: seq<Thread>, stopped: bool)

  function Top(held: seq<Lock>): nat { if held == [] then 0 else Rank(held[|held| - 1]) }

  ghost predicate Held(s: System, lock: Lock) { exists t :: 0 <= t < |s.threads| && lock in s.threads[t].held }

  ghost predicate Drained(s: System) {
    forall t :: 0 <= t < |s.threads| && s.threads[t].role.Dispatcher? ==> s.threads[t].todo == []
  }

  ghost predicate CanStep(s: System, t: nat) {
    && t < |s.threads| && s.threads[t].todo != []
    && match s.threads[t].todo[0]
       case Acquire(lock) => !Held(s, lock)
       case Release(lock) => s.threads[t].held != [] && s.threads[t].held[|s.threads[t].held| - 1] == lock
       case SetStopped => true
       case AwaitStop => s.stopped
       case AwaitDrained => Drained(s)
  }

  function HeldAfter(held: seq<Lock>, op: Op): seq<Lock> {
    match op
    case Acquire(lock) => held + [lock]
    case Release(_) => if held == [] then [] else held[..|held| - 1]
    case _ => held
  }

  function Stepped(thread: Thread): Thread
    requires thread.todo != []
  {
    thread.(held := HeldAfter(thread.held, thread.todo[0]), todo := thread.todo[1..])
  }

  ghost function StepOf(s: System, t: nat): System
    requires CanStep(s, t)
  {
    System(s.threads[t := Stepped(s.threads[t])], s.stopped || s.threads[t].todo[0] == SetStopped)
  }

  /** What is left to do releases the held locks in order and acquires above the top. */
  predicate Proper(held: seq<Lock>, todo: seq<Op>)
    decreases |todo|
  {
    if todo == [] then held == []
    else
      && (match todo[0]
          case Acquire(lock) => Rank(lock) > Top(held)
          case Release(lock) => held != [] && held[|held| - 1] == lock
          case SetStopped => true
          case AwaitStop => held == []
          case AwaitDrained => held == [CoreStop])
      && Proper(HeldAfter(held, todo[0]), todo[1..])
  }

  predicate Stacked(held: seq<Lock>) { forall i, j :: 0 <= i < j < |held| ==> Rank(held[i]) < Rank(held[j]) }

  lemma {:induction false} FlattenProper(codes: seq<Code>, held: seq<Lock>, rest: seq<Op>)
    requires AllAscend(codes, Top(held)) && Proper(held, rest)
    ensures Proper(held, FlattenAll(codes) + rest)
    decreases codes
  {
    if codes == [] {
      assert FlattenAll(codes) + rest == rest;
    } else {
      var code, others := codes[0], FlattenAll(codes[1..]) + rest;
      FlattenProper(codes[1..], held, rest);
      if code.Hear? {
        Regroup([SetStopped], FlattenAll(codes[1..]), rest);
        assert ([SetStopped] + others)[1..] == others;
      } else {
        ReleaseProper(code.lock, held, others);
        FlattenProper(code.body, held + [code.lock], [Release(code.lock)] + others);
        var inner := FlattenAll(code.body) + ([Release(code.lock)] + others);
        FlattenShape(codes, rest);
        assert ([Acquire(code.lock)] + inner)[1..] == inner;
      }
    }
  }

  lemma ReleaseProper(lock: Lock, held: seq<Lock>, others: seq<Op>)
    requires Proper(held, others)
    ensures Proper(held + [lock], [Release(lock)] + others)
  {
    assert (held + [lock])[..|held|] == held;
    assert ([Release(lock)] + others)[1..] == others;
  }

  lemma FlattenShape(codes: seq<Code>, rest: seq<Op>)
    requires codes != [] && codes[0].Section?
    ensures FlattenAll(codes) + rest
            == [Acquire(codes[0].lock)]
               + (FlattenAll(codes[0].body) + ([Release(codes[0].lock)] + (FlattenAll(codes[1..]) + rest)))
  {
    var a, b, c, d := [Acquire(codes[0].lock)], FlattenAll(codes[0].body), [Release(codes[0].lock)], FlattenAll(codes[1..]);
    Regroup(a + b + c, d, rest);
    Regroup(a + b, c, d + rest);
    Regroup(a, b, c + (d + rest));
  }

  lemma Regroup(a: seq<Op>, b: seq<Op>, c: seq<Op>)
    ensures a + b + c == a + (b + c)
  {
  }

  lemma DrainProper()
    ensures Proper([CoreStop], DRAIN) && Proper([], [AwaitStop, Acquire(CoreStop)] + DRAIN)
  {
    assert DRAIN[1..][1..] == [AwaitDrained, Acquire(StateChange), Release(StateChange), Release(CoreStop)];
    assert DRAIN[3..][1..] == [Release(StateChange), Release(CoreStop)];
    assert DRAIN[4..][1..] == [Release(CoreStop)];
    assert Proper([], []);
    assert Proper([CoreStop], [Release(CoreStop)]);
    ReleaseProper(StateChange, [CoreStop], [Release(CoreStop)]);
    assert [CoreStop] + [StateChange] == [CoreStop, StateChange];
    assert [Release(StateChange)] + [Release(CoreStop)] == DRAIN[4..];
    assert Proper([CoreStop], DRAIN[3..]);
    assert DRAIN[2..][1..] == DRAIN[3..];
    assert Proper([CoreStop], DRAIN[2..]);
    ReleaseProper(StateChange, [CoreStop], DRAIN[2..]);
    assert [Release(StateChange)] + DRAIN[2..] == DRAIN[1..];
    assert Proper([CoreStop], DRAIN);
    assert ([AwaitStop, Acquire(CoreStop)] + DRAIN)[1..] == [Acquire(CoreStop)] + DRAIN;
    assert ([Acquire(CoreStop)] + DRAIN)[1..] == DRAIN;
    assert [] + [CoreStop] == [CoreStop];
  }

  lemma RoleProper(role: Role)
    ensures Proper([], RoleOps(role))
  {
    RoleAscends(role);
    var rest := if role.Runner? then [AwaitStop, Acquire(CoreStop)] + DRAIN else [];
    if role.Runner? { DrainProper(); }
    FlattenProper(RoleCode(role), [], rest);
  }

  // ----- who takes stopMutex_ and who waits -----

  predicate Waiting(op: Op) { op.AwaitStop? || op.AwaitDrained? }

  /** Besides the runner only dispatchers take stopMutex_, and nobody else waits. */
  ghost predicate Placed(thread: Thread) {
    && (!thread.role.Runner? ==> forall op :: op in thread.todo ==> !Waiting(op))
    && (thread.role.Outsider? ==> Acquire(CoreStop) !in thread.todo)
  }

  predicate NoCoreStop(code: Code) {
    code.Section? && code.lock != CoreStop && forall i :: 0 <= i < |code.body| ==> NoCoreStop(code.body[i])
  }

  lemma CallWithoutCore(call: Call)
    ensures forall i :: 0 <= i < |CallCode(call)| ==> NoCoreStop(CallCode(call)[i])
  {
    match call {
      case CallListen(p) => SectionsWithoutCore(p);
      case CallUnlisten(p) => SectionsWithoutCore(p);
      case CallUnlistenAll(p) =>
      case CallPublish(listeners) =>
        forall i | 0 <= i < |listeners| ensures NoCoreStop(DeliverAll(listeners)[i]) { SectionsWithoutCore(listeners[i]); }
        assert NoCoreStop(PublishCode(listeners));
      case CallNewChild(a) => SectionsWithoutCore(a);
    }
  }

  lemma SectionsWithoutCore(p: Id)
    ensures NoCoreStop(PortSectionCode(p)) && NoCoreStop(ScheduleActorCode(p))
  {
    assert NoCoreStop(Plain(StateChange));
    assert NoCoreStop(ScheduleActorCode(p));
  }

  lemma {:induction false} CallsWithoutCore(calls: seq<Call>)
    ensures forall i :: 0 <= i < |CallsCode(calls)| ==> NoCoreStop(CallsCode(calls)[i])
  {
    if calls != [] {
      CallWithoutCore(calls[0]);
      CallsWithoutCore(calls[1..]);
    }
  }

  lemma {:induction false} FlattenWithoutCore(codes: seq<Code>)
    requires forall i :: 0 <= i < |codes| ==> NoCoreStop(codes[i])
    ensures Acquire(CoreStop) !in FlattenAll(codes)
    decreases codes
  {
    if codes != [] {
      FlattenWithoutCore(codes[0].body);
      FlattenWithoutCore(codes[1..]);
    }
  }

  lemma {:induction false} FlattenWithoutWaits(codes: seq<Code>)
    ensures forall op :: op in FlattenAll(codes) ==> !Waiting(op)
    decreases codes
  {
    if codes != [] {
      if codes[0].Section? { FlattenWithoutWaits(codes[0].body); }
      FlattenWithoutWaits(codes[1..]);
    }
  }

  ghost predicate Sound(s: System) {
    && (forall t :: 0 <= t < |s.threads| ==>
          Proper(s.threads[t].held, s.threads[t].todo) && Stacked(s.threads[t].held) && Placed(s.threads[t]))
    && (forall t, u :: 0 <= t < u < |s.threads| ==> !(s.threads[t].role.Runner? && s.threads[u].role.Runner?))
  }

  function Begin(roles: seq<Role>): (s: System)
    ensures |s.threads| == |roles| && !s.stopped
    ensures forall t :: 0 <= t < |roles| ==> s.threads[t] == Thread(roles[t], [], RoleOps(roles[t]))
  {
    System(seq(|roles|, t requires 0 <= t < |roles| => Thread(roles[t], [], RoleOps(roles[t]))), false)
  }

  /** `run` is called by one thread. */
  predicate OneRunner(roles: seq<Role>) { forall t, u :: 0 <= t < u < |roles| ==> !(roles[t].Runner? && roles[u].Runner?) }

  lemma BeginsSound(roles: seq<Role>)
    requires OneRunner(roles)
    ensures Sound(Begin(roles))
  {
    forall t | 0 <= t < |roles| ensures Proper([], RoleOps(roles[t])) && Placed(Thread(roles[t], [], RoleOps(roles[t]))) {
      RoleProper(roles[t]);
      FlattenWithoutWaits(RoleCode(roles[t]));
      if roles[t].Outsider? {
        CallsWithoutCore(roles[t].calls);
        FlattenWithoutCore(CallsCode(roles[t].calls));
      }
    }
  }

  lemma StepPlaced(thread: Thread)
    requires Proper(thread.held, thread.todo) && Stacked(thread.held) && Placed(thread) && thread.todo != []
    ensures Proper(Stepped(thread).held, Stepped(thread).todo) && Stacked(Stepped(thread).held) && Placed(Stepped(thread))
  {
    assert forall op :: op in thread.todo[1..] ==> op in thread.todo;
  }

  lemma StepSound(s: System, t: nat)
    requires Sound(s) && CanStep(s, t)
    ensures Sound(StepOf(s, t))
  {
    StepPlaced(s.threads[t]);
    var s' := StepOf(s, t);
    forall u | 0 <= u < |s'.threads|
      ensures Proper(s'.threads[u].held, s'.threads[u].todo) && Stacked(s'.threads[u].held) && Placed(s'.threads[u])
    {
      assert s'.threads[u] == if u == t then Stepped(s.threads[t]) else s.threads[u];
    }
  }

  ghost predicate Next(s: System, t: nat, s': System) { CanStep(s, t) && s' == StepOf(s, t) }

  ghost predicate Leads(s: System, s': System) { Connects(Next, s, s') }

  ghost predicate CanReach(roles: seq<Role>, s: System) { Leads(Begin(roles), s) }

  lemma {:induction false} ChainSound(states: seq<System>, turns: seq<nat>, k: nat)
    requires IsChain(Next, states, turns) && Sound(states[0]) && k <= |turns|
    ensures Sound(states[k])
  {
    if k > 0 {
      ChainSound(states, turns, k - 1);
      assert Next(states[k - 1], turns[k - 1], states[k]);
      StepSound(states[k - 1], turns[k - 1]);
    }
  }

  lemma LeadsSound(s: System, s': System)
    requires Sound(s) && Leads(s, s')
    ensures Sound(s')
  {
    var states: seq<System>, turns: seq<nat> :| IsChain(Next, states, turns) && states[0] == s && states[|turns|] == s';
    ChainSound(states, turns, |turns|);
  }

  // ----- no cycle of waiting threads -----

  /** Thread `t` wants a lock that thread `u` holds. */
  predicate WaitsFor(s: System, t: nat, u: nat) {
    && t < |s.threads| && u < |s.threads|
    && s.threads[t].todo != [] && s.threads[t].todo[0].Acquire? && s.threads[t].todo[0].lock in s.threads[u].held
  }

  /** The holder of a wanted lock still has work, and if that is another lock, it ranks higher. */
  lemma WaitingRises(s: System, t: nat, u: nat)
    requires Sound(s) && WaitsFor(s, t, u)
    ensures t != u && s.threads[u].todo != []
    ensures s.threads[u].todo[0].Acquire? ==> Rank(s.threads[t].todo[0].lock) < Rank(s.threads[u].todo[0].lock)
    ensures s.threads[u].todo[0].AwaitDrained? ==> s.threads[t].todo[0] == Acquire(CoreStop)
    ensures !s.threads[u].todo[0].AwaitStop?
  {
    var lock, held := s.threads[t].todo[0].lock, s.threads[u].held;
    var i :| 0 <= i < |held| && held[i] == lock;
    assert Rank(lock) <= Top(held);
  }

  /** No reachable state has threads waiting for each other in a cycle. */
  lemma NoWaitingCycle(roles: seq<Role>, s: System, chain: seq<nat>)
    requires OneRunner(roles) && CanReach(roles, s) && |chain| > 1
    requires forall i :: 0 <= i < |chain| - 1 ==> WaitsFor(s, chain[i], chain[i + 1])
    ensures chain[0] != chain[|chain| - 1]
  {
    BeginsSound(roles);
    LeadsSound(Begin(roles), s);
    ChainRises(s, chain);
  }

  lemma {:induction false} ChainRises(s: System, chain: seq<nat>)
    requires Sound(s) && |chain| > 1
    requires forall i :: 0 <= i < |chain| - 1 ==> WaitsFor(s, chain[i], chain[i + 1])
    ensures var first, last := chain[0], chain[|chain| - 1];
            && first < |s.threads| && last < |s.threads| && s.threads[last].todo != [] && s.threads[first].todo != []
            && s.threads[first].todo[0].Acquire?
            && (s.threads[last].todo[0].Acquire? ==> Rank(s.threads[first].todo[0].lock) < Rank(s.threads[last].todo[0].lock))
            && first != last
  {
    WaitingRises(s, chain[0], chain[1]);
    assert WaitsFor(s, chain[0], chain[1]);
    if |chain| > 2 {
      var rest := chain[1..];
      forall i | 0 <= i < |rest| - 1 ensures WaitsFor(s, rest[i], rest[i + 1]) {
        assert rest[i] == chain[i + 1] && rest[i + 1] == chain[i + 1 + 1];
      }
      ChainRises(s, rest);
    }
  }

  // ----- what can block -----

  predicate Unfinished(s: System, t: nat) { t < |s.threads| && s.threads[t].todo != [] }

  /** Everything is done but that nobody has stopped the system. */
  ghost predicate Quiet(s: System) {
    !s.stopped && forall t: nat :: Unfinished(s, t) ==> s.threads[t].todo[0].AwaitStop?
  }

  /** The runner waits for the dispatchers with stopMutex_ held, and somebody is still to take stopMutex_. */
  ghost predicate Hanging(s: System) {
    exists r: nat, u: nat :: && Unfinished(s, r) && s.threads[r].todo[0].AwaitDrained?
                             && u < |s.threads| && u != r && Acquire(CoreStop) in s.threads[u].todo
  }

  /** A thread that does not wait for a condition can go on, or some thread that is in its way. */
  lemma {:induction false} OthersMove(s: System, t: nat)
    requires Sound(s) && !Hanging(s) && Unfinished(s, t) && !Waiting(s.threads[t].todo[0])
    ensures exists u :: CanStep(s, u)
    decreases if s.threads[t].todo[0].Acquire? then 8 - Rank(s.threads[t].todo[0].lock) else 0
  {
    if CanStep(s, t) {
    } else {
      assert s.threads[t].todo[0].Acquire?;
      var u :| 0 <= u < |s.threads| && s.threads[t].todo[0].lock in s.threads[u].held;
      assert WaitsFor(s, t, u);
      WaitingRises(s, t, u);
      if !s.threads[u].todo[0].AwaitDrained? { OthersMove(s, u); } else { assert Unfinished(s, u); }
    }
  }

  /** In every reachable state with any number of threads: somebody can go on, or the state is quiet, or it hangs. */
  lemma NoOtherDeadlock(roles: seq<Role>, s: System, t: nat)
    requires OneRunner(roles) && CanReach(roles, s) && Unfinished(s, t)
    ensures (exists u :: CanStep(s, u)) || Quiet(s) || Hanging(s)
  {
    BeginsSound(roles);
    LeadsSound(Begin(roles), s);
    if !Quiet(s) && !Hanging(s) { SomeoneMoves(s, t); }
  }

  lemma SomeoneMoves(s: System, t: nat)
    requires Sound(s) && Unfinished(s, t) && !Quiet(s) && !Hanging(s)
    ensures exists u :: CanStep(s, u)
  {
    if !Waiting(s.threads[t].todo[0]) {
      OthersMove(s, t);
    } else if s.threads[t].todo[0].AwaitStop? {
      if s.stopped {
        assert CanStep(s, t);
      } else {
        var u: nat :| Unfinished(s, u) && !s.threads[u].todo[0].AwaitStop?;
        RunnerWaits(s, t, u);
        OthersMove(s, u);
      }
    } else if Drained(s) {
      assert CanStep(s, t);
    } else {
      var u :| 0 <= u < |s.threads| && s.threads[u].role.Dispatcher? && s.threads[u].todo != [];
      OthersMove(s, u);
    }
  }

  // Only the runner waits.
  lemma RunnerWaits(s: System, t: nat, u: nat)
    requires Sound(s) && Unfinished(s, t) && Waiting(s.threads[t].todo[0]) && Unfinished(s, u) && u != t
    ensures !Waiting(s.threads[u].todo[0])
  {
    assert Placed(s.threads[t]) && Placed(s.threads[u]);
  }

  // ----- the drain -----

  /** The runner has taken stopMutex_ for the drain, and still has to wait for the dispatchers. */
  predicate Draining(s: System, r: nat) {
    && r < |s.threads| && s.threads[r].role.Runner?
    && ((s.threads[r].todo == DRAIN && s.threads[r].held == [CoreStop])
        || (s.threads[r].todo == DRAIN[1..] && s.threads[r].held == [CoreStop, StateChange])
        || (s.threads[r].todo == DRAIN[2..] && s.threads[r].held == [CoreStop]))
  }

  /** Some other thread is still to hear a root's PrivStopCnf. */
  predicate StopCnfLeft(s: System, r: nat) {
    exists u :: 0 <= u < |s.threads| && u != r && Acquire(CoreStop) in s.threads[u].todo
  }

  predicate Finished(s: System) { forall t :: 0 <= t < |s.threads| ==> s.threads[t].todo == [] }

  /** While the runner drains, whoever is to take stopMutex_ keeps waiting, and so does the runner. */
  lemma DoomedStep(s: System, r: nat, t: nat)
    requires Sound(s) && Draining(s, r) && StopCnfLeft(s, r) && CanStep(s, t)
    ensures Draining(StepOf(s, t), r) && StopCnfLeft(StepOf(s, t), r)
  {
    var u :| 0 <= u < |s.threads| && u != r && Acquire(CoreStop) in s.threads[u].todo;
    assert CoreStop in s.threads[r].held && Held(s, CoreStop);
    assert Placed(s.threads[u]) && s.threads[u].role.Dispatcher?;
    var s' := StepOf(s, t);
    if t == u {
      var m :| 0 <= m < |s.threads[u].todo| && s.threads[u].todo[m] == Acquire(CoreStop);
      assert s'.threads[u].todo[m - 1] == Acquire(CoreStop);
    }
    if t == r { DrainStep(s, r); }
    assert Acquire(CoreStop) in s'.threads[u].todo;
  }

  lemma DrainStep(s: System, r: nat)
    requires Draining(s, r) && CanStep(s, r) && !Drained(s)
    ensures Draining(StepOf(s, r), r)
  {
    assert DRAIN[1..][1..] == DRAIN[2..];
    assert [CoreStop] + [StateChange] == [CoreStop, StateChange] && [CoreStop, StateChange][..1] == [CoreStop];
  }

  // The runner drains, and somebody is still to take stopMutex_.
  ghost predicate Doomed(s: System, r: nat) { Sound(s) && Draining(s, r) && StopCnfLeft(s, r) }

  lemma DoomedNext(s: System, t: nat, s': System, r: nat)
    requires Doomed(s, r) && Next(s, t, s')
    ensures Doomed(s', r)
  {
    StepSound(s, t);
    DoomedStep(s, r, t);
  }

  // Nobody comes to need stopMutex_, and the runner does not fall back to the stop wait.
  ghost predicate Clear(s: System, r: nat) {
    && Sound(s) && r < |s.threads| && s.threads[r].role.Runner? && !StopCnfLeft(s, r)
    && forall m :: 0 <= m < |s.threads[r].todo| ==> !s.threads[r].todo[m].AwaitStop?
  }

  lemma ClearStep(s: System, r: nat, t: nat)
    requires Clear(s, r) && CanStep(s, t)
    ensures Clear(StepOf(s, t), r)
  {
    StepSound(s, t);
    var s' := StepOf(s, t);
    forall u | 0 <= u < |s'.threads| && u != r ensures Acquire(CoreStop) !in s'.threads[u].todo {
      assert forall op :: op in s'.threads[u].todo ==> op in s.threads[u].todo;
    }
    assert forall m :: 0 <= m < |s'.threads[r].todo| ==> s'.threads[r].todo[m] in s.threads[r].todo;
  }

  lemma ClearMoves(s: System, r: nat)
    requires Clear(s, r) && !Finished(s)
    ensures exists u :: CanStep(s, u)
  {
    var t :| 0 <= t < |s.threads| && s.threads[t].todo != [];
    ClearIsNoHang(s, r);
    assert Unfinished(s, t) && Placed(s.threads[t]) && s.threads[t].todo[0] in s.threads[t].todo;
    SomeoneMoves(s, t);
  }

  lemma ClearIsNoHang(s: System, r: nat)
    requires Clear(s, r)
    ensures !Hanging(s)
  {
    forall q: nat, u: nat | Unfinished(s, q) && s.threads[q].todo[0].AwaitDrained? && u < |s.threads| && u != q
      ensures Acquire(CoreStop) !in s.threads[u].todo
    {
      assert Placed(s.threads[q]) && s.threads[q].todo[0] in s.threads[q].todo;
    }
  }

  function OpsOf(thread: Thread): nat { |thread.todo| }

  function OpsLeft(s: System): nat { Total(s.threads, OpsOf) }

  lemma StepShrinks(s: System, t: nat)
    requires CanStep(s, t)
    ensures OpsLeft(StepOf(s, t)) < OpsLeft(s)
  {
    TotalUpdate(s.threads, OpsOf, t, StepOf(s, t).threads[t]);
  }

  lemma {:induction false} ClearFinishes(s: System, r: nat) returns (s': System)
    requires Clear(s, r)
    ensures Leads(s, s') && Finished(s')
    decreases OpsLeft(s)
  {
    if Finished(s) {
      s' := s;
      ConnectsSelf(Next, s);
    } else {
      ClearMoves(s, r);
      var u :| CanStep(s, u);
      ClearStep(s, r, u);
      StepShrinks(s, u);
      var next := StepOf(s, u);
      s' := ClearFinishes(next, r);
      ConnectsEarlier(Next, s, u, next, s');
    }
  }

  lemma {:induction false} ClearRun(states: seq<System>, turns: seq<nat>, r: nat, k: nat)
    requires IsChain(Next, states, turns) && Clear(states[0], r) && k <= |turns|
    ensures Clear(states[k], r)
  {
    if k > 0 {
      ClearRun(states, turns, r, k - 1);
      assert Next(states[k - 1], turns[k - 1], states[k]);
      ClearStep(states[k - 1], r, turns[k - 1]);
    }
  }

  lemma DoomedNeverEnds(s: System, r: nat, s': System)
    requires Doomed(s, r) && Leads(s, s')
    ensures !Finished(s')
  {
    var states: seq<System>, turns: seq<nat> :| IsChain(Next, states, turns) && states[0] == s && states[|turns|] == s';
    forall a: System, t: nat, b: System | Doomed(a, r) && Next(a, t, b) ensures Doomed(b, r) { DoomedNext(a, t, b, r); }
    ChainKeeps(Next, x => Doomed(x, r), states, turns, |turns|);
  }

  lemma DrainOps(todo: seq<Op>)
    requires todo == DRAIN || todo == DRAIN[1..] || todo == DRAIN[2..]
    ensures forall m :: 0 <= m < |todo| ==> !todo[m].AwaitStop?
  {
  }

  lemma DrainingIsClear(s: System, r: nat)
    requires Sound(s) && Draining(s, r) && !StopCnfLeft(s, r)
    ensures Clear(s, r)
  {
    DrainOps(s.threads[r].todo);
  }

  /**
   Once the runner has taken stopMutex_ for the drain, the system can come to its end exactly if
   nobody is still to hear a root's PrivStopCnf.
   */
  lemma DrainEndsExactly(roles: seq<Role>, s: System, r: nat)
    requires OneRunner(roles) && CanReach(roles, s) && Draining(s, r)
    ensures (exists s' :: Leads(s, s') && Finished(s')) <==> !StopCnfLeft(s, r)
  {
    BeginsSound(roles);
    LeadsSound(Begin(roles), s);
    if StopCnfLeft(s, r) {
      forall s' | Leads(s, s') ensures !Finished(s') { DoomedNeverEnds(s, r, s'); }
    } else {
      DrainingIsClear(s, r);
      var s' := ClearFinishes(s, r);
    }
  }

  /** In the good case no choice of the scheduler can prevent the end: wherever the system gets, it can go on until all is done. */
  lemma GoodDrainNeverSticks(roles: seq<Role>, s: System, r: nat, s': System)
    requires OneRunner(roles) && CanReach(roles, s) && Draining(s, r) && !StopCnfLeft(s, r)
    requires Leads(s, s') && !Finished(s')
    ensures exists u :: CanStep(s', u) && OpsLeft(StepOf(s', u)) < OpsLeft(s')
  {
    BeginsSound(roles);
    LeadsSound(Begin(roles), s);
    DrainingIsClear(s, r);
    var states: seq<System>, turns: seq<nat> :| IsChain(Next, states, turns) && states[0] == s && states[|turns|] == s';
    ClearRun(states, turns, r, |turns|);
    ClearMoves(s', r);
    var u :| CanStep(s', u);
    StepShrinks(s', u);
  }

  /** In the bad case the system gets into a state in which nobody can go on. */
  lemma {:induction false} BadDrainHangs(s: System, r: nat) returns (s': System)
    requires Sound(s) && Draining(s, r) && StopCnfLeft(s, r)
    ensures Leads(s, s') && Draining(s', r) && StopCnfLeft(s', r) && forall u :: !CanStep(s', u)
    decreases OpsLeft(s)
  {
    if u :| CanStep(s, u) {
      DoomedStep(s, r, u);
      StepSound(s, u);
      StepShrinks(s, u);
      var next := StepOf(s, u);
      s' := BadDrainHangs(next, r);
      ConnectsEarlier(Next, s, u, next, s');
    } else {
      s' := s;
      ConnectsSelf(Next, s);
    }
  }

  // ----- the hang is real -----

  function HeldBy(held: seq<Lock>, ops: seq<Op>): seq<Lock>
    decreases |ops|
  {
    if ops == [] then held else HeldBy(HeldAfter(held, ops[0]), ops[1..])
  }

  ghost predicate OthersHoldNothing(s: System, t: nat) {
    forall u :: 0 <= u < |s.threads| && u != t ==> s.threads[u].held == []
  }

  lemma AloneCanStep(s: System, t: nat)
    requires Sound(s) && t < |s.threads| && s.threads[t].todo != [] && OthersHoldNothing(s, t)
    requires var op := s.threads[t].todo[0]; !op.AwaitDrained? && (op.AwaitStop? ==> s.stopped)
    ensures CanStep(s, t) && Sound(StepOf(s, t)) && OthersHoldNothing(StepOf(s, t), t)
  {
    StepSound(s, t);
  }

  lemma FirstAndRest(todo: seq<Op>, n: nat)
    requires 0 < n <= |todo|
    ensures todo[..n] == [todo[0]] + todo[1..][..n - 1] && todo[1..][n - 1..] == todo[n..] && todo[..n][0] == todo[0]
    ensures todo[..n][1..] == todo[1..][..n - 1]
  {
  }

  /** A thread may run alone as far as it does not wait, if the others hold nothing. */
  lemma {:induction false} RunsAlone(s: System, t: nat, n: nat) returns (s': System)
    requires Sound(s) && t < |s.threads| && n <= |s.threads[t].todo| && OthersHoldNothing(s, t)
    requires forall op :: op in s.threads[t].todo[..n] ==> !op.AwaitDrained? && (op.AwaitStop? ==> s.stopped)
    ensures Leads(s, s') && s'.stopped == (s.stopped || SetStopped in s.threads[t].todo[..n])
    ensures var thread := s.threads[t];
            s'.threads == s.threads[t := Thread(thread.role, HeldBy(thread.held, thread.todo[..n]), thread.todo[n..])]
    decreases n
  {
    var thread := s.threads[t];
    if n == 0 {
      s' := s;
      ConnectsSelf(Next, s);
      assert thread.todo[0..] == thread.todo;
    } else {
      FirstAndRest(thread.todo, n);
      assert thread.todo[0] in thread.todo[..n];
      AloneCanStep(s, t);
      var next := StepOf(s, t);
      assert next.threads[t] == Thread(thread.role, HeldAfter(thread.held, thread.todo[0]), thread.todo[1..]);
      s' := RunsAlone(next, t, n - 1);
      ConnectsEarlier(Next, s, t, next, s');
    }
  }

  lemma {:induction false} FlattenConcat(a: seq<Code>, b: seq<Code>)
    ensures FlattenAll(a + b) == FlattenAll(a) + FlattenAll(b)
    decreases |a|
  {
    if a == [] {
      assert a + b == b;
    } else {
      assert (a + b)[1..] == a[1..] + b;
      FlattenConcat(a[1..], b);
    }
  }

  lemma {:induction false} HeldByConcat(held: seq<Lock>, a: seq<Op>, b: seq<Op>)
    ensures HeldBy(held, a + b) == HeldBy(HeldBy(held, a), b)
    decreases |a|
  {
    if a == [] {
      assert a + b == b;
    } else {
      assert (a + b)[1..] == a[1..] + b;
      HeldByConcat(HeldAfter(held, a[0]), a[1..], b);
    }
  }

  /** A finished piece of code leaves nothing locked. */
  lemma {:induction false} FlattenHeld(codes: seq<Code>, held: seq<Lock>)
    ensures HeldBy(held, FlattenAll(codes)) == held
    decreases codes
  {
    if codes != [] {
      var code := codes[0];
      HeldByConcat(held, Flatten(code), FlattenAll(codes[1..]));
      FlattenHeld(codes[1..], held);
      if code.Section? {
        var inner := held + [code.lock];
        FlattenHeld(code.body, inner);
        HeldByConcat(held, [Acquire(code.lock)], FlattenAll(code.body));
        HeldByConcat(held, [Acquire(code.lock)] + FlattenAll(code.body), [Release(code.lock)]);
        assert inner[..|held|] == held;
      }
    }
  }

  // A dispatcher that hears the root's PrivStopCnf twice.
  const TWICE: Role := Dispatcher([(0, [HearStopCnf([], []), HearStopCnf([], [])])])
  const ONCE: seq<Code> := WorkCode(0, HearStopCnf([], []))

  lemma HearsOnce()
    ensures SetStopped in FlattenAll(ONCE) && Acquire(CoreStop) in FlattenAll(ONCE)
  {
    var heard := Section(CoreStop, [Hear]);
    assert FlattenAll([Hear]) == [SetStopped] + FlattenAll([]);
    assert Flatten(heard) == [Acquire(CoreStop)] + FlattenAll([Hear]) + [Release(CoreStop)];
    var body := [] + [heard] + [];
    assert body == [heard];
    assert FlattenAll(body) == Flatten(heard) + FlattenAll([]);
    var dispatch := Section(PortCallbacks(0), body);
    assert FlattenAll([dispatch]) == Flatten(dispatch) + FlattenAll([]);
    FlattenConcat([Plain(PortEvents(0)), Plain(PortEvents(0))], [dispatch]);
    assert ONCE == [Plain(PortEvents(0)), Plain(PortEvents(0))] + [dispatch];
  }

  const START: seq<Code> := [Plain(StateChange), Plain(StartedCount)] + [Plain(StateChange), Plain(ActorCallBacks(0))] + ONCE
  const END: seq<Code> := ONCE + [PortSectionCode(0), Plain(ActorCallBacks(0))] + [Plain(StateChange)]

  lemma TwiceSplits()
    ensures RoleOps(TWICE) == FlattenAll(START) + FlattenAll(END)
  {
    var work := HearStopCnf([], []);
    assert [work, work][1..] == [work] && [work][1..] == [];
    assert WorksCode(0, [work]) == ONCE + WorksCode(0, []);
    assert WorksCode(0, [work, work]) == ONCE + WorksCode(0, [work]);
    var turns := [(0, [work, work])];
    assert TurnsCode(turns) == TurnCode(0, [work, work]) + TurnsCode(turns[1..]);
    assert RoleCode(TWICE) == START + END;
    FlattenConcat(START, END);
  }

  lemma HearsTwice()
    ensures SetStopped in FlattenAll(START) && Acquire(CoreStop) in FlattenAll(END)
  {
    HearsOnce();
    var start := [Plain(StateChange), Plain(StartedCount)] + [Plain(StateChange), Plain(ActorCallBacks(0))];
    var end := [PortSectionCode(0), Plain(ActorCallBacks(0))] + [Plain(StateChange)];
    FlattenConcat(start, ONCE);
    FlattenConcat(ONCE, end);
    assert START == start + ONCE && END == ONCE + end;
  }

  // The dispatcher hears the confirmation once and is about to hear it again.
  lemma DispatcherComes(s: System) returns (s': System)
    requires Sound(s) && |s.threads| == 2 && s.threads[0] == Thread(TWICE, [], RoleOps(TWICE)) && s.threads[1].held == []
    ensures Leads(s, s') && s'.stopped && |s'.threads| == 2 && s'.threads[1] == s.threads[1]
    ensures s'.threads[0] == Thread(TWICE, [], FlattenAll(END))
  {
    TwiceSplits();
    HearsTwice();
    var n := |FlattenAll(START)|;
    assert RoleOps(TWICE)[..n] == FlattenAll(START) && RoleOps(TWICE)[n..] == FlattenAll(END);
    FlattenWithoutWaits(START);
    FlattenHeld(START, []);
    s' := RunsAlone(s, 0, n);
  }

  const BEFORE_DRAIN: seq<Op> := FlattenAll(RoleCode(Runner([]))) + [AwaitStop, Acquire(CoreStop)]

  lemma RunnerSplits()
    ensures RoleOps(Runner([])) == BEFORE_DRAIN + DRAIN
    ensures HeldBy([], BEFORE_DRAIN) == [CoreStop]
    ensures forall op :: op in BEFORE_DRAIN ==> !op.AwaitDrained?
  {
    var codes := RoleCode(Runner([]));
    Regroup(FlattenAll(codes), [AwaitStop, Acquire(CoreStop)], DRAIN);
    FlattenWithoutWaits(codes);
    FlattenHeld(codes, []);
    HeldByConcat([], FlattenAll(codes), [AwaitStop, Acquire(CoreStop)]);
    assert [AwaitStop, Acquire(CoreStop)][1..] == [Acquire(CoreStop)];
    assert HeldBy([], [AwaitStop, Acquire(CoreStop)]) == [] + [CoreStop];
  }

  // The runner gets as far as the drain.
  lemma RunnerComes(s: System) returns (s': System)
    requires Sound(s) && s.stopped && |s.threads| == 2 && s.threads[0].held == []
    requires s.threads[1] == Thread(Runner([]), [], RoleOps(Runner([])))
    ensures Leads(s, s') && Draining(s', 1) && |s'.threads| == 2 && s'.threads[0] == s.threads[0]
  {
    RunnerSplits();
    var n := |BEFORE_DRAIN|;
    assert RoleOps(Runner([]))[..n] == BEFORE_DRAIN && RoleOps(Runner([]))[n..] == DRAIN;
    s' := RunsAlone(s, 1, n);
  }

  lemma HangFollows(roles: seq<Role>, s: System, r: nat) returns (s': System)
    requires CanReach(roles, s) && Doomed(s, r)
    ensures CanReach(roles, s') && Draining(s', r) && StopCnfLeft(s', r) && forall u :: !CanStep(s', u)
  {
    s' := BadDrainHangs(s, r);
    ConnectsAcross(Next, Begin(roles), s, s');
  }

  const HANGS: seq<Role> := [TWICE, Runner([])]

  // The runner drains while the dispatcher is still to hear the confirmation.
  lemma DrainComes() returns (s: System)
    ensures OneRunner(HANGS) && CanReach(HANGS, s) && Doomed(s, 1)
  {
    var s0 := Begin(HANGS);
    BeginsSound(HANGS);
    var s1 := DispatcherComes(s0);
    LeadsSound(s0, s1);
    s := RunnerComes(s1);
    LeadsSound(s1, s);
    HearsTwice();
    ConnectsAcross(Next, s0, s1, s);
  }

  /** The hang can be reached: one dispatcher, and the root's PrivStopCnf heard once more during the drain. */
  lemma HangIsReachable() returns (s: System)
    ensures OneRunner(HANGS) && CanReach(HANGS, s)
    ensures Draining(s, 1) && StopCnfLeft(s, 1) && forall u :: !CanStep(s, u)
  {
    var s1 := DrainComes();
    s := HangFollows(HANGS, s1, 1);
  }
}
