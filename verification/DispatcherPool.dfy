/**
 The dispatcher pool of `rapi_core/src/priority.cpp` as an interleaving step system.

 A step is one critical section of `stateChangeMutex_` (or of `startedMutex_`), or one
 notification issued outside a lock. A thread blocked on a condition variable is either
 un-notified or notified; a notified thread re-tests its predicate under the lock, and any
 blocked thread may also wake spuriously. One controlling thread calls `start`,
 `waitForIdle`, `stop` and the destructor; any other thread may call `schedule`.
 */
module DispatcherPool {
  import opened Chains
  import opened Totals

  // The identity of a scheduled callback.
  type Job = nat

  datatype Phase = START | RUNNING | STOPPING | STOPPED

  datatype Dispatcher =
    | Fresh                     // about to take the lock at the start gate
    | AwaitStart(woken: bool)   // blocked on startEvent_
    | Gated                     // through the gate, startCount_ not yet decremented
    | Counted                   // startCount_ decremented, startedEvent_ not yet notified
    | AtLoop                    // about to take the lock and test the loop condition
    | Parked(woken: bool)       // blocked on scheduleEvent_
    | Executing(job: Job, ticket: nat) // running a callback, lock released
    | Exited                    // left dispatcherLoop

  datatype Controller =
    | Idle                      // in none of the calls below
    | StartSignal               // start: state set, notify_all on startEvent_ outstanding
    | AwaitStarted(woken: bool) // start: blocked on startedEvent_ (woken: predicate to be tested)
    | AwaitIdle(woken: bool)    // waitForIdle: blocked on idleEvent_
    | AwaitDrained(woken: bool) // stop: blocked on startedEvent_
    | StopSignal                // stop: state set, notify_all on scheduleEvent_ outstanding

  /**
   The last five fields are history. `submitted` and `taken` are the callbacks ever scheduled and
   ever handed to a dispatcher, in order; a position in `taken` is the ticket of that execution
   and `finished` holds the tickets of completed ones. `intruder`: since
   the last dispatcher went to sleep, a thread that is not executing a callback has scheduled.
   `outsider`: such a thread has scheduled at some time after `start`.
   */
  datatype Pool = Pool(
    phase: Phase,
    queue: seq<Job>,
    sleeping: int,
    startCount: int,
    threads: seq<Dispatcher>,
    main: Controller,
    submitted: seq<Job>,
    taken: seq<Job>,
    finished: set<nat>,
    intruder: bool,
    outsider: bool
  )

  function Created(dispatcherCount: nat): Pool {
    Pool(START, [], 0, dispatcherCount, seq(dispatcherCount, _ => Fresh), Idle, [], [], {}, false, false)
  }

  datatype Action =
    | Gate(t: nat)              // lines 31-35
    | CountDown(t: nat)         // lines 36-39
    | Announce(t: nat)          // line 40
    | Loop(t: nat)              // lines 43-69 from the lock to its release
    | Wake(t: nat)              // line 51: the predicate re-tested, then as Loop
    | Return(t: nat)            // line 63: the callback ends
    | ScheduleInside(t: nat, job: Job)
    | ScheduleOutside(job: Job)
    | SpuriousDispatcher(t: nat)
    | SpuriousController
    | BeginStart                // lines 112, 118-122
    | SignalStart               // line 124
    | TestStarted               // line 126
    | BeginIdleWait             // lines 73-75
    | TestIdle
    | BeginStop                 // lines 138-150
    | TestDrained
    | SignalStopped             // line 151

  // ----- notifications -----

  function WakeParked(d: Dispatcher): Dispatcher { if d.Parked? then Parked(true) else d }

  function WakeGate(d: Dispatcher): Dispatcher { if d.AwaitStart? then AwaitStart(true) else d }

  function AllWoken(threads: seq<Dispatcher>): (r: seq<Dispatcher>)
    ensures |r| == |threads|
    ensures forall i :: 0 <= i < |r| ==> r[i] == WakeParked(threads[i])
  {
    seq(|threads|, i requires 0 <= i < |threads| => WakeParked(threads[i]))
  }

  function AllStarted(threads: seq<Dispatcher>): (r: seq<Dispatcher>)
    ensures |r| == |threads|
    ensures forall i :: 0 <= i < |r| ==> r[i] == WakeGate(threads[i])
  {
    seq(|threads|, i requires 0 <= i < |threads| => WakeGate(threads[i]))
  }

  // notify_one on idleEvent_: only the controller ever waits on it.
  function SignalIdle(main: Controller): Controller {
    if main.AwaitIdle? then AwaitIdle(true) else main
  }

  // notify_one on startedEvent_, which start and stop share.
  function SignalStarted(main: Controller): Controller {
    match main
    case AwaitStarted(_) => AwaitStarted(true)
    case AwaitDrained(_) => AwaitDrained(true)
    case _ => main
  }

  // ----- critical sections -----

  /** The dispatcher loop from a held lock to its release: take a callback, park, or leave. */
  function LoopTop(s: Pool, t: nat): Pool
    requires t < |s.threads|
  {
    if s.queue != [] then
      s.(queue := s.queue[1..], taken := s.taken + [s.queue[0]],
         threads := s.threads[t := Executing(s.queue[0], |s.taken|)])
    else if s.phase == RUNNING then
      s.(sleeping := s.sleeping + 1, threads := s.threads[t := Parked(false)],
         main := if s.sleeping + 1 == |s.threads| then SignalIdle(s.main) else s.main)
    else
      s.(sleeping := s.sleeping + 1, threads := s.threads[t := Exited], main := SignalStarted(s.main))
  }

  function WakeUp(s: Pool, t: nat): Pool
    requires t < |s.threads|
  {
    if s.queue != [] || s.phase != RUNNING then
      LoopTop(s.(sleeping := s.sleeping - 1, intruder := false), t)
    else
      s.(threads := s.threads[t := Parked(false)])
  }

  function Push(s: Pool, job: Job): Pool {
    s.(queue := s.queue + [job], submitted := s.submitted + [job],
       threads := if |s.queue| == 0 then AllWoken(s.threads) else s.threads)
  }

  function PushOutside(s: Pool, job: Job): Pool {
    Push(s, job).(intruder := s.intruder || s.sleeping == |s.threads|,
                  outsider := s.outsider || s.phase != START)
  }

  predicate Drained(s: Pool) { s.queue == [] && s.sleeping == |s.threads| }

  function FinishStop(s: Pool): Pool {
    if Drained(s) then s.(phase := STOPPED, main := StopSignal)
    else s.(phase := STOPPING, main := AwaitDrained(false))
  }

  predicate Enabled(s: Pool, a: Action) {
    match a
    case Gate(t) => t < |s.threads| && (s.threads[t] == Fresh || s.threads[t] == AwaitStart(true))
    case CountDown(t) => t < |s.threads| && s.threads[t] == Gated
    case Announce(t) => t < |s.threads| && s.threads[t] == Counted
    case Loop(t) => t < |s.threads| && s.threads[t] == AtLoop
    case Wake(t) => t < |s.threads| && s.threads[t] == Parked(true)
    case Return(t) => t < |s.threads| && s.threads[t].Executing?
    // after STOPPED the call ends in the error callback, which does not return
    case ScheduleInside(t, _) => t < |s.threads| && s.threads[t].Executing? && s.phase != STOPPED
    case ScheduleOutside(_) => s.phase != STOPPED
    case SpuriousDispatcher(t) =>
      t < |s.threads| && (s.threads[t] == Parked(false) || s.threads[t] == AwaitStart(false))
    case SpuriousController =>
      s.main == AwaitStarted(false) || s.main == AwaitIdle(false) || s.main == AwaitDrained(false)
    case BeginStart => s.main == Idle && s.phase == START
    case SignalStart => s.main == StartSignal
    case TestStarted => s.main == AwaitStarted(true)
    case BeginIdleWait => s.main == Idle
    case TestIdle => s.main == AwaitIdle(true)
    case BeginStop => s.main == Idle && s.phase == RUNNING
    case TestDrained => s.main == AwaitDrained(true)
    case SignalStopped => s.main == StopSignal
  }

  function Apply(s: Pool, a: Action): Pool
    requires Enabled(s, a)
  {
    match a
    case Gate(t) => s.(threads := s.threads[t := if s.phase == RUNNING then Gated else AwaitStart(false)])
    case CountDown(t) => s.(threads := s.threads[t := Counted], startCount := s.startCount - 1)
    case Announce(t) => s.(threads := s.threads[t := AtLoop], main := SignalStarted(s.main))
    case Loop(t) => LoopTop(s, t)
    case Wake(t) => WakeUp(s, t)
    case Return(t) => s.(threads := s.threads[t := AtLoop], finished := s.finished + {s.threads[t].ticket})
    case ScheduleInside(t, job) => Push(s, job)
    case ScheduleOutside(job) => PushOutside(s, job)
    case SpuriousDispatcher(t) =>
      s.(threads := s.threads[t := if s.threads[t].Parked? then Parked(true) else AwaitStart(true)])
    case SpuriousController =>
      s.(main := match s.main
                 case AwaitStarted(_) => AwaitStarted(true)
                 case AwaitIdle(_) => AwaitIdle(true)
                 case _ => AwaitDrained(true))
    case BeginStart => s.(phase := RUNNING, main := StartSignal)
    case SignalStart => s.(threads := AllStarted(s.threads), main := AwaitStarted(true))
    case TestStarted => s.(main := if s.startCount == 0 then Idle else AwaitStarted(false))
    case BeginIdleWait => s.(main := if s.sleeping == |s.threads| then Idle else AwaitIdle(false))
    case TestIdle => s.(main := if s.sleeping == |s.threads| then Idle else AwaitIdle(false))
    case BeginStop => FinishStop(s)
    case TestDrained => FinishStop(s)
    case SignalStopped => s.(threads := AllWoken(s.threads), main := Idle)
  }

  ghost predicate Moves(s: Pool, a: Action, s': Pool) { Enabled(s, a) && s' == Apply(s, a) }

  ghost predicate IsRun(states: seq<Pool>, actions: seq<Action>) { IsChain(Moves, states, actions) }

  ghost predicate Reachable(dispatcherCount: nat, s: Pool) {
    exists states, actions ::
      IsRun(states, actions) && states[0] == Created(dispatcherCount) && states[|actions|] == s
  }

  // ----- the invariant -----

  function Asleep(d: Dispatcher): nat { if d.Parked? || d.Exited? then 1 else 0 }

  function Unstarted(d: Dispatcher): nat { if d.Fresh? || d.AwaitStart? || d.Gated? then 1 else 0 }

  /** Sleep and start accounting. */
  ghost predicate Counts(s: Pool) {
    s.sleeping == Total(s.threads, Asleep) && s.startCount == Total(s.threads, Unstarted)
  }

  /** Conservation in order: nothing is lost, repeated or overtaken in the queue. */
  ghost predicate Fifo(s: Pool) { s.submitted == s.taken + s.queue }

  /** Every callback handed out is either completed or being executed by exactly one dispatcher. */
  ghost predicate Ledger(s: Pool) {
    && (forall t :: 0 <= t < |s.threads| && s.threads[t].Executing? ==>
          && s.threads[t].ticket < |s.taken|
          && s.taken[s.threads[t].ticket] == s.threads[t].job
          && s.threads[t].ticket !in s.finished)
    && (forall t, u :: 0 <= t < u < |s.threads| && s.threads[t].Executing? && s.threads[u].Executing? ==>
          s.threads[t].ticket != s.threads[u].ticket)
    && (forall k :: k in s.finished ==> k < |s.taken|)
    && (forall k: nat :: k < |s.taken| ==> k in s.finished || exists t :: Executes(s, t, k))
  }

  ghost predicate Executes(s: Pool, t: int, ticket: nat) {
    0 <= t < |s.threads| && s.threads[t].Executing? && s.threads[t].ticket == ticket
  }

  /** No lost wakeup, although `schedule` signals only on the change from empty to one. */
  ghost predicate NoSleeperWithWork(s: Pool) {
    s.queue != [] ==> forall t :: 0 <= t < |s.threads| ==> s.threads[t] != Parked(false)
  }

  /** Which threads may be where in each phase. */
  ghost predicate Phased(s: Pool) {
    && (forall t :: 0 <= t < |s.threads| ==>
          && (s.phase == START ==> s.threads[t].Fresh? || s.threads[t].AwaitStart?)
          && (s.threads[t] == AwaitStart(false) ==> s.phase == START || s.main == StartSignal)
          && (s.threads[t].Exited? ==> s.phase == STOPPING || s.phase == STOPPED)
          && (s.phase == STOPPED && s.main != StopSignal ==> s.threads[t] != Parked(false)))
    && (s.phase == STOPPING || s.phase == STOPPED ==> s.startCount == 0)
    && (s.phase == STOPPED ==> Drained(s))
  }

  ghost predicate Controlled(s: Pool) {
    && (s.main == StartSignal || s.main.AwaitStarted? ==> s.phase == RUNNING)
    && (s.phase == RUNNING && s.main != StartSignal && !s.main.AwaitStarted? ==> s.startCount == 0)
    && (s.main.AwaitIdle? ==> s.phase == START || s.phase == RUNNING)
    && (s.main.AwaitDrained? <==> s.phase == STOPPING)
    && (s.main == StopSignal ==> s.phase == STOPPED)
    && (s.main == AwaitIdle(false) ==> s.sleeping != |s.threads|)
    && (s.main == AwaitDrained(false) ==> !Drained(s))
  }

  /** A `start` still blocked after the last count-down has a notification on its way. */
  ghost predicate StartCovered(s: Pool) {
    s.main == AwaitStarted(false) && s.startCount == 0 ==>
      exists t :: 0 <= t < |s.threads| && s.threads[t] == Counted
  }

  /** Once every dispatcher is asleep, only an outsider can have put work in the queue. */
  ghost predicate Intruded(s: Pool) {
    && (s.sleeping == |s.threads| ==> (s.queue != [] <==> s.intruder))
    && (s.intruder ==> s.sleeping == |s.threads|)
    && (!s.outsider ==> !s.intruder)
  }

  ghost predicate Inv(s: Pool) {
    Counts(s) && Fifo(s) && Ledger(s) && NoSleeperWithWork(s) && Phased(s) && Controlled(s) && StartCovered(s) &&
    Intruded(s) && |s.threads| > 0
  }
}
