# The actor runtime of rapi_core and the YAML tree, modelled and proved

`rapi_core` is a small concurrent message-passing kernel. A pool of dispatcher threads
(`Priority`) runs actors, each actor owns a port, and ports are joined by a broadcast network. On
top of that runs a protocol that starts and stops a tree of actors. Its correctness rests on
hand-written flags, counters and wakeups. The configuration of the program comes from a YAML tree
that one loop builds and another searches. This project models both and proves what they promise,
for any number of threads, actors, ports and events and for every interleaving.

## How the files fit together

* **Dispatcher pool.** `DispatcherPool.dfy` is the pool as a step system. One step is one critical
  section or one notification. A dispatcher that waits is blocked, or notified and not yet awake,
  and may wake spuriously at any time. `DispatcherPoolSafety.dfy` proves the invariant and the
  safety theorems. `DispatcherPoolProgress.dfy` proves when `start`, `stop` and the joins end, and
  `DispatcherPoolRunning.dfy` that a running pool comes to the end of its queue.
  `Priority.dfy` is the class with its fields; each method does exactly the step of the system
  that it stands for.
* **Actors, ports, network.** `PortModel.dfy` has a port's critical sections as functions and the
  invariant of a port and its consumer; `PortTable.dfy` says what the fold of its commands means.
  `Runtime.dfy` puts actors, ports, the network and publications under way on top of the pool,
  as one step system. `RuntimeTokens.dfy`, `RuntimePorts.dfy`, `RuntimeBroadcast.dfy` and
  `RuntimeTypes.dfy` show what every step keeps, and `RuntimeTheorems.dfy` states the results.
  `RuntimeLoad.dfy` measures the work left, and `RuntimeProgress.dfy` concludes that every
  publication is dispatched.
  `ActorMailbox.dfy` and `PortAndNetwork.dfy` are the classes with their loops; what other threads
  do whenever a loop has released its mutex is an arbitrary finite list of arrivals.
* **Start and stop waves.** `LifeCycle.dfy` is the protocol over an arbitrary tree, with messages
  delivered in any order. `LifeCycleInvariant.dfy`, `LifeCycleSteps.dfy` and
  `LifeCycleTheorems.dfy` prove safety and termination. `LifeCycleActor.dfy` is the class with the
  handlers, and `Core.dfy` is `Core::run`, cut where it blocks.
* **Early `Stop`.** `LifeCyclePorts.dfy` is the protocol with the order that the ports keep and with
  handlers cut at each publication. `LifeCycleSettled.dfy` sees cut handlers as whole ones, and
  `LifeCycleMirror.dfy` relates those to the unordered protocol. `LifeCycleSpine.dfy` is about the
  part of the tree above the first branching. `EarlyStopSafe.dfy` and `EarlyStopOvertakes.dfy`
  prove the two halves of `LifeCycleEarlyStop.dfy`: exactly when an early `Stop` breaks the wave.
* **Locks.** `LockOrder.dfy` lists the nested sections of every role, shows that they ascend in one
  rank, that no threads wait for mutexes in a cycle, and exactly when the drain of `stop`, which is
  waited for with `stopMutex_` held, can hang.
* **YAML.** `YamlTree.dfy` (nodes and trees), `YamlParse.dfy` (events, the parser as a fold, the
  round trip), `YamlLookup.dfy` (access paths), `YamlFind.dfy` (what a path means in a document,
  told without the tree), `YamlWrapper.dfy` (the class with its loops).
* `Chains.dfy` has the runs of a step relation, `Totals.dfy` sums a measure over a sequence, and
  `Options.dfy` has the optional value.

## Assumptions

* There is at least one dispatcher, and the error callback does not return
  (common/cxx/adstutil_cxx/include/adstutil_cxx/error_handler.hpp:22-26): a call that reaches it
  ends with the status `Fatal` and the rest of the source function is not carried out.
* User callbacks terminate. They may listen, unlisten and publish; a step of a callback is one such
  call.
* `start`, `waitForIdle` and `stop` are called by one thread.
* Every actor type occurs once in the tree, for messages are addressed by type, and the tree is
  fixed before the start request.
* For the waves, `Stop` is published once and not before the root is STARTED.
* Publications are numbered in the order in which the network's mutex is taken. The class methods
  of a port that consume events require the numbers they get to increase;
  `RuntimeTheorems.TotalOrder` proves that the network hands them out so.

## Where the code falls short of its promises

* `waitForIdle` wakes on the sleep counter alone (rapi_core/src/priority.cpp:75). It returns with
  work queued exactly if a thread outside the pool scheduled while all dispatchers slept
  (`WaitForIdleExact`, `IntruderDefeatsIdle`).
* `stop` can return if and only if the pool is not hopeless, that is, unless work is queued after
  the last dispatcher has left its loop. Only a schedule from outside the pool can bring that
  about, it is then final, and it can happen (`StopReturnsExactly`, `HopelessOrigin`,
  `HopelessForever`, `HopelessIsReachable`). Without such a schedule every run stops (`EveryRunStops`).
* `run` calls `stop` with `stopMutex_` held (rapi_core/src/core.cpp:13-15), and the listener for the
  root's PrivStopCnf takes that mutex (rapi_core/include/core/core.hpp:63). Once `run` drains the
  pool, the system can come to its end if and only if no dispatcher is still to hear such a
  confirmation (`DrainEndsExactly`); the hang can be reached (`HangIsReachable`). In supported runs
  it cannot, for nothing is left to be heard (`NothingHeardDuringDrain`).
* `unlistenAll` does not schedule its port (rapi_core/include/core/port.hpp:107-116). Its command is
  served if and only if the port was scheduled when it was called, and otherwise stays
  (`UnlistenAllServedExactly`, `StrandedStays`, `StrandedUnlistenAll`). No other work is left
  behind (`NoStrandedWork`).
* The guard of `publish` asks only whether the publisher is STARTED
  (rapi_core/include/core/actor.hpp:100). A `Stop` published before the root is STARTED may end
  `run()` over actors that are not stopped if and only if, at that moment, a child of the first
  actor with several children, going down from the root, has not published its PrivStartCnf
  (`EarlyStopExactly`). That all these children are STARTED is not enough, for an actor is STARTED
  while it runs its start callbacks and confirms only afterwards
  (rapi_core/include/core/impl/actor_life_cycle.hpp:74-88, `StartedIsNotEnough`). A start callback
  may thus publish `Stop` if and only if no actor above its own has another child
  (`CallBackStopExactly`); the root's always may (rapi_core/test/start_stop/start_stop.cpp:126).
* A leaf runs its stop callbacks while it is still STARTED, an actor with children when it is
  already STOPPED (rapi_core/include/core/impl/actor_life_cycle.hpp:104-113,
  rapi_core/include/core/actor.hpp:426-430), so a stop callback may publish if and only if its
  actor is a leaf (`CallBacksPublishExactly`).
* A bare scalar document is taken for a key and leaves the tree empty (`RoundTripExactly`). The
  top node has the empty key, so a path without a leading separator finds nothing
  (`RelativePathFindsNothing`), among them the one at common/cxx/adstlog_cxx/src/adstlog.cpp:45.
  A node whose value is the text of the not-found constant is reported as missing (`GetString`).

## Model

| member | source | states |
|---|---|---|
| `DispatcherPoolSafety.InvKept` | rapi_core/src/priority.cpp:27-164 | every critical section and notification of the pool, spurious wakeups included, keeps the whole invariant: exact counters, queue order, one ticket per execution, no un-notified sleeper with work |
| `DispatcherPoolSafety.ReachableInv` | rapi_core/src/priority.cpp:15-164 | the invariant holds in every reachable state of all four phases |
| `DispatcherPoolSafety.NoLostWakeup` | rapi_core/src/priority.cpp:43-58 | although `schedule` signals only when the size becomes 1, a non-empty queue means that every parked dispatcher can wake; no wakeup of `waitForIdle` or `stop` is lost either |
| `DispatcherPoolSafety.SleepAccounting` | rapi_core/src/priority.cpp:43-69 | `sleepingCount_` is the number of parked and exited dispatchers, never wraps, and reaches the pool size only with an empty queue unless an outsider schedules |
| `DispatcherPoolSafety.StopDrains` | rapi_core/src/priority.cpp:136-152 | in STOPPED the queue is empty, nothing executes, and exactly the callbacks ever scheduled have run, each taken in order and once |
| `DispatcherPoolSafety.WaitForIdleExact` | rapi_core/src/priority.cpp:71-77 | when `waitForIdle` returns all dispatchers sleep, and the queue is empty iff no outsider scheduled while they all slept |
| `DispatcherPoolSafety.IntruderDefeatsIdle` | rapi_core/src/priority.cpp:71-77 | the failing family: an outside schedule while all sleep makes `waitForIdle` return with work queued |
| `DispatcherPoolProgress.IntruderIsReachable` | rapi_core/src/priority.cpp:71-77 | `waitForIdle` returning with work queued can be reached with one dispatcher |
| `DispatcherPoolProgress.StartProgress` | rapi_core/src/priority.cpp:116-127 | `start` never hangs: while it is blocked un-notified some dispatcher has a step of its own |
| `DispatcherPoolProgress.StartShrinks` | rapi_core/src/priority.cpp:27-42 | what `start` waits for never grows, and each of those steps lessens it: at most three steps per dispatcher |
| `DispatcherPoolProgress.StartEnds` | rapi_core/src/priority.cpp:116-127 | with nothing left to wait for, `start` has been notified and returns with its next test |
| `DispatcherPoolProgress.StoppingIsBounded` | rapi_core/src/priority.cpp:43-69 | while STOPPING no dispatcher goes back to sleep: a run that stays in STOPPING is bounded by the work left plus a constant for each schedule and spurious wakeup |
| `DispatcherPoolProgress.NextStep` | rapi_core/src/priority.cpp:136-152 | every STOPPING state that is not hopeless has an enabled step that leads towards STOPPED |
| `DispatcherPoolProgress.StopReturnsExactly` | rapi_core/src/priority.cpp:136-152 | `stop` can still return iff the pool is not hopeless |
| `DispatcherPoolProgress.StopReturnsUndisturbed` | rapi_core/src/priority.cpp:136-152 | if no thread outside the pool scheduled after `start`, `stop` can return |
| `DispatcherPoolProgress.EveryRunStops` | rapi_core/src/priority.cpp:136-152 | from a state that is not hopeless every run in which no thread outside the pool schedules reaches STOPPED: one that has not yet is bounded by the work it began with plus a constant for each disturbance and can go on |
| `DispatcherPoolProgress.HopelessOrigin` | rapi_core/src/priority.cpp:154-164 | only an outside schedule after the last dispatcher has left makes a stop hopeless |
| `DispatcherPoolProgress.HopelessForever` | rapi_core/src/priority.cpp:136-152 | a hopeless stop stays hopeless whatever happens |
| `DispatcherPoolProgress.HopelessIsReachable` | rapi_core/src/priority.cpp:136-164 | the hopeless case can be reached with one dispatcher |
| `DispatcherPoolProgress.JoinTerminates` | rapi_core/src/priority.cpp:104-107 | after `stop` has signalled, each dispatcher has left or leaves with its next step |
| `DispatcherPoolRunning.WorkIsTaken` | rapi_core/src/priority.cpp:55-66 | in every phase, whoever comes to the loop, or wakes, with work queued takes exactly the front and executes it |
| `DispatcherPoolRunning.NoWorkNoTaking` | rapi_core/src/priority.cpp:43-69 | without work a dispatcher parks while RUNNING and leaves otherwise, and hands nothing out |
| `DispatcherPoolRunning.QueueChanges` | rapi_core/src/priority.cpp:154-164 | only a schedule puts work in the queue, at its end, and only the loop takes any out; a ticket is finished by the return of its callback alone |
| `DispatcherPoolRunning.IdleTestExact` | rapi_core/src/priority.cpp:71-77 | `waitForIdle` goes on iff every dispatcher sleeps, on entry and at every later test, and otherwise waits |
| `DispatcherPoolRunning.FlagsExact` | rapi_core/src/priority.cpp:154-164 | the history flags mean what the theorems say: an outside schedule after `start`, and one made while all dispatchers slept |
| `DispatcherPoolRunning.EveryCallBackRuns` | rapi_core/src/priority.cpp:43-69 | every scheduled callback runs: while RUNNING a run is bounded by the work left and a constant for each nudge, and until the queue is empty, every ticket finished and every dispatcher asleep a step can follow |
| `DispatcherPoolRunning.ServedWakesIdleWait` | rapi_core/src/priority.cpp:45-52 | and then a blocked `waitForIdle` has been notified and returns with its next test |
| `PriorityClass.Priority.constructor` | rapi_core/src/priority.cpp:15-25 | a new pool: START, all threads fresh, the invariant holds |
| `PriorityClass.Priority.PassGate` | rapi_core/src/priority.cpp:31-35 | the wait for RUNNING is the Gate step of the system |
| `PriorityClass.Priority.ReportStarted` | rapi_core/src/priority.cpp:36-39 | counting down under `startedMutex_` is the CountDown step |
| `PriorityClass.Priority.AnnounceStarted` | rapi_core/src/priority.cpp:40-42 | the notification after it is the Announce step |
| `PriorityClass.Priority.RunLoop` | rapi_core/src/priority.cpp:43-69 | one test of the loop: with work queued, in any phase, takes the front and runs it; else parks while RUNNING, and otherwise leaves and signals the stopper |
| `PriorityClass.Priority.ResumeLoop` | rapi_core/src/priority.cpp:51-53 | a notified sleeper blocks again while its predicate is false, else goes on with the loop in the same section: with work queued it takes the front and runs it |
| `PriorityClass.Priority.CallBackReturns` | rapi_core/src/priority.cpp:63-64 | the end of a callback discharges its ticket |
| `PriorityClass.Priority.Schedule` | rapi_core/src/priority.cpp:154-164 | appends and wakes all sleepers on the first push; refused iff STOPPED, and never when a callback calls |
| `PriorityClass.Priority.Start` | rapi_core/src/priority.cpp:116-123 | refused iff not in START, else enters RUNNING |
| `PriorityClass.Priority.NotifyStart` | rapi_core/src/priority.cpp:124 | wakes the threads that wait at the gate |
| `PriorityClass.Priority.TestAllStarted` | rapi_core/src/priority.cpp:125-126 | the wait ends iff every thread has counted down |
| `PriorityClass.Priority.WaitForIdle` | rapi_core/src/priority.cpp:71-77 | goes on iff every dispatcher is parked or has left |
| `PriorityClass.Priority.Stop` | rapi_core/src/priority.cpp:136-150 | refused iff not RUNNING; else STOPPED at once if drained, or blocked in STOPPING |
| `PriorityClass.Priority.NotifyStopped` | rapi_core/src/priority.cpp:151 | wakes the sleepers left in STOPPED |
| `PortModel.IssueKeeps` | rapi_core/include/core/port.hpp:107-116 | giving a port a command keeps its invariant, whatever its consumer is doing: that command is the last of the queue, and all but `unlistenAll` schedule the port |
| `PortModel.EnqueueKeeps` | rapi_core/include/core/port.hpp:259-290 | handing a port an event keeps its invariant and appends the publication, with its number and its type, to what it has received |
| `PortModel.NextCommandKeeps` | rapi_core/src/port.cpp:17-23 | popping takes the oldest command and keeps the split of the issued commands into carried out, in hand and queued |
| `PortModel.RunPoppedKeeps` | rapi_core/include/core/port.hpp:235-255 | carrying out a command advances the fold by one, or begins the registration of a new type |
| `PortModel.RegisteredKeeps` | rapi_core/include/core/port.hpp:248-254 | finishing a listen for a new type advances the fold and records the registration |
| `PortModel.CountEventsKeeps` | rapi_core/src/port.cpp:34 | with no command left the consumer goes on to pop iff an event is queued and fewer than the bound were consumed, and then every earlier command is carried out; else it leaves |
| `PortModel.PopEventKeeps` | rapi_core/src/port.cpp:36-40 | popping moves the oldest event into the hand of the consumer, and no call of it has been made yet |
| `PortModel.CallKeeps` | rapi_core/include/core/port.hpp:284-287 | calling one listener keeps the calls distinct and the rest still to do |
| `PortModel.EndEventKeeps` | rapi_core/src/port.cpp:42-43 | the end of a dispatch counts one more event consumed and goes back to the commands |
| `PortModel.LeaveKeeps` | rapi_core/src/port.cpp:45-51 | the final section leaves queued work announced, or the port unscheduled with nothing queued |
| `PortTable.FoldIsLastWord` | rapi_core/include/core/impl/async_call_back_vector.hpp:26-40 | the callback table holds a handle, and under it a callback, exactly when the last command about that handle says so |
| `PortTable.UnlistenedStaysOut` | rapi_core/include/core/port.hpp:292-307 | a removed handle stays out until it is listened to again |
| `PortTable.TypeStays` | rapi_core/include/core/port.hpp:244-250 | a type once listened to keeps its table entry, so it is never registered anew |
| `RuntimeTheorems.SoundKept` | rapi_core/src/actor.cpp:10-80 | every step of the runtime, in any interleaving, keeps the invariant over pool, actors, ports, network and publications |
| `RuntimeTheorems.RuntimeSound` | rapi_core/src/actor.cpp:10-80 | the invariant holds in every reachable state, and the pool inside the runtime only takes reachable states |
| `RuntimeTheorems.MutualExclusion` | rapi_core/src/actor.cpp:49-66 | no two dispatchers run the same actor, and a running actor is not queued |
| `RuntimeTheorems.ActorTokenExact` | rapi_core/src/actor.cpp:10-47 | `scheduled_` iff exactly one token is queued or running; under construction it is set with no token; a non-empty mailbox implies it |
| `RuntimeTheorems.NoStrandedWork` | rapi_core/src/port.cpp:31-64 | an event, or a command other than unlistenAll, is going to be served: its port is in the mailbox or being consumed, and the owner has a live token or is under construction, for every bound passed to `consume`; a port that is not served holds only unlistenAll commands |
| `RuntimeTheorems.ServedExactly` | rapi_core/src/port.cpp:45-63 | a port is going to be consumed exactly when its `scheduled_` is set |
| `RuntimeTheorems.UnlistenAllServedExactly` | rapi_core/include/core/port.hpp:107-116 | an unlistenAll command is served if and only if the port was scheduled when it was called |
| `RuntimeTheorems.StrandedStays` | rapi_core/include/core/port.hpp:107-116 | until something else schedules the port, its commands stay and its table does not change |
| `RuntimeTheorems.StrandedUnlistenAll` | rapi_core/include/core/port.hpp:107-116 | such a stranded command can be reached |
| `RuntimeTheorems.GiveExact` | rapi_core/include/core/port.hpp:228-307 | a command given to a port is the last of its queue, and no other port, stage or registration changes |
| `RuntimeTheorems.ProducersAreFree` | rapi_core/include/core/port.hpp:228-307 | before STOPPED nothing keeps a thread from giving a command or ending a construction, nor from publishing while nobody else publishes |
| `RuntimeTheorems.CtorExact` | rapi_core/src/actor.cpp:21-39 | the end of a construction gives the actor one token exactly if mail has come, and lowers its flag otherwise |
| `RuntimeTheorems.ReadyToDtor` | rapi_core/src/actor.cpp:41-47 | what `waitForReadyToDtor` waits for: no token, no mail, port unscheduled, nobody inside |
| `RuntimeTheorems.CheckThenPop` | rapi_core/src/port.cpp:34-40 | the size test and the pop are separate sections, yet the queue is never empty at the pop |
| `RuntimeTheorems.PublicationAdvances` | rapi_core/include/core/network.hpp:64-85 | a publication by a dispatcher can always hand over its next event or end |
| `RuntimeTheorems.DispatcherAdvances` | rapi_core/src/port.cpp:13-54 | a dispatcher inside an actor can take its next step whenever that step does not need the network or the network is free; a publication by a dispatcher can always advance |
| `RuntimeTheorems.PublishTargets` | rapi_core/include/core/network.hpp:64-85 | a publication is addressed to exactly the ports registered for its type when the mutex is taken |
| `RuntimeTheorems.TotalOrder` | rapi_core/include/core/network.hpp:64-85 | what a port has dispatched, has in hand and has queued is the one global publish order restricted to the publications addressed to it: none lost, repeated or reordered |
| `RuntimeTheorems.SameOrder` | rapi_core/include/core/network.hpp:64-85 | two ports dispatch their common events in the same order |
| `RuntimeTheorems.EventTypesExact` | rapi_core/include/core/port.hpp:267-287 | every event queued or being dispatched has the number and the type of a publication addressed to the port |
| `RuntimeTheorems.DispatchTable` | rapi_core/src/port.cpp:13-43 | at a dispatch the table is the fold of a prefix of the commands that contains every command issued before the event was enqueued |
| `RuntimeTheorems.EachHandleOnce` | rapi_core/include/core/port.hpp:284-287 | when a dispatch ends each handle that the table lists for the type of the publication was called exactly once for it, and no other |
| `RuntimeTheorems.UnlistenedIsNotCalled` | rapi_core/include/core/port.hpp:292-307 | a handle unlistened for the type of the publication before an event ended, in its own callback for example, is not called for a later event |
| `RuntimeTheorems.RegisteredOnce` | rapi_core/include/core/port.hpp:244-250 | outside the registering section itself, a port has a table entry for a type iff the network holds exactly one callback for that port and type |
| `RuntimeTheorems.IdleMeansInstalled` | rapi_core/src/core.cpp:7-16 | when `waitForIdle` lets `run` go on, and no outsider scheduled while all slept: dispatchers parked, actors and ports unscheduled, every listen issued so far in its table and in the network |
| `RuntimeTheorems.StartReqIsAddressed` | rapi_core/src/core.cpp:11-12 | what `run` publishes next is addressed to every port whose constructor listened to it: the root's StartReq is not lost |
| `RuntimeTheorems.StopDispatchesAll` | rapi_core/src/priority.cpp:136-152 | after `stop` every publication has been dispatched by every actor it was addressed to |
| `RuntimeLoad.OwnStepLessens` | rapi_core/src/port.cpp:31-54 | every step of the runtime that brings no work from outside lessens the work left in queues, consumers, the publication under way and the pool |
| `RuntimeProgress.EveryEventIsDispatched` | rapi_core/src/port.cpp:31-54 | with no new work a history that stays RUNNING, or STOPPING, is bounded, and until every constructed actor has dispatched all that was addressed to it, or the pool is STOPPED, a step can follow |
| `RuntimeProgress.ConsumerServesExactly` | rapi_core/src/port.cpp:34-43 | a consumer without arrivals leaves only when it has dispatched the oldest events, as many as there are but at most the bound |
| `RuntimeProgress.ConsumerServesAll` | rapi_core/src/port.cpp:31-43 | and with the network free its own steps alone bring it there |
| `ActorClass.RunOrderIsFifo` | rapi_core/src/actor.cpp:49-66 | the consumer runs what waited and then the arrivals, batch by batch in order; none lost, none twice |
| `ActorClass.Actor.Schedule` | rapi_core/src/actor.cpp:68-80 | appends; the pool hears of the actor only when the flag goes up, and refuses iff it is STOPPED |
| `ActorClass.Actor.CtorFinished` | rapi_core/src/actor.cpp:21-39 | callbacks that came during construction get their one token now, else the flag goes down |
| `ActorClass.Actor.Consume` | rapi_core/src/actor.cpp:49-66 | runs until the mailbox is empty, in the order `RunOrderIsFifo` speaks of; the flag goes down only then, and no destructor is left waiting un-notified |
| `ActorClass.Actor.WaitForReadyToDtor` | rapi_core/src/actor.cpp:41-47 | goes on iff no token is left, and otherwise waits un-notified only while a consumer is still to come to its end, which notifies it |
| `PortClass.Network.NewHandle` | rapi_core/include/core/network.hpp:128-133 | handles are fresh |
| `PortClass.Network.Listen` | rapi_core/include/core/network.hpp:45-122 | a first registration overwrites nobody and keeps every port listed at most once |
| `PortClass.Publish` | rapi_core/include/core/network.hpp:64-85 | every port listed for the type is handed the event once, with its number and its type, no other port is, whatever the iteration order; fails only if the pool is STOPPED |
| `PortClass.HandedOnce` | rapi_core/include/core/network.hpp:82-84 | in whatever order the listeners are visited, each target gets the event once |
| `PortClass.Port.ScheduleOnOwner` | rapi_core/src/port.cpp:57-63 | the owner gets the port's callback iff the flag was down, and the pool gets the owner iff the owner's was down too; refused only by a STOPPED pool |
| `PortClass.Port.Listen` | rapi_core/include/core/port.hpp:228-257 | queues the command and gives the owner a token iff the port had none |
| `PortClass.Port.Unlisten` | rapi_core/include/core/port.hpp:292-307 | queues the command and gives the owner a token iff the port had none |
| `PortClass.Port.UnlistenAll` | rapi_core/include/core/port.hpp:107-116 | queues the command and schedules nothing |
| `PortClass.Port.Schedule` | rapi_core/include/core/port.hpp:259-290 | queues the event, with its number and its type, and gives the owner one token if the port had none |
| `PortClass.Port.Execute` | rapi_core/include/core/port.hpp:235-255 | a command carried out keeps the port invariant and the one-registration link between port and network |
| `PortClass.Port.ProcessCommandsAndGetQueuedEventsCount` | rapi_core/src/port.cpp:13-29 | under any arrivals: ends with no command queued, the returned count is the queue size of that very section, nothing received is lost |
| `PortClass.Port.CallListeners` | rapi_core/include/core/port.hpp:284-287 | every listener in the table is called exactly once for the event, under any arrivals |
| `PortClass.Port.Serve` | rapi_core/src/port.cpp:34-43 | serves at most `max` events; alone, exactly the oldest ones, until none is left or `max` is reached |
| `PortClass.Port.Consume` | rapi_core/src/port.cpp:31-54 | received events are dispatched in order and counted exactly, the port stays scheduled iff something is queued, and alone it ends with the table equal to the fold of all commands |
| `LifeCycleTheorems.WaveSafety` | rapi_core/include/core/actor.hpp:401-436 | an actor leaves CTOR_FINISHED only when all its descendants have, is STARTED before the stop only when all are STARTED, and STOPPED only when all are STOPPED |
| `LifeCycleTheorems.CallBacksOnce` | rapi_core/include/core/impl/actor_life_cycle.hpp:61-118 | own start and stop callbacks have run exactly once, or not at all before the state is reached |
| `LifeCycleTheorems.WavesNeverMix` | rapi_core/include/core/actor.hpp:406-436 | while a message of the start wave is in flight nothing of the stop wave is |
| `LifeCycleTheorems.CounterBounds` | rapi_core/include/core/actor.hpp:407-409 | `childrenCnfCount_` stays below the number of children and is zero at rest |
| `LifeCycleTheorems.CounterExact` | rapi_core/include/core/actor.hpp:406-425 | in an actor that waits `childrenCnfCount_` is the number of children confirmed in that wave, else it is zero |
| `LifeCycleTheorems.NothingHeardDuringDrain` | rapi_core/include/core/core.hpp:60-67 | in a supported run no message is left once the stop wait may end, so the listener that takes `stopMutex_` does not come again |
| `LifeCycleTheorems.StoppingActorIsStarted` | rapi_core/include/core/impl/actor_life_cycle.hpp:92-118 | whoever is asked to stop, or counts a stop, is STARTED |
| `LifeCycleTheorems.GuardExact` | rapi_core/include/core/actor.hpp:97-105 | `Stop` and a public start confirmation leave an actor in STARTED and in no other state, everything else in the protocol in any |
| `LifeCycleTheorems.CallBacksPublishExactly` | rapi_core/include/core/impl/actor_life_cycle.hpp:100-117 | guarded publications of a stop callback pass if and only if the actor is a leaf; those of a start callback always pass |
| `LifeCycleTheorems.RunEndsStopped` | rapi_core/include/core/core.hpp:60-67 | `run()` leaves its stop wait only with every actor STOPPED, both callback lists run once, counters zero and nothing in flight |
| `LifeCycleTheorems.WavesTerminate` | rapi_core/include/core/impl/actor_life_cycle.hpp:61-118 | every supported run over n actors has at most 8n steps, in any delivery order |
| `LifeCycleTheorems.StartProgress` | rapi_core/include/core/impl/actor_life_cycle.hpp:61-90 | until the root is STARTED some message can be delivered |
| `LifeCycleTheorems.StopProgress` | rapi_core/include/core/impl/actor_life_cycle.hpp:92-118 | from the publication of `Stop` until `run()` may leave some message can be delivered |
| `LifeCycleTheorems.OwnPublicationsPass` | rapi_core/include/core/actor.hpp:93-108 | what the handlers publish passes the guard in the state they leave the actor in |
| `LifeCycleEarlyStop.EarlyStopExactly` | rapi_core/include/core/actor.hpp:100 | published in any state of the start wave on any tree, with messages handled per port in the order of publication and handlers cut at each publication, `Stop` may end `run()` over actors that are not STOPPED if and only if a child of the first actor with several children has not published its PrivStartCnf |
| `LifeCycleEarlyStop.HaltExactly` | rapi_core/include/core/actor.hpp:97-105 | in the ordered protocol too a STARTED actor can publish `Stop` and nobody else can |
| `LifeCycleEarlyStop.RootStartedIsEnough` | rapi_core/include/core/core.hpp:55-58 | with the root STARTED these children have confirmed: the supported use is safe in the protocol with cut handlers too |
| `LifeCycleEarlyStop.HarmlessStopGoesOn` | rapi_core/include/core/core.hpp:55-67 | after a harmless early `Stop` some actor can handle or publish a message until `run()` may leave |
| `LifeCycleEarlyStop.EarlyStopBreaksTheWave` | rapi_core/include/core/actor.hpp:100 | the harmful case can be reached: a root with two leaves, one of which starts and publishes `Stop` |
| `LifeCycleEarlyStop.StartedIsNotEnough` | rapi_core/include/core/impl/actor_life_cycle.hpp:74-88 | it can be reached with both leaves STARTED: the second publishes `Stop` in its start callback, before it confirms |
| `LifeCycleEarlyStop.CallBackStopExactly` | rapi_core/include/core/impl/actor_life_cycle.hpp:74-88 | a start callback may publish `Stop` without harm if and only if no actor above its own has another child |
| `LifeCycleSettled.ReachMirrors` | rapi_core/src/port.cpp:13-43 | up to `Stop` the protocol with ordered ports and cut handlers takes, once its handlers have published, only states of the unordered one |
| `LifeCycleSettled.SendSettles` | rapi_core/include/core/impl/actor_life_cycle.hpp:84-88 | a publication of a cut handler lets one message overtake others that are still to be published, and changes nothing else of the settled view |
| `EarlyStopSafe.StepFollows` | rapi_core/include/core/actor.hpp:406-436 | with only start confirmations on their way up the unbranched part of the tree, each handled message keeps the system like one that had started altogether |
| `EarlyStopSafe.EmitFollows` | rapi_core/include/core/impl/actor_life_cycle.hpp:84-88 | and so does each publication of a cut handler, whatever it overtakes |
| `EarlyStopSafe.HarmlessStop` | rapi_core/include/core/actor.hpp:406-436 | when the children of the fork have confirmed, `run()` leaves over STOPPED actors only, with every queue empty, wherever handlers are cut |
| `EarlyStopOvertakes.HarmfulStop` | rapi_core/include/core/actor.hpp:406-436 | when a child of the fork has not confirmed, messages can be handled so that `run()` leaves while that child was never stopped |
| `LifeCycleClass.LifeCycleActor.Publish` | rapi_core/include/core/actor.hpp:93-108 | refused with error 5 iff the state is not STARTED and the message is `Stop` or a public start confirmation |
| `LifeCycleClass.LifeCycleActor.OnStartReq` | rapi_core/include/core/impl/actor_life_cycle.hpp:61-90 | each child is asked once in order, or a leaf completes: STARTED first, then its callbacks, then public and private confirmation |
| `LifeCycleClass.LifeCycleActor.OnStopReq` | rapi_core/include/core/impl/actor_life_cycle.hpp:92-118 | each child is asked once in order, or a leaf completes: its callbacks in the old state, then STOPPED, then the confirmations |
| `LifeCycleClass.LifeCycleActor.OnStartCnf` | rapi_core/include/core/actor.hpp:406-420 | the last confirmation resets the counter and completes the start in the order state, callbacks, confirmations |
| `LifeCycleClass.LifeCycleActor.OnStopCnf` | rapi_core/include/core/actor.hpp:422-436 | the last confirmation resets the counter; the callbacks run when the actor is already STOPPED |
| `CoreClass.Core.Run` | rapi_core/src/core.cpp:9-10 | sets `running_` and starts the pool; a second `run` ends in error 4 |
| `CoreClass.Core.PassIdle` | rapi_core/src/core.cpp:11-12 | the root StartReq is sent only when every dispatcher is asleep, and once |
| `CoreClass.Core.PassStopWait` | rapi_core/src/core.cpp:13-15 | the pool is told to stop only after the root PrivStopCnf was heard, and with `stopMutex_` held |
| `CoreClass.Core.Return` | rapi_core/src/core.cpp:15-16 | `run` returns over a pool with nothing queued and nothing executing, and only then releases `stopMutex_` |
| `CoreClass.Core.OnStop` | rapi_core/include/core/core.hpp:55-58 | puts in flight exactly what the wave model delivers for Stop, in every state of the tree |
| `CoreClass.Core.OnRootStopCnf` | rapi_core/include/core/core.hpp:60-67 | ends the stop wait exactly as the wave model does, unless `run` is draining the pool: then it is blocked |
| `LockOrder.RoleAscends` | rapi_core/include/core/port.hpp:229-290 | the nested sections of dispatchers, of `Core::run` and of outside threads ascend strictly in one rank of the mutexes, whatever callbacks do |
| `LockOrder.FlattenProper` | rapi_core/include/core/network.hpp:64-85 | code that ascends releases its locks in reverse order and always takes a lock above the top one |
| `LockOrder.NoOtherDeadlock` | rapi_core/src/priority.cpp:154-164 | in every reachable state of any number of threads with work left, some thread can go on, or all is done but nobody stops the system, or the runner drains while somebody is still to take `stopMutex_` |
| `LockOrder.DrainEndsExactly` | rapi_core/src/core.cpp:13-15 | once the runner has taken `stopMutex_` for the drain, the system can come to its end iff nobody is still to hear a root PrivStopCnf |
| `LockOrder.GoodDrainNeverSticks` | rapi_core/src/priority.cpp:136-152 | in that good case, wherever any scheduling leads, somebody can go on with less left to do until all is done |
| `LockOrder.BadDrainHangs` | rapi_core/include/core/core.hpp:60-67 | in the bad case the system gets into a state in which nobody can go on |
| `LockOrder.HangIsReachable` | rapi_core/include/core/core.hpp:60-67 | the hang can be reached from the start with one dispatcher that hears the confirmation twice |
| `LockOrder.NoWaitingCycle` | rapi_core/src/actor.cpp:68-80 | no reachable state has threads waiting for each other in a cycle |
| `YamlTree.DecimalInjective` | common/cxx/config_cxx/src/yaml_wrapper.cpp:97-98 | the keys of different sequence positions differ |
| `YamlTree.DecimalExact` | common/cxx/config_cxx/src/yaml_wrapper.cpp:97-98 | the key of a position is the one numeral of digits without a leading zero that has this value |
| `YamlTree.TreeFrame` | common/cxx/config_cxx/include/config_cxx/yaml_wrapper.hpp:155-162 | a subtree does not change when later nodes are added elsewhere |
| `YamlParse.FlattenExtends` | common/cxx/config_cxx/src/yaml_wrapper.cpp:81-164 | reading the events of any document at any cursor adds exactly one child, whose tree is the document, changes no other node and brings the cursor back |
| `YamlParse.TreeKeepsDoc` | common/cxx/config_cxx/include/config_cxx/yaml_wrapper.hpp:155-162 | the document can be read back from its tree |
| `YamlParse.RoundTrip` | common/cxx/config_cxx/src/yaml_wrapper.cpp:81-164 | parsing the events of a document rebuilds exactly its tree: sequence children keyed by decimal position, cursor at the root, no key pending, ignored events without effect |
| `YamlParse.RoundTripExactly` | common/cxx/config_cxx/src/yaml_wrapper.cpp:141-144 | the tree is rebuilt iff the document is not a bare scalar, which is taken for a key |
| `YamlParse.RunExact` | common/cxx/config_cxx/src/yaml_wrapper.cpp:81-164 | `parse` succeeds iff the end of the stream comes, and has read exactly the events before it |
| `YamlLookup.SplitOfJoin` | common/cxx/config_cxx/src/yaml_wrapper.cpp:172-179 | splitting a joined path gives the elements back iff none holds the separator and the last is not empty |
| `YamlLookup.JoinOfSplit` | common/cxx/config_cxx/src/yaml_wrapper.cpp:172-179 | joining the elements of any path gives it back but for a separator at its end |
| `YamlLookup.ResolveReaches` | common/cxx/config_cxx/src/yaml_wrapper.cpp:181-197 | with distinct keys the keys on the way to a node resolve to that node |
| `YamlLookup.ResolveIsReal` | common/cxx/config_cxx/src/yaml_wrapper.cpp:181-197 | whatever is resolved stands at the end of a way of first matches with these keys, distinct or not |
| `YamlLookup.FirstWayResolves` | common/cxx/config_cxx/src/yaml_wrapper.cpp:181-197 | every way of first matches is resolved: the walk never goes back to a later sibling |
| `YamlLookup.DistinctTree` | common/cxx/config_cxx/src/yaml_wrapper.cpp:95-150 | distinct mapping keys give a tree with distinct sibling keys, sequences included |
| `YamlLookup.LookupFinds` | common/cxx/config_cxx/src/yaml_wrapper.cpp:166-199 | every node below the top of a document is found by joining its keys, each led by a separator, if no key holds the separator and the last is not empty |
| `YamlLookup.LookupExact` | common/cxx/config_cxx/src/yaml_wrapper.cpp:166-199 | in a document with distinct keys a lookup resolves iff its elements are the keys of some way from the root |
| `YamlLookup.RelativePathFindsNothing` | common/cxx/config_cxx/src/yaml_wrapper.cpp:166-199 | a path without a leading separator finds nothing in any parsed document |
| `YamlFind.ResolveIsFind` | common/cxx/config_cxx/src/yaml_wrapper.cpp:181-197 | the walk in the tree and the meaning of the elements in the document agree: numerals are positions, other elements the first entry with that key |
| `YamlFind.LookupIsText` | common/cxx/config_cxx/src/yaml_wrapper.cpp:166-199 | for every document and every path the lookup returns the text the path means, "YamlSequenceValue" or "YamlMappingValue" for a collection, or the not-found text |
| `YamlFind.FirstItem` | common/cxx/config_cxx/test/yaml_wrapper/yaml_wrapper_test.cpp:64 | the only item of a sequence is found under "/0" and under no other element |
| `YamlWrapperClass.YamlWrapper.Parse` | common/cxx/config_cxx/src/yaml_wrapper.cpp:81-164 | the loop with its cursor equals the fold over the events up to the end of the stream; false iff the parser fails before |
| `YamlWrapperClass.YamlWrapper.PathElements` | common/cxx/config_cxx/src/yaml_wrapper.cpp:172-179 | the elements are those of the recursive split: an empty rest at the end yields none |
| `YamlWrapperClass.YamlWrapper.GetValueImpl` | common/cxx/config_cxx/src/yaml_wrapper.cpp:166-199 | the destructive walk terminates and returns what the recursive first-match resolution of the tree returns |
| `YamlWrapperClass.YamlWrapper.GetString` | common/cxx/config_cxx/include/config_cxx/yaml_wrapper.hpp:115-120 | valid iff the path resolves and the value is not the not-found text itself |
| `YamlWrapperClass.YamlWrapper.GetBool` | common/cxx/config_cxx/include/config_cxx/yaml_wrapper.hpp:98-109 | valid iff the value is one of six spellings, and true for three of them |
| `YamlWrapperClass.ParseThenFind` | common/cxx/config_cxx/src/yaml_wrapper.cpp:81-199 | from the events of a document to the value of any of its nodes, through parser and lookup together |
| `YamlWrapperClass.ParseThenLookup` | common/cxx/config_cxx/src/yaml_wrapper.cpp:81-199 | from the events of a document to the text that any path means in it, found or not |

## Left out

- PortClass.Port.Consume: other threads change the network's table only through this port's own commands here; interleaved registrations of other ports are in `RuntimeTheorems.RegisteredOnce`.
- PortClass.Publish: as a method it runs alone; the hand-overs interleaved with other threads are in `RuntimeTheorems.TotalOrder`.
- LifeCycleTheorems.WaveSafety: only for a `Stop` published once with the root STARTED; for an earlier one see `LifeCycleEarlyStop.EarlyStopExactly`. A repeated `Stop` and children added after the start are not modelled.
- YamlWrapperClass.YamlWrapper.Parse: nodes stand in one sequence with positions in place of references, so ownership by `unique_ptr` is not captured.
- Waits made with no other mutex held (the gate, `scheduleEvent_`, `waitForIdle`, `start`) are in the pool's theorems, not in `LockOrder.dfy`.
- In the step system a section nested in another without a release between (port, owner, pool) is one step; the order of the locks themselves is the subject of `LockOrder.dfy`.
- A handler of the life cycle is one step of the wave model of `LifeCycle.dfy`, where messages arrive in any order; in `LifeCyclePorts.dfy` it is cut at each publication. Neither is built on `Runtime.dfy`.
- What callbacks hold as data, message payloads and `type_id`: event types, handles and callbacks are numbers.
- `Port::notify`, which nothing uses: it consumes outside the token of the actor.
- Destruction of actors, ports and the pool, except that the joins end and what `waitForReadyToDtor` waits for.
- `Actor::listen` and `unlisten` for an actor's own StartCnf and StopCnf, and the delayed listens of a constructor: the callback lists are fixed.
- `Actor::getChild` and child handles.
- The 32-bit width of counters and handles: no wrap-around is modelled.
- libyaml, files, the fallback from file to built-in document, aliases, keys that are not scalars, several documents in a stream.
- `getValue` for numbers, which is `strtol` and `strtof`.
- Logging, signal handling, `SmlActor`, the gateway to other transports.
