# Verification of the daemon's control path

A Dafny 4.11 model of how openpressod turns client commands, button presses, profiler callbacks and
sensor readings into machine state, LED patterns and event streams, with proofs about every run.

`dafny verify dfyconfig.toml` checks the whole project.

## What is modelled

- **Serial executor.** `ExecutorSystem.dfy` is the executor as interleaved instructions: any number of
  submitting threads, the worker, the destructor's stop. `SerialExecutor.dfy` is its code as a class; an
  uninterrupted `Submit` and the worker loop after a stop are runs of the system.
- **Event stream.** `EventStreamSystem.dfy` does the same for the per-client write queue, whose counter is
  changed outside the lock; `EventsStreamReactor.dfy` is its code, its worker loop again a run of the
  system. Counters are 64-bit and wrap.
- **Brew timer.** `BrewTimer.dfy`: flag and 31-bit clock in one 32-bit word. The class works with bit
  operations, defined digit by digit, and unsigned subtraction, and is proved against what the timer means:
  it has run since an instant, or it holds a duration.
- **Heating status.** `Hysteresis.dfy`: the sample-counting and the clock-based automaton, each against a
  specification over the whole history of readings, and against each other.
- **Machine.** `Machines.dfy` holds the machine state as a value and the effect of every command on it, the
  coherence invariant, and the guarded three-flag machine (power, steam, brewing) it refines.
  `Devices.dfy`, `LedsHandler.dfy`, `StatusManager.dfy`, `StateManager.dfy`, `BrewProfileManager.dfy` are the
  managers as classes; every method is proved to have the effect `Machines.dfy` defines and to keep the
  object valid, which includes that the two heater controllers were never active together at any point
  inside a command. `BrewProfiles.dfy` converts profiles.
- **Dispatcher.** `AsyncEventsDispatcher.dfy` has the task bodies with their broadcast loops.
  `DispatcherSystem.dfy` interleaves clients, the worker running those tasks, and the sensor's thread.
  Proved of every run: coherence, LEDs, flags, timer, recipe and safe shutdown (`DispatcherMachine.dfy`), what
  each command does and what profiles and settings leave on the devices (`DispatcherCommands.dfy`), the
  published status as a function of the readings (`DispatcherHistory.dfy`), the total order of broadcasts,
  the steam and the heater view (`DispatcherViews.dfy`), the views of power, brew, profile and settings with
  exactly the clients for which they are wrong (`DispatcherPower.dfy`, `DispatcherBrew.dfy`,
  `DispatcherSaved.dfy`), and a bounded drain (`DispatcherProgress.dfy`).
- **Together.** `ServedDispatcher.dfy` joins executor and dispatcher into one system: its queue is the
  executor's two lists, and a task waiting in `unregisterCallback` and the callback it waits for do not
  deadlock on the executor's lock. `StreamedClients.dfy` joins the dispatcher and a client's stream: what the
  client is written is a prefix of its snapshot and the broadcasts since its join, and all of it once both
  have come to rest. Every run of the dispatcher alone is part of a run of either. `DispatcherClients.dfy`
  tells clients apart.

`Options.dfy`, `Lists.dfy` and `Words.dfy` hold the optional value, removal from a list, and the 64-bit counter.

Assumptions. Memory is sequentially consistent and `wait(0)` returns when the counter is not 0. A
controller's target temperature is the last one set. `unregisterCallback` does not return while that
callback runs. Hardware calls do not throw. The profiler becomes inactive only through `deactivate`. The
temperature read at a registration, the clocks, the outcome of writing a file and the outcome of a stream
write are parameters and may be anything. A reactor's address is its id.

## What turned out to be false, and exactly when the code does it right

- The event stream can end although nobody cancelled and no write failed. If a pushed event is taken and
  written before its push is counted, the counter wraps below zero and the worker passes its next wait with
  nothing to write. `StreamEndsUncancelled` is such a run with two events. Without a cancellation the idle
  worker sleeps, as it should, iff no push is uncounted (`IdleWorkerSleepsExactlyWhenCounted`).
- The brew timer keeps running after a stop iff the masked clock wrapped since the start
  (`StopClearsIffNoWrap`, `WrappedStopExample`); its full 32-bit value is exact under the same condition.
- A client's power view is wrong iff the destructor's task turned the power off after the client was added
  and no power command was executed since: that task does not broadcast (`PowerViewExactly`).
  `MisledClientExists` is such a run, from every initial state.
- A client's brew view is wrong iff the number of silent starts and stops since it was last told is odd
  (`BrewViewExactly`); the silent ones are those of `SilentBrewTasks`. `UntoldBrewExists` is such a run, from
  every initial state.
- A refused profile is not undone. `RefusedProfileUnchanged` says exactly when the machine is nevertheless
  what it was, `RefusedProfileSetsTemperature` shows one that is not. It is saved but not told: a client
  is wrong about profile or settings iff updates were refused since it was last told and the last of them
  differs (`SavedViewsExactly`); `MisinformedClientExists` is such a run, from every initial state.

## Model

| member | source | states |
|---|---|---|
| ServedDispatcher.CallbackReturns | src/state_manager/status_manager.cpp:54-68 | no deadlock in unregisterCallback: in every reachable state of executor and dispatcher as one system in which a task waits there for a running callback, whoever holds the queue's lock, at most seven moves without one of the worker queue the callback's notification and end it; then the task can go on |
| ServedDispatcher.ExecutorServesDispatcher | src/async_events_dispatcher/procedures_serial_executor.hpp:88-116 | in every reachable state of that system what waits in the executor's two lists is the dispatcher's queue, what it started is what the dispatcher has begun, and a task runs only inside an invocation; each part is a run of its own system |
| ServedDispatcher.EveryRunIsServed | src/async_events_dispatcher/procedures_serial_executor.hpp:88-116 | every run of the dispatcher, shorter than the counter is wide, is the dispatcher's part of a run of that system |
| ServedDispatcher.DispatcherRefinesFifo | src/async_events_dispatcher/async_events_dispatcher.cpp:28-201 | every step of the dispatcher is an enqueue, a start of the front task, or invisible |
| StreamedClients.ClientIsWritten | src/service/events_stream_reactor.cpp:87-121 | in every run of the dispatcher and one client's stream as one system, the stream was given exactly what the dispatcher pushed to that client, and the events written and then the one being written are a prefix of its snapshot and the broadcasts from its join to its release |
| StreamedClients.SettledClientIsUpToDate | src/service/events_stream_reactor.cpp:98-125 | once the dispatcher is drained and the client's stream can go no further, neither ended nor cancelled, the client has been written all broadcasts since its join, hence the published heater state and the steam mode, and the power iff the destructor's task did not mislead it |
| StreamedClients.EveryRunIsStreamed | src/service/events_stream_reactor.cpp:87-96 | every run of the dispatcher is, for each client, the dispatcher's part of a run of that system |
| DispatcherClients.StepPushes | src/async_events_dispatcher/async_events_dispatcher.cpp:93-201 | every step of the dispatcher pushes at most one event to a client, which its log is extended by; nothing else changes what the client was sent |
| DispatcherViews.TotalOrderBroadcast | src/async_events_dispatcher/async_events_dispatcher.cpp:93-201 | in every run each sink's log is its six-event snapshot and then the contiguous stretch of the broadcast log from its join to its release |
| DispatcherViews.ClientInOrder | src/async_events_dispatcher/async_events_dispatcher.cpp:93-201 | what any client, connected or released, was sent is six snapshot events and the broadcasts from its join to its release |
| DispatcherViews.OverlappingClientsAgree | src/async_events_dispatcher/async_events_dispatcher.cpp:93-201 | any two clients, connected or released, in any state of the worker, got the same events in the same order over every stretch in which both were connected, and these are the broadcasts of that stretch |
| DispatcherViews.HeaterViewAgreement | src/async_events_dispatcher/async_events_dispatcher.cpp:28-183 | in every reachable state the last heater state among a sink's log, the event on its way and all notifications under way is the published one; with none under way the log alone shows it |
| DispatcherPower.ViewsAreTrue | src/async_events_dispatcher/async_events_dispatcher.cpp:101-173 | in every run replaying a sink's events gives the steam mode, and gives the power iff the sink is not one that was there when the destructor's task turned the power off |
| DispatcherPower.PowerViewExactly | src/async_events_dispatcher/async_events_dispatcher.cpp:34-47 | in every run a sink's power view is wrong iff, among the tasks executed, one of the destructor turned the power off after the task that added the sink, with no power command executed since |
| DispatcherPower.ShutDownPowerView | src/async_events_dispatcher/async_events_dispatcher.cpp:34-47 | right after the destructor's task a power view is true iff the power was off before it |
| DispatcherPower.MisledClientExists | src/async_events_dispatcher/async_events_dispatcher.cpp:34-47 | from every initial state a run leads to a client that was told on and no more, while the power is off |
| DispatcherBrew.BrewViewExactly | src/async_events_dispatcher/async_events_dispatcher.cpp:111-183 | in every run a client believes of the brew what it was last told, by a task that sends a brew event or by its snapshot, and is wrong iff the number of silent starts and stops executed since then is odd |
| DispatcherBrew.SilentBrewTasks | src/async_events_dispatcher/async_events_dispatcher.hpp:159-179 | the silent starts and stops are exactly the tasks that move the brew flag and send no brew event: an accepted start with a reply, and during a brew a stop with a reply, a power off or toggle, and the destructor's task |
| DispatcherBrew.UntoldBrewExists | src/async_events_dispatcher/async_events_dispatcher.hpp:159-165 | from every initial state a run leads to a client that was told of no brew while one is active |
| DispatcherCommands.DevicesFollowTasks | src/async_events_dispatcher/async_events_dispatcher.hpp:107-216 | in every run the steam target is that of the last settings written, the brew target that of the last profile written, the steps those of the last one written with no brew active and all steps convertible, the stop condition that of the last one accepted in full, and the scale was tared once for each reset with no brew active; else they are what they were at the start |
| DispatcherCommands.TasksInstall | src/state_manager/brew_profile_manager.cpp:109-182 | task by task: only settings that were written move the steam target, only profiles that were written move brew target, steps and stop condition, and no start, stop, power, steam or shutdown task moves any of them |
| DispatcherCommands.PowerObeyed | src/async_events_dispatcher/async_events_dispatcher.cpp:34-109 | power goes to the state asked for or to the opposite one, ends a brew and is told; the destructor's task turns it off and tells nobody |
| DispatcherCommands.SteamObeyed | src/async_events_dispatcher/async_events_dispatcher.cpp:81-153 | the steam mode goes to the one asked for or to the opposite one and is told, unless a brew is active and it would change |
| DispatcherCommands.BrewObeyed | src/async_events_dispatcher/async_events_dispatcher.cpp:59-134 | a start needs power and no steam unless a brew is active already, a stop always stops; which of the five forms sends which event |
| DispatcherCommands.OthersTell | src/async_events_dispatcher/async_events_dispatcher.cpp:136-201 | no other task moves a flag; a notification tells the status or step it carries, a profile or settings update itself iff it was accepted |
| DispatcherSaved.SavedViewsExactly | src/async_events_dispatcher/async_events_dispatcher.hpp:123-216 | in every run a client believes of profile and settings what its snapshot or the last update accepted since told it, and is wrong iff updates were refused after that and the last of them differs |
| DispatcherSaved.MisinformedClientExists | src/state_manager/brew_profile_manager.cpp:72-102 | from every initial state a run leads to a client that is wrong about the profile and the settings |
| DispatcherSaved.SavedProfileView | src/state_manager/brew_profile_manager.cpp:72-102 | the current profile is replaced before it is written and applied, so a client that was right about it stays right iff the profile is the old one, or it was written, no brew is active and all of it is convertible |
| DispatcherSaved.SavedSettingsView | src/async_events_dispatcher/async_events_dispatcher.hpp:204-216 | likewise a client stays right about the settings iff they are the old ones or could be written |
| DispatcherViews.SnapshotIsCurrent | src/async_events_dispatcher/async_events_dispatcher.cpp:155-183 | the snapshot of a joining sink is the state at the moment it joins, except that the heater may have moved since it was read |
| DispatcherHistory.PublishedFollowsHistory | src/state_manager/status_manager.cpp:112-202 | in every reachable state with the power on, whatever tasks came in between, the published status is the history specification of the readings since the callback was last registered, and the LEDs show it |
| DispatcherHistory.HistoryIsReadingsSince | src/state_manager/status_manager.cpp:170-202 | those readings are the sensor steps of the run since the task that replaced the callback |
| DispatcherProgress.DrainIsBounded | src/async_events_dispatcher/procedures_serial_executor.hpp:97-116 | without submissions and readings the dispatcher stops within a bound computed from its state, though tasks queue further tasks |
| DispatcherProgress.DrainExists | src/async_events_dispatcher/procedures_serial_executor.hpp:97-116 | and it can always be driven to the drained state |
| DispatcherProgress.DrainedAgreement | src/async_events_dispatcher/async_events_dispatcher.cpp:93-201 | once drained every submitted task was executed and every sink has all broadcasts since its join, the current heater state and steam mode, and the power iff the destructor's task did not mislead it |
| DispatcherProgress.ShutDownDrains | src/async_events_dispatcher/async_events_dispatcher.cpp:34-47 | from any reachable state with the destructor's task as last command, every run the dispatcher takes by itself is within the bound, and where it cannot go on the queue is empty, nothing is under way and everything is off |
| DispatcherProgress.ShutDownCompletes | src/async_events_dispatcher/async_events_dispatcher.cpp:34-47 | such a run exists for any temperature, clock and file outcome |
| DispatcherMachine.StatusAlwaysCoherent | src/state_manager/status_manager.cpp:45-97 | in every reachable state, with readings between and inside tasks, heaters agree with the flags and are never both active, the power LED shows the power and the brew and steam LEDs that the heater is ready in that mode; whenever the worker is not replacing the callback, it serves the current mode with that mode's target and window |
| DispatcherMachine.TaskNoticeIsTheChange | src/state_manager/status_manager.cpp:61-68 | what a task has under way for the change callback is the published status if the task changed it, and nothing otherwise |
| DispatcherMachine.ReadingNoticeIsTheChange | src/state_manager/status_manager.cpp:61-68 | so it is with a reading |
| DispatcherMachine.UntouchedStatus | src/state_manager/status_manager.cpp:45-59 | a task that does not unregister the callback leaves the whole status, LEDs and callback memory alone |
| DispatcherMachine.TouchedStatus | src/state_manager/status_manager.cpp:182-202 | one that does leaves a callback with a fresh memory and the class of the temperature read, if the power is on, and no callback if it is off |
| DispatcherMachine.FlagsFollowQueueOrder | src/async_events_dispatcher/async_events_dispatcher.cpp:49-91 | in every run the flags are the three-flag machine applied to a prefix of the submitted tasks in queue order; brewing implies power and no steam |
| DispatcherMachine.RefusalChangesNothing | src/state_manager/state_manager.cpp:74-171 | a refused start, steam switch or scale reset leaves the whole system as it was and sends nothing |
| DispatcherMachine.TimerTellsBrewing | src/state_manager/state_manager.cpp:50-107 | in every run the running flag tells whether a brew is active, exactly unless the run's last brew was stopped by a step whose clock had wrapped since the step that started it; a brew is active iff no stop or power off followed the last start |
| DispatcherMachine.ReportedBrewTime | src/state_manager/brew_timer.cpp:32-40 | after any run the brew time reported is zero without a brew, the time since the start of the brew under way, or the duration of the stopped one, modulo a period; after a stop across a wrap it is the time since that duration |
| DispatcherMachine.RecipeFrozenByStep | src/state_manager/state_manager.hpp:56-72 | no step of any thread changes the steps or the stop condition of an active brew |
| DispatcherMachine.OneRecipePerBrew | src/state_manager/state_manager.hpp:56-72 | over any run in which a brew is active they are the same at the end as at the start |
| DispatcherMachine.SafeShutDown | src/async_events_dispatcher/async_events_dispatcher.cpp:34-47 | from any reachable state, once the destructor's task was executed with only callback tasks behind it, everything is off and stays off |
| DispatcherMachine.StartIsInitial | src/state_manager/state_manager.cpp:20-39 | the managers as they are built are a state from which the runs below start |
| DispatcherViews.RemainingSinks | src/async_events_dispatcher/async_events_dispatcher.cpp:196-201 | a release leaves the list at rising positions, which are exactly those of the sinks with another id |
| DispatcherViews.LeavingSinks | src/async_events_dispatcher/async_events_dispatcher.cpp:196-201 | the sinks it takes out are exactly those with the id, and none is lost |
| Lists.FilterKeepsOrder | src/async_events_dispatcher/async_events_dispatcher.cpp:196-201 | what a removal from a list leaves is the list at rising positions, which are exactly those of the elements to keep |
| ExecutorSystem.ExecutorOrder | src/async_events_dispatcher/procedures_serial_executor.hpp:47-116 | in every interleaving, tasks run ++ local list ++ shared list ++ task in a submitter's hand is the submission sequence in lock order; what was started is a prefix of it, at most one ahead of what finished |
| ExecutorSystem.CounterWhenUnlocked | src/async_events_dispatcher/procedures_serial_executor.hpp:88-107 | while the lock is free the counter is the list length, plus one once stop was requested |
| ExecutorSystem.NoUnderflow | src/async_events_dispatcher/procedures_serial_executor.hpp:103-107 | the worker's subtraction never takes the counter below zero |
| ExecutorSystem.WakeUpExactly | src/async_events_dispatcher/procedures_serial_executor.hpp:101-102 | with the lock free a waiting worker is let through iff a task is listed or stop was requested |
| ExecutorSystem.ExitsOnlyWhenStoppedAndDrained | src/async_events_dispatcher/procedures_serial_executor.hpp:108-110 | the worker exits only after stop, having run all tasks submitted before its last splice, in order |
| ExecutorSystem.StoppedWorkerNeverBlocks | src/async_events_dispatcher/procedures_serial_executor.hpp:29-33 | after stop, with no submitter in its critical section, the worker can always take a step until it exits |
| ExecutorSystem.StoppedWorkerDrains | src/async_events_dispatcher/procedures_serial_executor.hpp:97-116 | from any such state the worker alone reaches its exit in a bounded number of steps with every accepted task run, unless it had already looked for the last time |
| ExecutorSystem.DrainIsBounded | src/async_events_dispatcher/procedures_serial_executor.hpp:97-116 | with no further submissions every run of the worker is bounded by a measure on the remaining tasks |
| ExecutorSystem.RefinesFifo | src/async_events_dispatcher/procedures_serial_executor.hpp:88-116 | every instruction is an enqueue at the back, a start of the front task, or invisible |
| ExecutorSystem.ExecutorIsFifo | src/async_events_dispatcher/procedures_serial_executor.hpp:88-116 | every interleaved run is a run of a plain FIFO queue |
| ExecutorSystem.SubmitNeedsNoWorker | src/async_events_dispatcher/procedures_serial_executor.hpp:88-93 | in any state in which the worker does not hold the lock, a run of at most seven instructions without one of the worker gets any thread's item to the back of the list, behind the item of whoever held the lock |
| ExecutorSystem.RunningTaskBlocksNobody | src/async_events_dispatcher/procedures_serial_executor.hpp:88-115 | so in every reachable state with a task under way any thread can submit while that task stands still, and nothing the worker sees changes but the shared list and the counter |
| ExecutorSystem.HolderFinishes | src/async_events_dispatcher/procedures_serial_executor.hpp:88-93 | a thread inside the critical section can take its remaining steps whatever the others do, and leaves the lock free |
| ExecutorSystem.WorkerReleasesLock | src/async_events_dispatcher/procedures_serial_executor.hpp:103-107 | a worker that holds the lock lets go of it in at most three steps of its own |
| EventStreamSystem.CounterBalance | src/service/events_stream_reactor.cpp:26-112 | counter + uncounted pushes = listed events + spliced but not subtracted ones + cancellations, modulo 2^64, in every interleaving |
| EventStreamSystem.NoStuckEvent | src/service/events_stream_reactor.cpp:87-103 | with every push counted a waiting worker is let through iff an event is listed or a cancellation came |
| EventStreamSystem.EmptySpliceHasCause | src/service/events_stream_reactor.cpp:103-111 | an empty splice means that at the last passed wait a cancellation had come or a taken event was still uncounted |
| EventStreamSystem.IdleWorkerSleepsExactlyWhenCounted | src/service/events_stream_reactor.cpp:87-112 | uncancelled and with all events taken, the worker sleeps iff no taken event is uncounted |
| EventStreamSystem.LatePushEndsStream | src/service/events_stream_reactor.cpp:103-124 | from a wait passed with nothing listed the worker alone finishes the stream |
| EventStreamSystem.StreamEndsUncancelled | src/service/events_stream_reactor.cpp:87-124 | a concrete run from the start ends the stream with no cancellation and no failed write |
| EventStreamSystem.WritesInOrder | src/service/events_stream_reactor.cpp:114-121 | completed events are a prefix of the pushed ones, at most one write is outstanding, it is the next event and the head of the local list, and the worker waits for it |
| EventStreamSystem.HeadStaysWhileWriting | src/service/events_stream_reactor.cpp:114-121 | the event handed to StartWrite stays at the head until OnWriteDone |
| EventStreamSystem.ClosingIsBounded | src/service/events_stream_reactor.cpp:98-125 | with nothing pushed, any run is bounded and starts at most one write per event left |
| EventStreamSystem.CancelledWorkerNeverBlocks | src/service/events_stream_reactor.cpp:26-30 | once cancelled and with no push in flight, worker or stream can always go on |
| EventStreamSystem.CancelledStreamEnds | src/service/events_stream_reactor.cpp:98-125 | so a cancelled stream that can go no further has finished, whatever its writes' outcomes |
| EventStreamSystem.SettledStreamHasWrittenAll | src/service/events_stream_reactor.cpp:98-125 | a stream nobody cancels, left alone, takes a bounded number of steps and then has written all that was pushed and waits, or has ended after a failed write or over an event taken before its push was counted |
| EventStreamSystem.EndsAfterAllWrites | src/service/events_stream_reactor.cpp:106-121 | a worker that ended without a failed write has completed all pushed before its last splice |
| EventsStreamReactor.AcceptedIsLongestPrefix | src/service/events_stream_reactor.cpp:114-121 | what the client gets is the longest prefix all of whose writes succeed |
| BrewTimers.ElapsedLowBits | src/state_manager/brew_timer.cpp:24-40 | for any start and any later time less than 2^31 ms after it, the low 31 bits reported are the true elapsed time |
| BrewTimers.ElapsedExactIffNoWrap | src/state_manager/brew_timer.cpp:32-40 | the full word is exact iff the masked clock did not wrap, and one period too large otherwise |
| BrewTimers.StopClearsIffNoWrap | src/state_manager/brew_timer.cpp:14-22 | stop clears the running flag iff the masked clock did not wrap |
| BrewTimers.StoppedTimeIsKept | src/state_manager/brew_timer.cpp:14-40 | a cleared timer reports the true duration at any later time and ignores later stops |
| BrewTimers.WrappedStopRestarts | src/state_manager/brew_timer.cpp:9-22 | a stop across a wrap leaves the word a start would leave |
| BrewTimers.WrappedStopExample | src/state_manager/brew_timer.cpp:9-40 | concrete instants for which stop leaves the timer running and the elapsed value is off |
| BrewTimers.WordOperations | src/state_manager/brew_timer.cpp:9-40 | on 32-bit words, testing the flag bit is a comparison, masking is a remainder and setting the flag is an addition; conjunction and disjunction are defined bit by bit |
| BrewTimers.ElapsedValue | src/state_manager/brew_timer.cpp:24-40 | for any two instants a running timer reports the time since its start modulo a period, plus one period exactly if the masked clock wrapped |
| Hysteresis.MakeStatus | src/state_manager/status_manager.cpp:99-110 | too cold below the window, ready within it, too hot above it; never disabled |
| Hysteresis.StatusIsMonotone | src/state_manager/status_manager.cpp:99-110 | the classes come in temperature order |
| Hysteresis.FixedRateMeetsHistory | src/state_manager/status_manager.cpp:112-138 | ready iff the current in-range run reaches back to a ready registration or has the required length, else the class of the last reading outside; the counter is 0 if the run reaches back to a ready registration, and otherwise the run length capped at the required count |
| Hysteresis.VariableRateMeetsHistory | src/state_manager/status_manager.cpp:140-168 | ready iff the run reaches back to a ready registration or some reading of it came a period after its first; while not ready the remembered start is the time of the run's first reading |
| Hysteresis.RequiredInvocationsIsLeast | src/state_manager/status_manager.cpp:119-120 | the required count is the least number of readings, at least one, that spans the period |
| Hysteresis.RunLastedOnMonotoneClock | src/state_manager/status_manager.cpp:158-166 | on a clock that never goes back only the last reading of the run matters |
| Hysteresis.AutomataCompared | src/state_manager/status_manager.cpp:119-167 | on evenly spaced readings clock-based ready implies counted ready; they differ iff the period is positive, the run has exactly the required length and does not go back to a ready start |
| Machines.StatusFollowsHistory | src/state_manager/status_manager.cpp:170-202 | after a registration the published status and the LEDs are the history specification of the automaton the sensor calls for |
| Machines.ReadingKeepsCoherence | src/state_manager/status_manager.cpp:122-167 | so does every reading, which moves the status as the automaton for the current mode and target |
| Machines.RefinesThreeFlags | src/state_manager/state_manager.cpp:41-171 | power, steam and brewing move as in a guarded three-flag machine; a command is refused iff the guard says so, and then nothing at all changes |
| Machines.ShutDownFlags | src/async_events_dispatcher/async_events_dispatcher.cpp:34-47 | the destructor's task is a halt followed by power off |
| Machines.ProfileApplied | src/state_manager/brew_profile_manager.cpp:109-182 | applied in full iff no brew is active and all is convertible; then the installed steps and stop condition have, item by item, the kinds and values of the profile; the brew target is the profile's in any case, and during a brew the recipe stays |
| Machines.RefusedProfileSetsTemperature | src/state_manager/brew_profile_manager.cpp:109-119 | a concrete brewing machine, reached by power on and start, and a profile whose refusal changes target and published status |
| Machines.PowerKeepsCoherence | src/state_manager/state_manager.cpp:41-67 | a power command keeps controllers, profiler, status, callback and LEDs coherent with the flags |
| Machines.BrewKeepsCoherence | src/state_manager/state_manager.cpp:74-110 | so do start, accepted or refused, and stop |
| Machines.SteamKeepsCoherence | src/state_manager/state_manager.cpp:136-163 | so does a mode switch, accepted or refused |
| Machines.TargetsKeepCoherence | src/state_manager/state_manager.cpp:112-128 | so do the two target temperatures |
| Machines.ProfileKeepsCoherence | src/state_manager/brew_profile_manager.cpp:109-182 | so does a profile, applied or refused at any point |
| Machines.ShutDownKeepsCoherence | src/async_events_dispatcher/async_events_dispatcher.cpp:34-47 | so does the destructor's task |
| Machines.RefusedProfileUnchanged | src/state_manager/brew_profile_manager.cpp:109-182 | a refused profile leaves the machine as it was iff its temperature is the current target, registering the callback again makes no difference, and its steps, if they were installed before the refusal, are the current ones |
| BrewProfiles.ConvertStepsIsPointwise | src/state_manager/brew_profile_manager.cpp:113-161 | conversion succeeds iff every step has a known target kind and no or a known advance kind; then, step by step, pressure becomes constant pressure and flow rate constant flow with the value unchanged, and the condition is never without an advance and otherwise of the advance's kind and value |
| BrewProfiles.StopConditionIsKept | src/state_manager/brew_profile_manager.cpp:162-182 | no stop condition becomes never, a known one keeps kind and value, an unknown one is refused |
| LedsHandlers.PatternsTellReadiness | src/leds/leds_handler.cpp:39-79 | the pattern lights the power LED, the brew LED iff ready in brew mode and the steam LED iff ready in steam mode; so two patterns are equal iff both or neither are ready, and in the same mode if ready |
| AsyncEventsDispatcher.WithoutRemovesOnly | src/async_events_dispatcher/async_events_dispatcher.cpp:196-201 | exactly the occurrences of the reactor are removed |
| AsyncEventsDispatcher.WithoutIsRemove | src/async_events_dispatcher/async_events_dispatcher.cpp:196-201 | taking out a reactor by its address is taking out the sink with its id |
| SerialExecutor.ProceduresSerialExecutor.Submit | src/async_events_dispatcher/procedures_serial_executor.hpp:88-93 | appends the task, counts it, and is a run of the interleaved system |
| SerialExecutor.ProceduresSerialExecutor.RequestStop | src/async_events_dispatcher/procedures_serial_executor.hpp:29-33 | bumps the counter once without listing anything |
| SerialExecutor.ProceduresSerialExecutor.Worker | src/async_events_dispatcher/procedures_serial_executor.hpp:97-116 | the loop, after stop, runs exactly the submitted tasks in order, leaves the stop bump in the counter, and is a worker-only run of the interleaved system from the object's state to the exited state it leaves |
| EventsStreamReactor.Reactor.PushEvent | src/service/events_stream_reactor.cpp:87-96 | lists the event, then counts it; a run of the interleaved system |
| EventsStreamReactor.Reactor.OnCancel | src/service/events_stream_reactor.cpp:26-30 | bumps the counter without listing anything |
| EventsStreamReactor.Reactor.OnWriteDone | src/service/events_stream_reactor.cpp:20-24 | the write under way is over; on success the event written is the next one the client has, on failure the client has no more than before and the stream is marked failed; in whatever state of the interleaved system the object is, this is the system's step |
| EventsStreamReactor.Reactor.Worker | src/service/events_stream_reactor.cpp:98-125 | after a cancellation the client gets the queued events in order up to the first failed write, and the stream finishes; the loop is a run of the interleaved system in which only worker and stream act |
| BrewTimers.BrewTimer.Start | src/state_manager/brew_timer.cpp:9-12 | from now on the timer runs since this instant: the flag and the masked clock, set with bit operations, are its word |
| BrewTimers.BrewTimer.Stop | src/state_manager/brew_timer.cpp:14-22 | a timer running since an instant ends up holding the time since then modulo a period if the clock did not wrap, and running since that duration if it did; one that holds a duration keeps it |
| BrewTimers.BrewTimer.Reset | src/state_manager/brew_timer.cpp:42-45 | the timer holds zero, which is what it reports at every instant |
| BrewTimers.BrewTimer.ElapsedTime | src/state_manager/brew_timer.cpp:32-40 | a held duration as it is; for a timer running since an instant the time since then modulo a period always, and exactly within one period iff the clock did not wrap |
| LedsHandlers.LedsHandler.IndicatePowerOff | src/leds/leds_handler.cpp:32-37 | all three LEDs off |
| LedsHandlers.LedsHandler.IndicateBrewPreheat | src/leds/leds_handler.cpp:39-44 | power alone; the pattern of brew mode, too cold |
| LedsHandlers.LedsHandler.IndicateBrewReady | src/leds/leds_handler.cpp:46-51 | power and brew; the pattern of brew mode, ready |
| LedsHandlers.LedsHandler.IndicateBrewOverheat | src/leds/leds_handler.cpp:53-58 | power alone; the pattern of brew mode, too hot |
| LedsHandlers.LedsHandler.IndicateSteamPreheat | src/leds/leds_handler.cpp:60-65 | power alone; the pattern of steam mode, too cold |
| LedsHandlers.LedsHandler.IndicateSteamReady | src/leds/leds_handler.cpp:67-72 | power and steam; the pattern of steam mode, ready |
| LedsHandlers.LedsHandler.IndicateSteamOverheat | src/leds/leds_handler.cpp:74-79 | power alone; the pattern of steam mode, too hot |
| StatusManagers.StatusManager.UnregisterTemperatureCallback | src/state_manager/status_manager.cpp:54-59 | afterwards the sensor holds no callback |
| StatusManagers.StatusManager.Publish | src/state_manager/status_manager.cpp:61-68 | the status is published, and handed to the change callback iff it differs from the one published before; the last one handed over is always the published one, and each differs from the one before |
| StatusManagers.StatusManager.Apply | src/state_manager/status_manager.cpp:70-97 | shows the status on the LEDs of the mode and publishes it |
| StatusManagers.StatusManager.Disable | src/state_manager/status_manager.cpp:45-52 | no callback, LEDs off, disabled published |
| StatusManagers.StatusManager.IndicateState | src/state_manager/status_manager.cpp:182-202 | exactly one callback is left on the sensor, for this mode, target and window, and the status of the current temperature is shown and published |
| StatusManagers.StatusManager.OnTemperature | src/state_manager/status_manager.cpp:122-167 | the callback moves status, LEDs and its own memory as the automaton does |
| StateManagers.StateManager.SetPowerState | src/state_manager/state_manager.cpp:41-67 | power goes to the state asked for and a brew ends with it; mode, targets and recipe stay; effect of the power command, coherence, and no instant with both heaters active |
| StateManagers.StateManager.StartBrewing | src/state_manager/state_manager.cpp:74-95 | refuses iff no brew is active and power is off or steam on; otherwise profiler and timer run; targets and recipe stay, and a refusal changes nothing |
| StateManagers.StateManager.StopBrewing | src/state_manager/state_manager.cpp:97-110 | no brew is active afterwards; the timer is stopped if one was; targets and recipe stay |
| StateManagers.StateManager.SetBrewTarget | src/state_manager/state_manager.cpp:112-119 | the brew controller gets the target and the steam controller keeps its own; re-registers iff brewing mode is powered |
| StateManagers.StateManager.SetSteamTarget | src/state_manager/state_manager.cpp:121-128 | the steam controller gets the target and the brew controller keeps its own; re-registers iff steam mode is powered |
| StateManagers.StateManager.SetSteamModeState | src/state_manager/state_manager.cpp:136-163 | switches mode with the controllers never both active, or refuses iff a brew is active and the mode would change; targets and recipe stay |
| StateManagers.StateManager.ResetWeight | src/state_manager/state_manager.cpp:165-171 | tares once, or refuses iff a brew is active |
| StateManagers.StateManager.SetSteps | src/state_manager/state_manager.hpp:56-63 | installs the converted steps, or refuses during a brew or on a step that cannot be converted |
| StateManagers.StateManager.SetStopCondition | src/state_manager/state_manager.hpp:65-72 | installs the stop condition, or refuses during a brew |
| BrewProfileManagers.BrewProfileManager.ApplyBrewProfile | src/state_manager/brew_profile_manager.cpp:109-182 | temperature, steps and stop condition, in that order, up to the first refusal |
| AsyncEventsDispatcher.AsyncEventDispatcher.Broadcast | src/async_events_dispatcher/async_events_dispatcher.cpp:106-108 | the loop gives every sink the event once and changes nothing else |
| AsyncEventsDispatcher.AsyncEventDispatcher.DoSetPowerState | src/async_events_dispatcher/async_events_dispatcher.cpp:101-109 | power command, then its event to every sink |
| AsyncEventsDispatcher.AsyncEventDispatcher.TogglePowerState | src/async_events_dispatcher/async_events_dispatcher.cpp:49-52 | the same for the opposite of the current power |
| AsyncEventsDispatcher.AsyncEventDispatcher.DoStartBrew | src/async_events_dispatcher/async_events_dispatcher.cpp:111-119 | start, and an event unless refused |
| AsyncEventsDispatcher.AsyncEventDispatcher.DoStopBrew | src/async_events_dispatcher/async_events_dispatcher.cpp:121-134 | stop and event, or nothing when no brew is active |
| AsyncEventsDispatcher.AsyncEventDispatcher.ToggleBrew | src/async_events_dispatcher/async_events_dispatcher.cpp:59-69 | stop if brewing, else start |
| AsyncEventsDispatcher.AsyncEventDispatcher.DoSetSteamModeState | src/async_events_dispatcher/async_events_dispatcher.cpp:145-153 | steam command, and its event unless refused |
| AsyncEventsDispatcher.AsyncEventDispatcher.ToggleSteamModeState | src/async_events_dispatcher/async_events_dispatcher.cpp:81-86 | the same for the opposite of the current mode |
| AsyncEventsDispatcher.AsyncEventDispatcher.StartBrewWithReply | src/async_events_dispatcher/async_events_dispatcher.hpp:159-165 | start without an event; the reply is an error iff the guard refuses |
| AsyncEventsDispatcher.AsyncEventDispatcher.StopBrewWithReply | src/async_events_dispatcher/async_events_dispatcher.hpp:167-179 | stop, then an empty progress to every sink in any case |
| AsyncEventsDispatcher.AsyncEventDispatcher.ResetWeightWithReply | src/async_events_dispatcher/async_events_dispatcher.hpp:107-113 | tare; the reply is an error iff a brew is active |
| AsyncEventsDispatcher.AsyncEventDispatcher.SetBrewProfile | src/async_events_dispatcher/async_events_dispatcher.hpp:123-135 | save and apply; event and success iff nothing refused |
| AsyncEventsDispatcher.AsyncEventDispatcher.SetUserSettings | src/async_events_dispatcher/async_events_dispatcher.hpp:204-216 | save and apply; event and success iff the file could be written |
| AsyncEventsDispatcher.AsyncEventDispatcher.NotifyHeatingStatusChange | src/async_events_dispatcher/async_events_dispatcher.cpp:136-143 | the queued status, not the current one, goes to every sink |
| AsyncEventsDispatcher.AsyncEventDispatcher.DoNotifyBrewStepChange | src/async_events_dispatcher/async_events_dispatcher.cpp:185-194 | the step goes to every sink |
| AsyncEventsDispatcher.AsyncEventDispatcher.SendInitialState | src/async_events_dispatcher/async_events_dispatcher.cpp:155-183 | the six snapshot events in order |
| AsyncEventsDispatcher.AsyncEventDispatcher.AddEventsStreamReactor | src/async_events_dispatcher/async_events_dispatcher.cpp:93-99 | the snapshot is pushed and the sink joins at the end of the list; the list is the one the system's run for this task leaves |
| AsyncEventsDispatcher.AsyncEventDispatcher.ReleaseEventsStreamReactor | src/async_events_dispatcher/async_events_dispatcher.cpp:196-201 | the loop takes out that sink and no other; the list is the one the system's step for this task leaves |
| AsyncEventsDispatcher.AsyncEventDispatcher.ShutDown | src/async_events_dispatcher/async_events_dispatcher.cpp:34-47 | stops the brew, powers off, tells no sink |
| AsyncEventsDispatcher.AsyncEventDispatcher.TaskNotifies | src/state_manager/status_manager.cpp:61-68 | the statuses a task's code hands to the change callback are the ones that the system's step for the task has under way |
| AsyncEventsDispatcher.AsyncEventDispatcher.ReadingNotifies | src/state_manager/status_manager.cpp:61-68 | so are those a reading's code hands over |
| StateManagers.StateManager.DeliverReading | src/state_manager/status_manager.cpp:122-167 | a reading delivered to the registered callback has the effect of the automaton on the whole machine, keeps it coherent, and notifies exactly a change |
| StateManagers.StateManager.DevicesAgree | src/state_manager/state_manager.cpp:41-163 | between commands the controllers, the three LEDs and the sensor's callback are what power, mode, published status, targets and windows call for |

## Left out

- All-or-nothing profile updates: the code does not promise them.
- libopenpresso: controllers, profiler, sensor and scale are reduced to the fields the managers observe; the profiler's own step advance only appears as tasks that may arrive at any time.
- SerialExecutor.ProceduresSerialExecutor.Worker: the object's own loop runs with nobody else acting, after a stop; every interleaving is in ExecutorSystem. Tasks are opaque items, and a task that throws is one whose effect stops there.
- EventsStreamReactor.Reactor.Worker: the object's own loop runs with nobody pushing, after a cancellation; every interleaving is in EventStreamSystem.
- ExecutorSystem.WakeUpExactly: like NoUnderflow, StoppedWorkerNeverBlocks, NoStuckEvent and CancelledWorkerNeverBlocks it assumes fewer than 2^64 listed items and bumps together, because the counter has 64 bits; for the same reason EveryRunIsServed assumes a run of fewer than 2^64 steps.
- Hysteresis.MakeStatus: does not model overflow of the temperature sums, because the width of the temperature type is not visible in this repository.
- Hysteresis.AutomataCompared: takes period over rate as an exact integer ceiling, where the code rounds in floating point.
- BrewProfiles.ConvertStepsIsPointwise: carries the profile's values unconverted; the float-to-integer casts are not modelled.
- DispatcherMachine.StatusAlwaysCoherent: a task's effect on fields that only the worker uses is one step; tasks are cut where the status is stored, queued and the callback registered, at each snapshot event and at each sink of a broadcast. The instants inside a command are covered by the history of the two controllers in the classes.
- DispatcherMachine.SafeShutDown: assumes that after the destructor's task only callback tasks, queries, joins and releases arrive, because the destructor runs when the outside callers are gone.
- StreamedClients.ClientIsWritten: speaks of one client's stream at a time, and of a client by its place among the executed tasks.
- Memory orders weaker than sequential consistency, thread creation and joining.
- gRPC services, protobuf and JSON, file contents, metrics stream, configuration, buttons, logging, signals.
