# A verified model of the cluster manager's control path

This project models how the controller starts and monitors a resource through the resource manager, and
proves what the program's design relies on.  `dafny verify dfyconfig.toml` checks everything (Dafny 4.11).

## What is modelled

Three state machines, each a step system (`State`, `Event`, `Enabled`, `Apply`) whose steps are what one
goroutine does between two accesses to shared state, with theorems over every run:

* **Engine** - the resource-operation engine of `rmanager/rman.go`.  Every `ExecRscOp` has a process
  goroutine, a timeout timer and a waiter; all runs share the record table `onRsc`.  Result channels, armed
  timers, callbacks before and after their stop check, half-finished calls of `setMonitor` and the dispatcher
  before each of its own sends are explicit state, so process exit, timeout, timer firing, re-arming and stop
  interleave in every order.  A *chain* is all that one dispatched request sets in motion: its own run and
  every repetition.
* **Mux** - the RPC multiplexer of `ipcc/ipcc.go`: the wrapping 64-bit sequence number, `sync_map`, the event
  loop, the sender and receiver goroutines and the blocked callers of `SendRecv`.
* **System** - the controller (`controller/main.go`, `controller/control.go`) on its polling dispatcher,
  calling the multiplexer, with the engine at the other end of the socket.

The objects that the program updates in place are classes (`Rmanager`, `ExecrscMap`, `IpcClientController`,
`Controll`, `Dispatcher`, `ClientMap`, `Connector`): each method is an atomic section of the code it is named
after and is proved to take exactly the corresponding step, or to compute the stated specification function.
Smaller parts: the polling loop of `chhandler/chhandler.go`, the client map of `ipcs/ipcs.go`, resource
parameters on their way into the environment, and the retry and back-off loops of `corosync/corosync.go`.

What the steps do is stated in terms of what can be seen from outside: the requests read, the processes started
and killed, the messages written, and when (`Requests`, `Launches`, `Delays`, `Timeouts`, `Cancelling`,
`Reporting`, `Counting`, `MuxOrder`, `Traffic`).

## Assumptions

* One read on a socket is one whole message; a socket delivers what was written to it, in order.
* Timers, sleeps and timeouts never fire early, and fire any time after they are due.
* A read of a record-table entry and a step on a channel are atomic (some table reads in the source hold no lock).
* Agent processes can be started.  When they exit, with what result, and when clocks advance are inputs; the
  clock is monotone and counts nanoseconds, and `time.Duration(ms) * time.Millisecond` wraps at 64 bits.
* Multiplexer (`Mux.Orderly`): the server answers only requests that have reached it, or with number 0; a
  message given to `SendRecv` carries the caller's own number, one given to `SendRecvAsync` carries 0; and a
  new number is drawn only while every number in use is one of the last 2^64 - 2 (`Mux.Window`).  A number is
  in use until its call has returned and no answer to it is under way or to come.  Only what is said about
  numbers, registration and routing depends on this; hand-over, single wake-up and conservation hold in every
  run, and `MuxWindow.ReplyWakesTheWrongCaller` is one outside the window.  In `System` nothing of it is
  assumed: `SystemTheorems.MultiplexerIsUsedOrderly`.
* System: the resource manager is fresh and this controller is its only client.  A write to the controller
  may fail at any time; a reply that cannot be delivered is counted in `lost`.
* The answers of the corosync library, signals and the moments at which other goroutines send are inputs.

## Promises that do not hold as they stand

The code is modelled as it is; each entry gives a counterexample and the exact condition.

* *A recorded stop ends the resource's agents.*  A recurring run caught between its success and the second
  record of `setMonitor` overwrites the stop and goes on (`Repetition.StopIsOvertaken`).
  `Repetition.StopHoldsExactlyWhenSettled` characterises the states with a recorded stop from which no run
  starts the agent again.
* *A stop cancels the resource's timers.*  Exactly the one that the resource's record names
  (`Cancelling.TimersAreDisarmedExactlyBy`); a request recorded in between hides it
  (`Cancelling.StopMissesTheTimer`).  Where it was all that could go on, nothing of the resource fires again
  (`Cancelling.StopEndsTheRepetition`).
* *Two launches are interval plus delay apart.*  False exactly when one of the two overflows the nanosecond
  count (`Distance.NominalDistanceIsKept`; `Distance.PeriodIsAttained` is the run in which they are closer).
  The distance that is kept in general is `MonitorSpacing.Period`.
* *A monitor reports its first result.*  Exactly when the resource is calm (`MonitorPromise.IsCalm`), that is
  when two things hold (`MonitorPromise.FirstResultIsReported`).  First, the record it finds does not hide the
  result: for a success it is absent, or neither terminated nor with a positive count; for a failure it is not
  terminated.  Second, no leftover of an earlier request for the resource can change that before the result is
  judged (`Disturbance.Disturbed`): no stop is on its way to terminate a record; no callback, pending or still
  to come, finds no stop recorded or can have the recorded stop overwritten (for a failure only those of a stop
  count); and, for a success, no other run may still call `setMonitor`.  Each way to break it is reachable: a
  monitor requested again after a repetition of it failed (`MonitorPromise.FirstSuccessIsHidden`), one requested
  after a stop has finished (`MonitorPromise.FirstFailureIsHidden`), one dispatched between the report of an
  asynchronous stop and its close (`MonitorPromise.RacingStopHides`), and one dispatched while an earlier monitor
  is under way (`MonitorPromise.EarlierRunHides`).
* *The resource manager goes on answering.*  Its dispatcher drains two channels that it also sends on: the one
  for requests, when it has read one, and the one for reports, inside a synchronous request.  At either send it
  can return exactly when that channel has room (`Deadlocks.ReturnsExactlyWithRoom`); states in which it never
  does are reachable for both (`Deadlocks.StuckIsReachable`, `Deadlocks.StuckTakingInIsReachable`); it is stuck
  at neither while at most 128 results are unanswered and at most 128 requests it has read are not dispatched
  (`Deadlocks.NotStuckWhileFewAreUnanswered`).  And a request with fewer parameters than it says ends the program
  when it is dispatched (`Deadlocks.PanicsExactlyOnMissingParameters`, `Deadlocks.PanicIsReachable`).  With this
  controller there are at most two of either, and no such request (`SystemTheorems.NoSendBlocks`).
* *Splitting a parameter string gives name and value back.*  Exactly for a non-empty name without "="
  (`Parameters.SplitInvertsAssignment`).
* *Sequence numbers identify a call.*  Exactly within a window of 2^64 - 1 calls (`Mux.SameNumber`,
  `MuxWindow.ReplyWakesTheWrongCaller`).

The comment at `rmanager/rman.go:50` says that `terminate` is always false; the code sets it after a stop
(line 99), and the model follows the code.

## Model

| member | source | states |
|---|---|---|
| Ints.Wrap64 | rmanager/rman.go:230 | a 64-bit product is congruent to the true one modulo 2^64, and equal to it when that fits |
| Ints.PauseIsTheWrappedProduct | rmanager/rman.go:230 | a timer lasts the nanoseconds that are congruent to the product modulo 2^64 as a signed number, and is due at once if that is negative |
| Ints.PauseIsExact | rmanager/rman.go:229-230 | a timer lasts its milliseconds exactly when they do not overflow the nanosecond count |
| Records.ExecrscMap.RecordRscOp | rmanager/rman.go:84-91 | the resource's entry is replaced by a new, not terminated record; the others stay |
| Records.ExecrscMap.SetRscTerminate | rmanager/rman.go:93-102 | only a stop marks its record, if there is one |
| Records.ExecrscMap.IsRscTerminate | rmanager/rman.go:105-116 | true exactly for a terminated record |
| Records.ExecrscMap.IsRscStop | rmanager/rman.go:119-130 | true exactly when the last recorded operation is stop |
| Records.ExecrscMap.StopTimer | rmanager/rman.go:133-145 | a stop, and only a stop, cancels the timer its resource's record names, if any |
| Records.ExecrscMap.GetCount | rmanager/rman.go:148-154 | the recorded count, 0 without a record |
| Rmanagers.Rmanager.MessageResourceHandler | rmanager/main.go:68-80 | the dispatcher holds the request it has read and is bound to send it on, room or not; a step of Engine |
| Rmanagers.Rmanager.MessageResourcePut | rmanager/main.go:80 | with room the request joins rscOpRecvMessage_ch; a step of Engine |
| Rmanagers.Rmanager.ParametersPanic | message/message.go:83-90 | a request with fewer parameters than it says ends the program; a step of Engine |
| Rmanagers.Rmanager.ProcessRscOpMessage | rmanager/main.go:85-98 | takes the oldest request and enters ExecRscOp with its arguments; a step of Engine |
| Rmanagers.Rmanager.ProcessRscOpEvent | rmanager/main.go:101-134 | answers the oldest report, under its number; a step of Engine |
| Rmanagers.Rmanager.TimerFires | rmanager/rman.go:229-236 | a due timer is disarmed and its callback starts, before the stop check; a step of Engine |
| Rmanagers.Rmanager.Callback | rmanager/rman.go:231-235 | the callback goes on to ExecRscOp exactly when no stop is recorded; a step of Engine |
| Rmanagers.Rmanager.ExecRscOpEnter | rmanager/rman.go:244-262 | a request without interval cancels a recorded timer first, then the delay; a step of Engine |
| Rmanagers.Rmanager.ExecRscOpRecord | rmanager/rman.go:253-262 | a request without interval is recorded with count 0; a step of Engine |
| Rmanagers.Rmanager.ExecRscOpSpawn | rmanager/rman.go:264-265 | the process goroutine and the waiter exist, the dispatcher is free if asynchronous (lines 361-368); a step of Engine |
| Rmanagers.Rmanager.WaitChildFinished | rmanager/rman.go:325-328 | the waiter consumes the finish result; a step of Engine |
| Rmanagers.Rmanager.WaitChildTimedOut | rmanager/rman.go:339-346 | the waiter consumes the timeout result, kills the process and is bound to report; a step of Engine |
| Rmanagers.Rmanager.WaitChildJudge | rmanager/rman.go:328-338 | a finish result is dropped if the record is terminated or a recurring monitor repeats a success; a step of Engine |
| Rmanagers.Rmanager.WaitChildPost | rmanager/rman.go:334-348 | the report joins rscOp_ch; a step of Engine |
| Rmanagers.Rmanager.WaitChildRearm | rmanager/rman.go:351-354 | setMonitor is entered exactly for a success with a positive interval, and writes its first record; a step of Engine |
| Rmanagers.Rmanager.SetMonitorArm | rmanager/rman.go:229-236 | the timer is armed for the next repetition; a step of Engine |
| Rmanagers.Rmanager.SetMonitorRecord | rmanager/rman.go:238 | the second record names the timer; a step of Engine |
| Rmanagers.Rmanager.WaitChildClose | rmanager/rman.go:356-358 | a stop marks the record terminated and the waiter is gone; a step of Engine |
| Rmanagers.Rmanager.StartProcess | rmanager/rman.go:287-297 | the agent is launched now; a step of Engine |
| Rmanagers.Rmanager.ArmTimeout | rmanager/rman.go:299-304 | the timeout runs from after the launch; a step of Engine |
| Rmanagers.Rmanager.WaitReturns | rmanager/rman.go:306-314 | the result is OK exactly for a successful exit; a step of Engine |
| Rmanagers.Rmanager.StopTimeout | rmanager/rman.go:308 | Stop cancels a timeout that has not expired, and no other; a step of Engine |
| Rmanagers.Rmanager.CountRun | rmanager/rman.go:317 | the count is read before the result is sent; a step of Engine |
| Rmanagers.Rmanager.SendFinished | rmanager/rman.go:318 | the finish result carries the request's data; a step of Engine |
| Rmanagers.Rmanager.TimeoutFires | rmanager/rman.go:300-304 | an expired timeout no longer depends on Stop; a step of Engine |
| Rmanagers.Rmanager.SendTimedOut | rmanager/rman.go:303 | the timeout result is a failure with the request's data; a step of Engine |
| EngineInvariants.TiedStep | rmanager/rman.go:244-369 | every step keeps: each goroutine, timer, run and result carries its own request's data; only recurring requests repeat |
| EngineInvariants.WaitsStep | rmanager/rman.go:325-349 | every step keeps: a waiter waits for its own run, and every run not launched yet is waited for |
| EngineInvariants.LinearStep | rmanager/rman.go:224-369 | every step keeps: a chain is held by at most one goroutine or armed timer |
| EngineAccounts.EndedStep | rmanager/rman.go:325-358 | every step keeps: after a failure or timeout was received nothing holds the chain but the goroutine dealing with it |
| EngineAccounts.BalancedStep | rmanager/rman.go:325-349 | every step keeps: results received = reports + suppressed + still being judged, as multisets |
| EngineAccounts.CoveredStep | rmanager/rman.go:325-349 | every step keeps: a run is waited for, or a result of it was received |
| EngineAccounts.RepliedStep | rmanager/main.go:101-134 | every step keeps: replies sent plus reports queued are the posts, in order |
| EngineTheorems.ChainIsLinear | rmanager/rman.go:224-369 | in every reachable state a chain owns at most one waiter, launch to come, callback or armed timer, and two of its runs never overlap |
| EngineTheorems.FailureEndsTheChain | rmanager/rman.go:300-354 | once a waiter received a failure or a timeout, whichever won the race, no run ever starts an agent for the chain again |
| EngineTheorems.ExactlyOneAnswer | rmanager/rman.go:246-351 | each run is answered at most once, is waited for exactly until then, and each answer is in exactly one of posts, suppressed results or a goroutine's hands |
| EngineTheorems.ReplyCarriesItsNumber | rmanager/main.go:85-134 | reply i carries the sequence number, resource, operation and agent of the dispatched request behind post i, through any number of repetitions |
| Requests.RequestsAreDispatchedInTurn | rmanager/main.go:68-98 | in every run the requests read are dispatched in their order, each with its own number, resource, path, operation, times, mode and parameter strings, and the others wait in their order |
| Requests.AgentsAreStartedAsAsked | rmanager/rman.go:264-288 | every agent is started with path, operation and parameter strings of the request it belongs to: as many as the request says, string i being name, "=" and value of parameter i |
| Requests.ParametersReachTheAgents | rmanager/rman.go:272-288 | parameter i of a request, with a name that survives splitting, has its value in the environment of every agent of the request exactly when the last string that gives the variable a value gives this one |
| Requests.RepliesAnswerWhatWasAsked | rmanager/main.go:101-134 | reply j carries number, resource, operation and path of the request read from the socket that post j belongs to, and the post's result |
| Launches.LaunchesAreTheStarts | rmanager/rman.go:288-296 | the launches are the starts of processes, in order, with the pids these got, and each run is launched once |
| Delays.DelayIsWaited | rmanager/rman.go:259-265 | in no run does an agent of a request start before the request's delay has passed since it was dispatched |
| Delays.DelayIsAttained | rmanager/rman.go:259-265 | from every dispatch some run starts the agent exactly the delay later |
| Timeouts.TimeoutIsNotEarly | rmanager/rman.go:299-304 | in every run a waiter receives a timeout no earlier than the request's timeout after the launch of its own run |
| Timeouts.TimeoutIsAttained | rmanager/rman.go:299-346 | for every request and pid some run times the agent out, and kills it, exactly the timeout after its launch |
| Timeouts.TimedOutAgentsAreKilled | rmanager/rman.go:339-345 | the processes killed are, in order, those started for the runs whose timeouts were received, each after its time |
| Timeouts.ResultsNameTheirProcess | rmanager/rman.go:303-318 | every result received names the pid that was started for its run |
| Timeouts.ExitInTimeIsNotTimedOut | rmanager/rman.go:306-308 | an agent whose exit is noticed before its timeout is due is timed out in no run |
| Timeouts.ExitDecidesTheResult | rmanager/rman.go:310-318 | the finish result of a run is OK if its agent exits successfully and an error if not, in every run |
| Reporting.ReportedExactlyUnlessRepeated | rmanager/rman.go:325-348 | of the results judged, a timeout is always reported and a repeated success of a recurring monitor never; while no stop of the resource has been reported everything else is, whatever the operation |
| Counting.CountsAreEarned | rmanager/rman.go:148-154 | a result with a positive count comes after a success of a recurring request for the same resource |
| Counting.FirstSuccessIsReported | rmanager/rman.go:325-338 | while no stop of its resource has been reported, a suppressed result is a monitor's success after an earlier success of the resource |
| Occupation.DispatcherIsInsideTheFirstRun | rmanager/rman.go:361-368 | in every reachable state the dispatcher is inside a goroutine if and only if that is the first run of a synchronous request, to its end, or of an asynchronous one, up to its spawn |
| Cancelling.TimersAreDisarmedExactlyBy | rmanager/rman.go:133-145 | in every reachable state a step disarms a timer if and only if it fires it or begins a stop of its resource whose record names it, whatever operation armed it; no other timer is touched |
| Cancelling.CallbackGoesOnExactlyUnlessStopped | rmanager/rman.go:231-235 | a callback goes on if and only if its resource's record, if any, is not a stop's - whether or not it is terminated |
| Cancelling.StopEndsTheRepetition | rmanager/rman.go:133-145 | where the timer a stop cancels was all that could go on, no run without a new request has a callback or a timer of the resource again |
| Cancelling.StopFindsTheTimer | rmanager/rman.go:224-257 | for every recurring request and stop a reachable state in which the stop finds the request's timer armed and named, and cancels it |
| Cancelling.StopMissesTheTimer | rmanager/rman.go:133-145 | for every recurring request, other request of its resource and stop a reachable state in which the stop leaves the request's timer armed |
| Deadlocks.HaltedForever | rmanager/rman.go:334-348 | with the dispatcher about to send on a full channel, rscOp_ch or rscOpRecvMessage_ch, or after a panic, no run answers, dispatches or takes in anything again |
| Deadlocks.ReturnsExactlyWithRoom | rmanager/main.go:80 | a dispatcher at either of its sends, of a report or of a request it has read, gets back to its polls in some run if and only if that channel has room |
| Deadlocks.ReturnsWithRoom | rmanager/rman.go:244-369 | with room in both channels the dispatcher gets back to its polls in some run from wherever it is |
| Deadlocks.NotStuckWhileFewAreUnanswered | rmanager/rman.go:388-389 | the dispatcher is stuck at neither send in a reachable state with at most 128 results received, not suppressed and unanswered, and at most 128 requests read and not dispatched |
| Deadlocks.StuckIsReachable | rmanager/rman.go:334-348 | for every two requests that do not repeat, the second synchronous, a state stuck at a report is reachable |
| Deadlocks.StuckTakingInIsReachable | rmanager/main.go:68-80 | for every request a state stuck at taking it in is reachable, with nothing unanswered |
| Deadlocks.PanicsExactlyOnMissingParameters | message/message.go:83-90 | dispatching the oldest request ends the program if and only if it has fewer parameters than it says, and then nothing happens any more |
| Deadlocks.PanicIsReachable | rmanager/main.go:85-94 | every such request can end the program |
| StopBarrier.BarrierStep | rmanager/rman.go:119-145 | one step keeps the barrier, and launches only use up launches that were pending |
| StopBarrier.StopIsABarrier | rmanager/rman.go:119-145 | with a stop recorded and nothing under way that may repeat, no run without a new request starts more agents than were already past their stop check, however many timers are armed |
| Repetition.HalfDoneSetMonitorRepeats | rmanager/rman.go:224-241 | from inside setMonitor, whatever is recorded, the agent can start again exactly one period later |
| Repetition.StopIsOvertaken | rmanager/rman.go:351-356 | for every recurring request, synchronous or not, and every stop of its resource there is a reachable state with the stop recorded from which the agent starts again without a new request |
| Repetition.StopHoldsExactlyWhenSettled | rmanager/rman.go:119-356 | with a stop recorded, no run without a new request starts the resource's agent if the state is settled - dormant, or behind the barrier with nothing pending - and, before a panic, only if, wherever rscOp_ch has room, the dispatcher can make some, or something can go on without a report |
| MonitorReports.MonitorStep | rmanager/rman.go:226-354 | every step without another request keeps the correspondence of the record, results received and reports sent |
| MonitorReports.MonitorTrace | rmanager/rman.go:226-354 | a monitor of a resource whose leftovers cannot touch the record receives ok^k and at most one failure after it; it reports the first success exactly when k > 0 and the record found was neither terminated nor counted, and the failure unless it is the first result, no timeout, and that record was terminated |
| Disturbance.CalmHere | rmanager/rman.go:253-356 | whatever a leftover goroutine past its stop check does next, a calm resource stays calm |
| Disturbance.CalmCallback | rmanager/rman.go:231-235 | a leftover callback that makes its stop check leaves a calm resource calm |
| FirstReport.PromisedStep | rmanager/rman.go:317-351 | every step without another request keeps: the monitor's first result is still to come or being judged on a calm resource, has been reported, or is not the one in question |
| Disturbing.Hides | rmanager/rman.go:224-356 | from every state the leftovers can disturb some run in which the monitor does not move makes the record hide its first result |
| MonitorPromise.FirstResultIsReported | rmanager/rman.go:317-356 | a monitor dispatched in any reachable state reports a first success - and a first failure - in all runs without another request for its resource if and only if the resource is calm: the record found hides no such result and no leftover of an earlier request can make it (the only-if for leftovers with room for two reports) |
| MonitorPromise.ClearIsCalm | rmanager/rman.go:317-356 | where nothing left can touch the record, the record found decides alone |
| MonitorPromise.FirstSuccessIsHidden | rmanager/rman.go:226-338 | for every monitor a reachable state in which, requested again after a failed repetition, its first success goes unreported in some run |
| MonitorPromise.FirstFailureIsHidden | rmanager/rman.go:326-356 | for every monitor and stop a reachable state, after the stop has finished, in which even a first failure goes unreported in some run |
| MonitorPromise.RacingStopHides | rmanager/rman.go:347-356 | for every monitor and asynchronous stop a reachable state, between the stop's report and its close, in which the record found hides nothing and yet first success and first failure go unreported in some run |
| MonitorPromise.EarlierRunHides | rmanager/rman.go:224-241 | for every asynchronous monitor a reachable state, with an earlier run of it under way, in which the record found hides nothing and yet a first success goes unreported in some run |
| MonitorSpacing.LaunchesKeepTheirDistance | rmanager/rman.go:228-262 | in every run, launch j of a chain is at least (j - i) periods after launch i; the delay counts on every repetition |
| Distance.PeriodIsAttained | rmanager/rman.go:228-262 | some run of every recurring request has two launches exactly one period apart |
| Distance.PeriodIsTheDistance | rmanager/rman.go:228-262 | a distance is kept in all runs if and only if it is at most the period |
| Distance.NominalDistanceIsKept | rmanager/rman.go:228-262 | interval plus delay is kept in all runs if and only if neither overflows the nanosecond count |
| IpcClients.IpcClientController.GetSeqno | ipcc/ipcc.go:108-118 | returns the successor, wrapping past the largest number to 1; a step of Mux |
| IpcClients.IpcClientController.SetSyncMapEntry | ipcc/ipcc.go:89-97 | a synchronous request is registered unless its number is taken |
| IpcClients.IpcClientController.RemoveSyncMap | ipcc/ipcc.go:100-105 | only the number's entry goes |
| IpcClients.IpcClientController.SendRecvAsync | ipcc/ipcc.go:128-139 | queued with number 0 and no waiter; a step of Mux |
| IpcClients.IpcClientController.SendRecvCall | ipcc/ipcc.go:142-157 | queued with its number and its own channel, then blocked; a step of Mux |
| IpcClients.IpcClientController.SendRecvReturn | ipcc/ipcc.go:159-167 | the reply is passed on to ipcrecv_ch before the call returns; a step of Mux |
| IpcClients.IpcClientController.RunReceive | ipcc/ipcc.go:186-200 | a registered number is removed and its reply goes to the waiter, any other to the queue; a step of Mux |
| IpcClients.IpcClientController.RunHandOver | ipcc/ipcc.go:197 | loop and caller meet, and the caller holds the reply; a step of Mux |
| IpcClients.IpcClientController.RunQueue | ipcc/ipcc.go:200 | the message joins ipcrecv_ch; a step of Mux |
| IpcClients.IpcClientController.RunSend | ipcc/ipcc.go:202-204 | registration comes before the write; a step of Mux |
| IpcClients.IpcClientController.RunWrite | ipcc/ipcc.go:205 | the message joins snd_write_ch; a step of Mux |
| IpcClients.IpcClientController.Sender | ipcc/ipcc.go:45-58 | messages leave in the order they were queued; a step of Mux |
| IpcClients.IpcClientController.Receiver | ipcc/ipcc.go:29-42 | what is read joins rcv_read_ch; a step of Mux |
| IpcClients.IpcClientController.TakeReceived | ipcc/ipcc.go:213-215 | the oldest message of ipcrecv_ch; a step of Mux |
| Mux.NumberIs | ipcc/ipcc.go:108-118 | the k-th call of a fresh client returns ((k - 1) mod (2^64 - 1)) + 1 |
| Mux.SameNumber | ipcc/ipcc.go:108-118 | two calls get the same number if and only if they are a multiple of 2^64 - 1 apart; 0 is never returned |
| MuxAlways.AlwaysStep | ipcc/ipcc.go:89-206 | every step whatsoever keeps the laws of hand-over, single wake-up, conservation and order |
| MuxInvariants.InvStep | ipcc/ipcc.go:142-206 | every orderly step keeps the laws of numbers, registration, answers, conservation and order |
| MuxTheorems.NumbersInUseDiffer | ipcc/ipcc.go:108-118 | in every state reachable in order calls in use have different numbers, each the one of the number law |
| MuxTheorems.HandOverHasAReceiver | ipcc/ipcc.go:193-197 | in every run, whatever callers and server do, the loop's send to a caller never blocks: that caller waits, for that number |
| MuxTheorems.RegistrationSucceeds | ipcc/ipcc.go:89-97 | a synchronous request never meets an existing key, so its caller gets registered |
| MuxTheorems.NoReplyOvertakesRegistration | ipcc/ipcc.go:202-206 | a blocked caller whose request has reached the server is registered or just being woken |
| MuxTheorems.RepliesAreRouted | ipcc/ipcc.go:186-201 | number 0 goes to the queue; any other belongs to exactly one call in use, wakes it if it is blocked, and goes to the queue if it was woken before |
| MuxTheorems.WokenOnceByItsOwnReply | ipcc/ipcc.go:159-197 | in every run, whatever callers and server do, each caller is woken at most once, by a message with its own number |
| MuxTheorems.NothingIsLost | ipcc/ipcc.go:154-206 | in every run, whatever callers and server do, messages read = messages on ipcrecv_ch ever + in the loop's hands + held by callers, as multisets; asynchronous ones keep their order |
| MuxOrder.OrderIsKept | ipcc/ipcc.go:29-206 | in every run what is given to SendRecv and SendRecvAsync is written to the socket in that order, what is read from it is taken by the loop in that order, and what is put into ipcrecv_ch comes out in that order, with nothing lost or added |
| MuxWindow.ReplyWakesTheWrongCaller | ipcc/ipcc.go:89-118 | a run of 2^64 calls of GetSeqno, orderly but for the window, in which the reply that comes after two requests with the same number wakes the first caller while the second stays blocked, unregistered |
| Controllers.Controll.ProcessRun | chhandler/chhandler.go:89-91 | posts STARTUP; a step of System |
| Controllers.Controll.SetNodeid | controller/main.go:246-252 | only the first id counts; a step of System |
| Controllers.Controll.ResourceControl | controller/control.go:98-204 | step 1 makes the start request, step 2 the monitor request, each with the next number; nothing afterwards |
| Controllers.Controll.ProcessStatus | controller/main.go:110-150 | STARTUP greets, CONTROL_RESOURCE requests or posts OPERATIONAL; a step of System |
| Controllers.Controll.SendHello | controller/main.go:120-135 | a hello with number 0 is queued; a step of System |
| Controllers.Controll.SendRequest | controller/control.go:195-197 | the dispatcher blocks in SendRecv; a step of System |
| Controllers.Controll.SendRecvReturns | controller/control.go:197-199 | the next step begins when the reply is passed on; a step of System |
| Controllers.Controll.ProcessIpcClientMessage | controller/main.go:153-183 | a response leads to CONTROL_RESOURCE, a hello too once the node id is known, else to STARTUP; a step of System |
| Controllers.Controll.PostStatus | controller/main.go:140-174 | the status joins Status_ch; a step of System |
| Service.StageStep | rmanager/rman.go:325-358 | every step keeps: a synchronous request that does not repeat, then a monitor, dispatched only after the first was reported; and a chain without a report has a goroutine on its way to one |
| Service.ReportsAreFew | rmanager/rman.go:328-348 | the start is reported at most once, the monitor at most twice |
| SystemInvariants.NetStep | controller/main.go:110-183 | every step of the whole system keeps the token balance |
| SystemInvariants.InvStep | controller/control.go:98-204 | every step of the whole system keeps all invariants |
| SystemTheorems.TokensAreConserved | controller/main.go:110-183 | everything in flight + OPERATIONALs handled + replies lost = 1 + late monitor reports, and never more than 2 in flight |
| SystemTheorems.NoSendBlocks | base/base.go:50 | whatever send dispatcher, SendRecv, ProcessRun, event loop, receiver, waiter or the free dispatcher of the resource manager is at can go through at once |
| SystemTheorems.MultiplexerIsUsedOrderly | controller/control.go:98-204 | in every step of the system callers and resource manager do what Mux relies on: window, header numbers, and replies only to what was sent |
| SystemTheorems.RequestsAreSequenced | controller/control.go:98-204 | the requests are at most two, with every field stated: number 1, "start" of resource 1 with Dummy2, once, 30 s, synchronous; then number 2, "monitor" of the same every 5 s, 20 s, asynchronous; none before the node id is known or before the previous one was answered by its own response; OPERATIONAL only after both answers |
| Progress.RankStep | controller/main.go:110-175 | with the node id known, every move lowers the rank and nothing else raises it |
| Progress.BoundedWork | controller/main.go:110-175 | from any reachable state with the node id known, no run contains more than 162 moves |
| Liveness.OnItsWayStep | ipcc/ipcc.go:159-206 | every step keeps: the reply of a blocked SendRecv is somewhere on its way, unless lost |
| Liveness.NoDeadlock | controller/main.go:110-183 | until OPERATIONAL was handled, and unless a reply was lost, a move is possible or the engine owes a report |
| Attainment.OperationalStaysAttainable | controller/main.go:110-183 | from every reachable state without a lost reply some run without lost replies leads to OPERATIONAL being handled |
| EndToEnd.ComponentsAreReachable | ipcc/ipcc.go:183-208 | what multiplexer and engine do inside the system are runs of their own, orderly ones of the multiplexer: every theorem about either holds in it |
| EndToEnd.RepliesAnswerRequests | rmanager/main.go:101-134 | every reply of the resource manager is the response to one of the requests sent, under its number |
| EndToEnd.AnswersFindTheirCallers | ipcc/ipcc.go:186-201 | a message the multiplexer takes is a hello reply and queued, or the response to a request sent: it wakes that request's caller if it still waits, and is queued if the request was answered before, as a monitor's later failure is |
| EndToEnd.EachCallerIsWokenOnce | controller/control.go:195-198 | each answered request was answered by exactly one of the messages read, the one that woke its caller and is its response |
| Traffic.OutboundMessagesAre | controller/main.go:120-135 | in every reachable state whatever is on its way to the resource manager is the hello, with number 0, or one of the two requests, field by field |
| Traffic.InboundMessagesAre | rmanager/main.go:47-134 | whatever is on its way to the controller is the hello reply, field by field, or the answer to a request sent |
| Traffic.AgentsAre | rmanager/rman.go:264-288 | every agent the whole system ever starts is Dummy2 with "start" or "monitor" and has OCF_RESKEY_start or OCF_RESKEY_monitor set to 0 |
| Traffic.NodeIdIsTheFirst | controller/main.go:246-252 | in every run the node id is the first one other than 0 that a callback brings |
| Traffic.StatusFollowsStartup | controller/main.go:117-118 | in every run the status is ALL_CLIENT_UP if a STARTUP was handled and STARTUP if not |
| Traffic.LostUntilTheNextHello | ipcs/ipcs.go:41-53 | after a failed write nothing reaches the controller, and every reply is lost, until a hello is answered |
| Traffic.WelcomedIsAnswered | rmanager/main.go:37-62 | an answered hello makes the controller known: its reply is written, and so is the next report |
| Progress.AtMostOneMoreHello | controller/main.go:166-175 | once the node id is known at most one more hello is sent, and none after the first request |
| Dispatchers.Dispatcher.SetChannelHandler | chhandler/chhandler.go:31-40 | a new channel goes to the end of the list |
| Dispatchers.Dispatcher.Pass | chhandler/chhandler.go:66-87 | one pass polls every slot once, in order, without waiting |
| Dispatchers.PassIsFaithful | chhandler/chhandler.go:66-87 | per channel, handled items followed by queued ones are the items sent, in order, and only its own handler got them |
| Dispatchers.PassIsInOrder | chhandler/chhandler.go:66-87 | the handler calls of one pass are in the order of the list, one for each channel at most |
| Dispatchers.ArrivalsJoinTheEnd | chhandler/chhandler.go:66-87 | what is put into a channel meanwhile joins its end in that order |
| Dispatchers.RunHandles | chhandler/chhandler.go:66-87 | over any number of passes a channel gets as many calls as it had turns and items, and no more than one a pass |
| Dispatchers.BoundedWaiting | chhandler/chhandler.go:66-87 | an item with p before it is handled within p + 1 + s passes, s the polls of its slot taken by signals |
| Clients.ClientMap.SendIpcToClient | ipcs/ipcs.go:41-53 | a failed write closes and removes the client, nothing else changes the map, and the code is always OK |
| Clients.ClientMap.MessageHelloHandler | rmanager/main.go:38-62 | the sender is registered, over an older connection too, and answered |
| Clients.CurrentIsTheLatestHello | ipcs/ipcs.go:41-53 | after any history an id maps to a connection if and only if its latest hello came over it and no write to it failed since |
| Parameters.ParametersToString | message/message.go:83-90 | the first len parameters as assignments; a length beyond the list is an index panic |
| Parameters.IndexOf | rmanager/rman.go:275 | the first position of "=", or -1 |
| Parameters.SplitInvertsAssignment | rmanager/rman.go:275-278 | splitting gives name and value back if and only if the name is non-empty and has no "=" |
| Parameters.RoundTrip | message/message.go:83-90 | each encoded parameter with such a name is split into its name and value |
| Parameters.GivenIsTheLast | rmanager/rman.go:274-279 | the value given for a variable is that of the last string that sets it |
| Parameters.SetResourceEnvironment | rmanager/rman.go:272-279 | afterwards every variable has its last given value, OCF_ROOT its fixed one, every other its old one |
| Parameters.NoZeroByteIsSet | rmanager/rman.go:274-279 | no string puts a zero byte into a variable's name or value: os.Setenv refuses it and the loop goes on |
| Parameters.OthersAreKept | rmanager/rman.go:272-279 | no string changes a variable without the prefix OCF_RESKEY_; OCF_ROOT is /usr/lib/ocf whatever it was |
| Parameters.ParameterReachesTheAgent | rmanager/rman.go:272-279 | a parameter reaches the agent with its value if and only if, from its own string on, the last one that gives the variable a value gives this one |
| Backoff.CsRepeat | corosync/corosync.go:28-48 | a phase ends with the first answer that is not a full queue, not a call to try again and, in the first phase, not a library error, or with the thirtieth; k retried answers sleep 1 + ... + k seconds |
| Backoff.LeadingCounts | corosync/corosync.go:28-48 | the number of retryable failures is exactly that of the leading retryable answers, cut off at 30 |
| Backoff.CompletesExactly | corosync/corosync.go:236-266 | a setup completes if and only if in each of its four phases one of the first thirty answers is Ok and all before it are retried; only the first phase retries a library error |
| Backoff.Connector.RetryBackoff | corosync/corosync.go:20-26 | the sleep grows by one second with every failure |
| Backoff.Connector.TrySetup | corosync/corosync.go:236-266 | a complete setup resets recnt, a failed phase ends the setup, raises recnt and sleeps that long |
| Backoff.SetupBound | corosync/corosync.go:236-266 | one setup sleeps at most 1770 seconds in its phases |
| Backoff.SetupBoundIsTight | corosync/corosync.go:236-266 | some failed setup sleeps exactly that long |
| Backoff.Connector.Loop | corosync/corosync.go:231-277 | recnt and the total sleep after any series of setups |
| Backoff.FailedSinceCompleteCounts | corosync/corosync.go:231-277 | recnt is the length of the unbroken series of failures at the end |
| Backoff.FailuresSleepAtMost | corosync/corosync.go:231-277 | n failed setups in a row back off exactly n (n + 1) / 2 seconds and sleep at most 1770 n in their phases |

## Left out

- Sockets, process spawning, syslog, JSON, configuration and recipe loading: library code and I/O; messages are immutable values.
- The contents of queued bytes in `ipcc/ipcc.go:31-39`, where one buffer is reused, and fragmented or joined reads.
- The timeout parameter of `SendRecv`: the code never uses it.
- A failed process start (`rmanager/rman.go:289-294`): the code dereferences a nil process there.
- `Terminate`, SIGTERM and other signals than SIGCHLD: shutdown is not modelled.
- Environment updates by several process goroutines at once: the environment loop is proved for one goroutine at a time.
- Searches in the handler tables and messages of unknown type: easy members.
- `controller/childs.go`, `test_ipc_client`, constants and debug helpers: no deep property.
- corosync callbacks other than the one setting the node id, the quorum connection and the select loop of `runs`: foreign code.
- The width of `recnt` and `retries` in C, and a library answer outside the five kinds of `Backoff.Answer` beyond "some other error".
- The overall order on `ipcrecv_ch`: a synchronous reply can be overtaken, so only its contents and the order of asynchronous messages are claimed.
- That monitoring follows a successful start: the controller ignores result codes.
- Records are values in the table of `ExecrscMap`, where the source has pointers; no other reference to an entry exists there.
- The goroutines of the resource manager are entries of a map in `Rmanager`, advanced by methods; the scheduler that picks them is the choice of events.
- Repetition.StopHoldsExactlyWhenSettled: with rscOp_ch full, the dispatcher blocked or inside a run, and only goroutines left that have still to report, only one direction is stated, because the repetition may be blocked for good behind the dispatcher (`Deadlocks.HaltedForever`).
- MonitorPromise.FirstResultIsReported: that a leftover does break the promise is stated with room for two reports in rscOp_ch, because a leftover may have to report before it can touch the record.
- Deadlocks.ReturnsExactlyWithRoom: for a dispatcher inside a run whose report is still to come, with rscOp_ch full, nothing is stated: it depends on whether the result will be suppressed.
- Deadlocks.StuckIsReachable: polls in any order, as if every poll of rscOp_ch between two requests were taken by a signal; the same goes for rscOpRecvMessage_ch in Deadlocks.StuckTakingInIsReachable.
- That an agent does exit, a signal does not keep a slot from being polled, and a reply can be written: Attainment says that a run to OPERATIONAL exists, not that it is taken.
