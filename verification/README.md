# kernmini, modelled and verified in Dafny

kernmini is a Jupyter kernel engine. It runs a set of small concurrent machines: a scheduler per
session, a kernel loop that routes requests to sessions, an output pump per execution, a debug adapter
client, two interrupt protocols, and the transport below them. This project models each of them step
by step and proves what every run keeps.

Each machine has two forms. The first is a value with a `Next` function over small steps. A step is
what a task does between two awaits, or what a thread does under one lock, and the theorems are about
every sequence of steps, so about every interleaving. Some steps join several awaits; why that loses no
behaviour is said below. The second is the form of the source: classes whose methods update their fields
in place and loop where the source loops. Each method is proved to take a state that the fields stand
for to the state that the machine steps to.

| file | what it models |
|---|---|
| `Messages.dfy` | requests, the engine's own messages, the transcript of one request, the status bracket |
| `Scheduler.dfy` | the shell scheduler as a machine: channels, priority queue, hold, execution, interrupt, stop |
| `SchedulerInv.dfy`, `SchedulerOrder.dfy`, `SchedulerLanes.dfy`, `SchedulerCount.dfy`, `SchedulerProgress.dfy` | what its steps keep: conservation, order, the lane and the interrupt fence, numbering, progress |
| `SchedulerRuns.dfy` | the theorems over whole runs of a shell |
| `SchedulerLaws.dfy` | which request leaves the queue next, what each control publishes, and how the loop ends |
| `ShellQueue.dfy`, `ShellService.dfy` | the same scheduler with its fields updated in place, proved against the machine |
| `Kernel.dfy`, `KernelRuns.dfy`, `KernelReplies.dfy`, `KernelStops.dfy` | the kernel loop with its shells running beside it, and the theorems that span both loops |
| `KernelRouting.dfy` | which shell a message goes to, what changes the registry and the routes, and what ends the loop |
| `KernelErrands.dfy` | interrupts and releases, sent to one shell after another while the shells run |
| `KernelFailures.dfy` | the runs in which the kernel loop falls short, and exactly when it does not |
| `KernelLoop.dfy` | the kernel loop's registry and routes updated in place |
| `OutputPump.dfy`, `ExecutionTrace.dfy` | the batching pump, and one execution interleaved with its pump |
| `DapClient.dfy`, `DapFraming.dfy` | the debug adapter client with any number of senders and closers; `Content-Length` framing |
| `ExecutionInterrupt.dfy`, `UserCode.dfy` | interrupt requests and handler registration; delivery to Python user code |
| `PeerTable.dfy`, `Iopub.dfy`, `Wire.dfy` | the stdin peer table, the iopub broadcast, signed messages with the replay filter |

## How the model is set up

- A shell's order stamp is the position at which a request was sent to the shell. A channel is the
  history of what was sent, with how much of it has been read.
- `Interrupt` remembers how many requests had been sent to the shell when it was sent. The code has no
  such number: it only lets the theorems say what "sent before the interrupt" means.
- Priorities are real numbers, since a JSON number is never NaN.
- The hold deadline and debugger timeouts are steps that may come at any time.
- Publishing and replying succeed. Code run by the language, JSON, HMAC and UUIDs are opaque; a UUID is
  new.
- Steps that hold the Python GIL are atomic.

These steps join several awaits of the code.

- `AbortPending`, `ApplyControl`, `Handle` and the hold timeout of a shell publish and reply between their
  changes to the shell's fields. In between, other tasks can only append to the shell's channels and
  publish about other requests. What is appended before the step's own drain is read by that drain, as
  if it had come before the step; what is appended later is read by a later step. Messages about
  different requests may come in another order in the log, but each request's transcript, which is what
  the theorems are about, is the same.
- The flush of an `interrupt_request` or `release_request` routes message by message while the shells
  run. A run in which shells take steps between two of these messages is also a run of the model: there
  the earlier messages are routed by `RouteNext` steps before the request.
- Arms of the kernel loop that create a child await the language. Nothing else changes the registry
  meanwhile, and the new shell does not run before it is registered.

## What does not hold

Each of these is stated with a run that shows it, and with the exact condition under which the code
does what is wanted.

- A hold that is popped while another request is held takes its place and leaves it unanswered for
  good (`HoldOverHold`, `DisplacedForever`). No other step loses a hold (`DisplacedGrowth`).
- A request that is sent between the drain of the requests and the drain of the controls is lost if the
  control is a stop (`RequestLostAtStop`), and so is one that is sent between the drain of the controls
  and the checks of a shell that is already stopping (`RequestLostAtCheck`). One that is sent while the
  shell is at the head of its loop or in `select!` never is (`SureToBeReadExactly`). Every request is
  answered exactly if none is lost and no hold is displaced (`StopExitAnswersAll`). A shell that is
  interrupted before it is stopped reads everything (`RetiredShellAnswersAll`). `subshell()` stops its
  shell without an interrupt and can lose a request so (`RequestLostAtClose`), but not if its shell is at
  the head of its loop or in `select!` then, or was when the request was routed
  (`ClosedShellAnswersWhatItRead`, `RoutedAtRestIsAnswered`).
- Closing a route with `delete` leaves other sessions' routes to the same shell dangling
  (`OrphanedRoute`, `RoutesStayLive`, `OrphanIsRefused`). `subshell()` and `sidecar()` never do this
  (`RoutesNameLiveShells`).
- Deleting the subshell with the empty id removes the parent shell (`ParentDeleted`, `ParentStays`).
- An interrupt request that comes to a registered shell which has returned ends the kernel loop. It may
  have reached no shell (`InterruptReachesNobody`), and the shell may have returned while the loop was
  sending to another one (`InterruptOvertaken`). The loop goes on, with every shell told, if and only if
  each send found its shell running (`InterruptReachesAllExactly`).
- A release ends the kernel loop if its shell returns before it applies the release (`ReleaseLost`), and
  only then (`ReleaseEndsLoopExactly`).
- DAP sequence numbers repeat once the 64-bit counter wraps (`NumbersRepeatAfterWrap`, `StaysCounted`).
- A deferred cancel that runs inside user code strands the interrupt (`StrandedToken`, `StaysCovered`).
- A second interrupt request that overtakes the SIGINT handler can make kernmini's own signal look like
  Ctrl-C (`OwnSignalMisread`). So can a Ctrl-C that comes while a SIGINT is announced, and it is itself
  taken for that SIGINT (`CtrlCSwallowed`). Nothing else can (`MisreadExactly`).

The code and its documentation differ in one place. DEV.md line 110 says that the execution count starts
at 1 and is advanced after it is taken. The code starts at 0 and advances before it reports, which gives
the same first number. The model follows the code, where an execution that stores no history reports the
last number and not the next.

## Model

| member | source | states |
|---|---|---|
| `SchedulerRuns.EveryRequestHasOnePlace` | src/engine.rs:494-641 | in every reachable state an enqueued execute request is in exactly one of queue, active, held, displaced or answered; it is answered at most once, and not at all before |
| `SchedulerRuns.StopExitAnswersAll` | src/engine.rs:611-641 | at a Stop exit every execute request sent has exactly one reply if and only if no hold was popped over a hold and none was left unread |
| `SchedulerRuns.DisplacedGrowth` | src/engine.rs:577-609 | a hold is lost exactly at a step that pops a hold while another is held |
| `SchedulerRuns.DisplacedForever` | src/engine.rs:600 | a displaced hold is never answered, however the run goes on |
| `SchedulerRuns.HoldOverHold` | src/engine.rs:600 | a run that displaces a hold |
| `SchedulerRuns.RequestLostAtStop` | src/engine.rs:613-623 | a run that stops with a request unread that was sent between the two drains |
| `SchedulerRuns.RequestLostAtCheck` | src/engine.rs:614-623 | a run that stops with a request unread that was sent after the two drains |
| `SchedulerRuns.SentAtRestIsRead` | src/engine.rs:611-641 | over every run only a request sent between the drain of the requests and the end of the pass can be lost |
| `SchedulerRuns.SureToBeReadExactly` | src/engine.rs:611-641 | a request is read before every Stop exit if and only if it is sent at the head of the loop or in `select!` |
| `SchedulerRuns.InterruptedStopReadsAll` | src/engine.rs:534-544 | an interrupt sent after the last request makes the shell read everything |
| `SchedulerLaws.PopIsMostUrgent` | src/engine.rs:494-505 | a pop takes, of the queued requests that do not have to wait, the one with the highest priority and of equals the earliest, and nothing only if all have to; an execute request has to wait exactly while one runs or one at least as urgent is held, others never |
| `SchedulerLaws.MostUrgentFirst` | src/engine.rs:625-628 | over every run a pass that finds a request which does not have to wait dispatches one, and never one that is less urgent |
| `SchedulerLaws.AbortsByUrgency` | src/engine.rs:303-313 | an abort goes through the waiting requests by falling priority, equals as they came, each once |
| `SchedulerLaws.AbortKeepsOthers` | src/engine.rs:534-544 | an abort keeps every request that is not an execute request, queued and untouched |
| `SchedulerLaws.ReleaseAnswers` | src/engine.rs:546-557 | a release that names the held request answers it by its status and aborts what waits exactly if the status is `error`, `interrupt` or `timeout`; any other changes no transcript; both are acknowledged with whether the hold was found |
| `SchedulerLaws.TimeoutAnswers` | src/engine.rs:630-639 | the deadline answers the hold with HoldTimeout and aborts what waits |
| `SchedulerLaws.MissingAnswers` | src/engine.rs:593-597 | an execute request without code is answered with MissingField, and what waits is aborted |
| `SchedulerLaws.ExitsExactly` | src/engine.rs:611-641 | a step leaves the loop exactly if it takes in an execution whose language is gone, stops with nothing queued, running or held, or pops a shutdown or a request whose language is gone |
| `SchedulerRuns.ServedInOrder` | src/engine.rs:303-313 | over every run, while an execute request waits, no later one that is at most as urgent has left the queue |
| `SchedulerRuns.LaneInvariant` | src/engine.rs:494-505 | an execution beside a hold is strictly more urgent than the hold |
| `SchedulerRuns.NoExecuteWhileInterrupting` | src/engine.rs:589-619 | no execute request is popped while interrupting, so the branch that answers it is dead |
| `SchedulerRuns.RunningIsNeverOverwritten` | src/engine.rs:571-609 | only a finished execution makes room for another |
| `SchedulerRuns.InterruptAnswers` | src/engine.rs:546-569 | what an interrupt publishes about each request: aborted if it waits, KeyboardInterrupt if it is held, nothing otherwise |
| `SchedulerRuns.FailureAnswers` | src/engine.rs:571-575 | the end of an execution aborts what waits exactly when its own transcript ends with an error reply, it asked for stop on error, and no interrupt is in progress |
| `SchedulerRuns.HoldEndAnswers` | src/engine.rs:469-488 | a hold is answered by its status, and what waits is aborted exactly when the hold failed |
| `SchedulerRuns.InterruptClears` | src/engine.rs:546-569 | after an interrupt no execute request waits or is held, and the running one has been told |
| `SchedulerRuns.InterruptCutsOff` | src/engine.rs:534-569 | for the rest of the run every request sent before an applied interrupt is answered, displaced, or running and told |
| `SchedulerRuns.InterruptedFailureAbortsNothing` | src/engine.rs:571-575 | the failure of an interrupted execution aborts nothing |
| `SchedulerRuns.ExecutionsAreNumbered` | src/engine.rs:529-532 | executions that store history are numbered 1, 2, 3, ... as they start; others report the last number |
| `SchedulerCount.StepCounts` | src/engine.rs:406-488 | every count that is published about an execution is the one it was started with, or the number of stored executions at that time |
| `SchedulerRuns.StoppingReachesExit` | src/engine.rs:611-641 | a stopping shell's own steps are bounded by a measure, and it can step until it exits |
| `SchedulerProgress.StepProgress` | src/engine.rs:611-641 | every step of the shell and its task lowers the measure |
| `SchedulerProgress.PopLeavesLess` | src/engine.rs:625-628 | a pop leaves strictly less than 2 per queued, 1 per active and 1 per held request |
| `SchedulerProgress.FinishLeavesLess` | src/engine.rs:469-488 | so do a completion, a release and a timeout |
| `SchedulerProgress.BlockedWaitsForSomething` | src/engine.rs:494-505 | a queue with nothing runnable waits for an execution or a hold |
| `SchedulerProgress.NeverStuck` | src/engine.rs:630-639 | a shell that has not returned can step or waits for a message; a stopping one never waits |
| `SchedulerInv.StepConserves` | src/engine.rs:611-641 | every step keeps that a request's transcript says where the request is |
| `SchedulerOrder.PopInOrder` | src/engine.rs:494-505 | nothing that precedes the popped request is left queued |
| `SchedulerOrder.AbortInOrder` | src/engine.rs:534-544 | aborting keeps the order in which requests leave the queue |
| `SchedulerLanes.StepKeeps` | src/engine.rs:494-641 | every step keeps the lane, the fence and the exit conditions |
| `Messages.AnsweringPathsAreBrackets` | src/engine.rs:218-488 | every answering path is busy, one reply, idle, with one error publication iff the reply is an error |
| `Messages.BracketRepliesOnce` | src/engine.rs:262-301 | a status bracket holds exactly one reply |
| `Messages.ErrorByOutcome` | src/engine.rs:262-301 | the transcript of a finished execution holds an error reply exactly if the language did not return normally |
| `Messages.RepliesByCause` | src/engine.rs:406-488 | the one reply of an execution, a hold, an abort and a refusal: its status, error name and count by outcome and by release status |
| `Messages.EventsByCause` | src/engine.rs:262-301 | the input, the result and the error of an execution are published exactly by outcome and the `silent` flag |
| `ShellQueue.PopRunnable` | src/engine.rs:494-505 | pop, park and restore takes out, of the items that may run, the one with the highest priority and of equals the lowest order, and changes nothing else |
| `ShellQueue.PopBest` | src/engine.rs:303-313 | the heap's pop takes out an item of the highest priority, and of equals the lowest order |
| `ShellService.AbortHeap` | src/engine.rs:534-544 | the abort loop answers exactly the execute requests, best first, and keeps the rest |
| `ShellService.Shell.constructor` | src/engine.rs:652-660 | a new shell is the machine's fresh state |
| `ShellService.Shell.Enqueue` | src/engine.rs:522-526 | a request is stamped with its position and queued |
| `ShellService.Shell.TakeIncoming` | src/engine.rs:613 | one receive is the machine's drain of one request |
| `ShellService.Shell.DrainIncoming` | src/engine.rs:613 | the drain loop queues everything in the channel |
| `ShellService.Shell.AbortPending` | src/engine.rs:534-544 | refines the machine's abort |
| `ShellService.Shell.FinishHold` | src/engine.rs:469-488 | the hold is answered by its status |
| `ShellService.Shell.Release` | src/engine.rs:546-557 | a release ends the hold it names, and aborts the rest if it failed |
| `ShellService.Shell.Interrupt` | src/engine.rs:558-566 | refines the machine's interrupt |
| `ShellService.Shell.ApplyControl` | src/engine.rs:546-569 | refines the machine's control step |
| `ShellService.Shell.DrainControls` | src/engine.rs:614 | the control loop applies everything in the channel, in order |
| `ShellService.Shell.ExecutionDone` | src/engine.rs:571-575 | refines the machine's completion, and reports a failure exactly if the language did not return |
| `ShellService.Shell.TakeRunnable` | src/engine.rs:625-628 | takes the machine's runnable request out of the queue |
| `ShellService.Shell.HandleItem` | src/engine.rs:577-609 | each arm refines the machine's handling, and says when the loop ends |
| `ShellService.Shell.BeginHold` | src/engine.rs:459-467 | a hold takes the place of any other |
| `ShellService.Shell.Spawn` | src/engine.rs:601-607 | an execution is counted, then started |
| `ShellService.Shell.Proceed` | src/engine.rs:620-628 | stop, or pop and handle, or wait |
| `ShellService.Shell.Settle` | src/engine.rs:615-619 | a finished execution is taken in and a spent interrupt forgotten |
| `ShellService.Shell.Pass` | src/engine.rs:615-628 | one pass of the loop is the machine's pass |
| `ShellService.Shell.HoldTimeout` | src/engine.rs:630-639 | refines the machine's timeout step |
| `ShellService.Shell.WakeIncoming` | src/engine.rs:630-639 | a request that wakes `select!` is the machine's step |
| `ShellService.Shell.WakeControl` | src/engine.rs:630-639 | so is a control that wakes it |
| `ShellService.Shell.WakeDone` | src/engine.rs:630-639 | so is a finished execution |
| `KernelReplies.RoutedExactlyOnce` | src/engine.rs:674-711 | over every run a routed message is in exactly one shell, once, with nothing published by the kernel loop; or in none, and if it is a `_request` or an execute request it has exactly one reply, an error named SubshellNotFound or SubshellCreationError, inside a status bracket if it is an execute request |
| `KernelReplies.NoRequestIsAnsweredTwice` | src/engine.rs:223-232 | kernel loop and shells together reply to an execute request at most once |
| `KernelRouting.RouteIsRight` | src/engine.rs:686-704 | a message goes to the running shell registered under its own subshell id, which is made if it can be, or under its session's route if it is an execute request, or to the parent; it is refused exactly if there is none, with the reason, and routing registers nothing else |
| `KernelRouting.FlushIsRight` | src/engine.rs:706-711 | so does each message of a flush, judged by the registry that the messages before it leave |
| `KernelRouting.RoutedToItsShell` | src/engine.rs:686-711 | over every run each routed message went where it had to by the registry and the routes of the state in which it was routed, and stays there |
| `KernelRouting.RoutedInOrder` | src/engine.rs:700-703 | over every run a shell holds its messages in the order in which they arrived |
| `KernelRouting.RegistryExactly` | src/engine.rs:806-902 | which ids are registered after a step, and to which shell: what was and is not deleted, reaped, closed with `delete` or drained, and what is asked for, missing and can be made. A flush is message by message, as `RouteIsRight` says |
| `KernelRouting.RoutesExactly` | src/engine.rs:832-902 | which routes there are after a step: an open of a session without one sets it to the shell it names or makes, if there is one; a close, a delete and a reap of its shell clear it; nothing else changes it |
| `KernelRouting.LoopEndsExactly` | src/engine.rs:806-817 | the loop ends exactly at its end of input or shutdown, at a reap of the parent or of a crashed shell, at a send to a shell that has returned, or at a lost answer |
| `KernelRouting.RequestsFlushFirst` | src/engine.rs:867-871 | an interrupt or release request first routes all that has arrived, and then has every registered shell left to send to |
| `KernelRuns.FateIsPlace` | src/engine.rs:686-704 | a delivered message is at its place in its shell and nowhere else, a refused one nowhere |
| `KernelRuns.InterruptStandsBehind` | src/engine.rs:719-722 | a send that finds the shell running leaves an interrupt behind everything routed to it |
| `KernelRuns.InterruptRequestIsACleanCut` | src/engine.rs:706-722 | across both loops, from the step that sends shell `i` its interrupt: once it has applied that interrupt, every execute request that had arrived with the interrupt request is answered, displaced, or running and told, and none starts later |
| `KernelErrands.InterruptReachesAllExactly` | src/engine.rs:719-722 | over every interleaving of the sends with the shells' steps, the loop goes on if and only if each send found its shell running, and then every shell is told |
| `KernelErrands.InterruptMayReachNobody` | src/engine.rs:719-722 | if a shell that is left has returned, the loop may come to it next, end, and tell nobody |
| `KernelFailures.InterruptReachesNobody` | src/engine.rs:867-871 | a run in which that happens to a running parent |
| `KernelFailures.InterruptOvertaken` | src/engine.rs:719-722 | a run in which the second shell returns while the loop sends to the first |
| `KernelErrands.ReleaseEndsLoopExactly` | src/engine.rs:903-915 | whatever happens while the loop awaits the answer, it ends if and only if the shell had returned at some time without applying the release |
| `KernelErrands.ReleaseToReturned` | src/engine.rs:909-910 | the send itself ends the loop if and only if the shell has returned |
| `KernelFailures.ReleaseLost` | src/engine.rs:909-911 | a run in which a running shell accepts a release and returns before it answers |
| `KernelRuns.RoutesStayLive` | src/engine.rs:832-853 | routes keep naming registered non-parent shells if and only if the step does not delete a shell another session routes to |
| `KernelRuns.RoutesNameLiveShells` | kernmini/concur.py:9-26 | over every run that opens and closes as `subshell()` and `sidecar()` do, routes name registered non-parent shells |
| `KernelRuns.OrphanIsRefused` | src/engine.rs:843-853 | an orphaned session's requests are refused |
| `KernelRuns.ParentStays` | src/engine.rs:806-902 | over every run the parent is registered if and only if no delete has named the empty id, it has not been reaped, and it has not been stopped after the loop |
| `KernelFailures.ParentDeleted` | src/engine.rs:890-902 | deleting the empty id at the start leaves the loop running with no shell registered |
| `KernelFailures.OrphanedRoute` | src/engine.rs:843-853 | a run that leaves a route to a shell that is gone |
| `KernelStops.RetiredShellAnswersAll` | src/engine.rs:890-902 | over every run, a shell that was deleted or stopped at shutdown has, once stopped, read every request routed to it and answered each that no hold displaced exactly once |
| `KernelStops.ClosedShellAnswersWhatItRead` | src/engine.rs:843-853 | over every run, a shell closed with `delete` gets no more requests, and once stopped has answered exactly those it had read and no hold displaced; it has read all if it was at the head of its loop or in `select!` when it was closed |
| `KernelStops.RoutedAtRestIsAnswered` | src/engine.rs:700-703 | over every run, a message routed to a shell at the head of its loop or in `select!` is read before the shell stops, and answered once unless a hold displaced it |
| `KernelFailures.RequestLostAtClose` | src/engine.rs:663-669 | a run in which `subshell()` ends and a request routed before gets no reply |
| `KernelStops.ActSpares` | src/engine.rs:663-669 | a shell out of the registry is touched only by itself and the task that stops it |
| `KernelLoop.Loop.SendInterrupt` | src/engine.rs:719-722 | one send is the machine's step |
| `KernelLoop.Loop.InterruptNext` | src/engine.rs:719-722 | an await and one send are a run of the machine |
| `KernelLoop.Loop.SendRelease` | src/engine.rs:909-910 | one send is the machine's step |
| `KernelLoop.Loop.TakeAnswer` | src/engine.rs:911 | the answer, or its loss, is the machine's step |
| `KernelLoop.Loop.CreateSubshell` | src/engine.rs:724-733 | creates, finds or refuses a shell as the machine does |
| `KernelLoop.ErrorReply` | src/engine.rs:223-232 | the statements publish the machine's notice of a refusal |
| `KernelLoop.Loop.Refuse` | src/engine.rs:674-684 | refines the machine's refusal |
| `KernelLoop.Loop.Dispatch` | src/engine.rs:700-703 | delivers to a registered running shell or refuses |
| `KernelLoop.Loop.RouteShell` | src/engine.rs:686-704 | refines the machine's routing |
| `KernelLoop.Loop.RoutePending` | src/engine.rs:706-711 | the loop routes everything that has arrived |
| `KernelLoop.Loop.InterruptShells` | src/engine.rs:719-722 | the loop in any order, with any steps of other tasks at its awaits, makes a run of the machine's sends and is done at its end |
| `KernelLoop.Loop.Open` | src/engine.rs:832-842 | refines the machine's open |
| `KernelLoop.Loop.Close` | src/engine.rs:843-853 | refines the machine's close |
| `KernelLoop.Loop.Delete` | src/engine.rs:890-902 | refines the machine's delete |
| `KernelLoop.Loop.Reap` | src/engine.rs:806-817 | refines the machine's reaping |
| `OutputPump.BatchingIsInvisible` | src/engine.rs:145-176 | for every cut of the queue into batches, merging the pump's output fully gives what merging the queue fully gives |
| `OutputPump.PumpKeepsTokens` | src/engine.rs:145-176 | no character or event is lost, reordered or moved to another stream |
| `OutputPump.MergeIsNormal` | src/engine.rs:151-155 | full merging leaves no two adjacent streams of one name |
| `OutputPump.PumpBatch` | src/engine.rs:150-155 | the nested loops compute the full merge of a batch |
| `OutputPump.FlushIsABarrier` | src/engine.rs:156-158 | when a flush is acknowledged exactly what was ahead of it has been published, for every batching |
| `ExecutionTrace.OutputBeforeReply` | src/engine.rs:262-301 | over every interleaving, a closing message comes after all output emitted before the language returned |
| `ExecutionTrace.FinishedTraceIsABracket` | src/engine.rs:406-433 | the engine's messages of a finished execution are one status bracket |
| `DapClient.CloseLeavesNothingPending` | src/dap.rs:61-112 | for any senders and closers, once a reason is set and nobody is mid-step, nothing is pending and no open request is forgotten |
| `DapClient.CompletionsAreFinal` | src/dap.rs:100-163 | a completion never changes, nor does the first close reason |
| `DapClient.CompletedAtMostOnce` | src/dap.rs:108-163 | over every run a waiter is sent to exactly once if it is completed, and never else |
| `DapClient.CompletionsAreRight` | src/dap.rs:146-163 | a waiter gets the response to its own number or the close reason |
| `DapClient.DropSparesOthers` | src/dap.rs:100-106 | dropping a request never removes the entry of a live one |
| `DapClient.InsertOverwritesNothing` | src/dap.rs:61-75 | inserting never overwrites a waiter |
| `DapClient.LateSendIsRefused` | src/dap.rs:61-75 | over every run a send that begins after the close is refused: its waiter is never listed and never completed |
| `DapClient.NumberStays` | src/dap.rs:47-59 | over every run a positive number that a request asks for is the only one it can get, and a number it has got never changes |
| `DapClient.StaysCounted` | src/dap.rs:47-59 | the counter stays above every returned number if and only if the step does not wrap it or no number has been returned |
| `DapClient.AutomaticNumbersAreNew` | src/dap.rs:47-59 | until the counter wraps, a request without a positive number of its own gets one that differs from every number returned before |
| `DapClient.NumbersRepeatAfterWrap` | src/dap.rs:47-59 | a run from the start at whose end an automatic request gets a number that was returned before |
| `DapClient.CompleteAll` | src/dap.rs:108-112 | the drain completes every pending waiter with the reason |
| `DapClient.Shared.Check` | src/dap.rs:62 | the look at the close cell is the machine's step |
| `DapClient.Shared.Allocate` | src/dap.rs:47-55 | taking a number is the machine's step, with the counter on 64 bits |
| `DapClient.Shared.RaiseTo` | src/dap.rs:56-58 | raising the counter is the machine's step, and the last number is refused |
| `DapClient.Shared.Insert` | src/dap.rs:66-70 | the insertion under the lock is the machine's step |
| `DapClient.Shared.Recheck` | src/dap.rs:72 | the second look at the close cell is the machine's step |
| `DapClient.Shared.Unlist` | src/dap.rs:100-106 | the removal in the drop is the machine's step |
| `DapClient.Shared.SetReason` | src/dap.rs:109 | setting the reason is the machine's step |
| `DapClient.Shared.ReadReason` | src/dap.rs:110 | reading it back is the machine's step |
| `DapClient.Shared.Drain` | src/dap.rs:111 | the drain loop is the machine's step |
| `DapClient.Shared.Take` | src/dap.rs:160-161 | the reader's removal is the machine's step, if there is an entry |
| `DapClient.Shared.Complete` | src/dap.rs:160-161 | the reader's completion is the machine's step |
| `DapFraming.StreamRoundTrip` | src/dap.rs:82-144 | reading the concatenation of any encoded messages gives those messages, and a cut last frame gives none |
| `DapFraming.FrameReads` | src/dap.rs:82-144 | a frame with any bytes after it is read back and leaves those bytes |
| `DapFraming.StrictPrefixFails` | src/dap.rs:129-144 | a strict prefix of a frame yields no message |
| `DapFraming.ParseDigits` | src/dap.rs:129-144 | parsing the printed length gives the length, within 64 bits |
| `DapFraming.FieldExactly` | src/dap.rs:135-137 | a field's value is accepted exactly if it is blanks, a plus or none, zeros, the digits of a number within 64 bits, and blanks |
| `DapFraming.LastLengthCounts` | src/dap.rs:129-144 | for any header lines in any order the last `Content-Length` decides; without one the message is refused, and with too few bytes the connection is over |
| `DapFraming.BadLengthIsRefused` | src/dap.rs:135-137 | a `Content-Length` that is not such a value refuses the message, whatever surrounds it |
| `DapFraming.ReadMessage` | src/dap.rs:129-144 | the header loop computes what the recursive reader says |
| `ExecutionInterrupt.NoLostInterrupt` | src/language.rs:61-89 | over every interleaving the handler is called once per request after its registration and once if any came before, and never else |
| `ExecutionInterrupt.OneRequestIsFirst` | src/language.rs:61-69 | over every interleaving, once all requests are answered, exactly one of them was told that it is the first |
| `ExecutionInterrupt.NoLostWakeUp` | src/language.rs:73-78 | no `cancelled` waiter sleeps through a request, and none returns without one |
| `ExecutionInterrupt.Flag.Request` | src/language.rs:61-69 | the locked section is the machine's step |
| `ExecutionInterrupt.Flag.SetHandler` | src/language.rs:80-89 | the locked section is the machine's step, and a second handler is refused |
| `UserCode.PendingToken` | py/src/python.rs:83-206 | on every interleaving: `thread` is set iff inside user code, a token inside is on its way, each request has been merged into a pending token or has become one raise, injection or cancel or is the token, an injection fires at most once, and outside a token is covered |
| `UserCode.TokenIsTakenOnce` | py/src/python.rs:105-206 | every step that takes the token, and what it makes of it: one raise, injection or cancel, at the place where it may, or a new start; an entry raises and leaves depth and thread alone |
| `UserCode.TokenIsTakenWhere` | py/src/python.rs:105-206 | the steps that have to take the token do: an entry, an announced signal inside user code, a delivery to another thread, a cancel of the running task outside |
| `UserCode.RequestLeavesToken` | py/src/python.rs:105-128 | every request leaves a token, with a SIGINT announced exactly for user code on the main thread and a delivery otherwise |
| `UserCode.EntryWithoutToken` | py/src/python.rs:185-193 | without a token an entry raises nothing and goes one block deeper, on the thread of the outermost block |
| `UserCode.StaysCovered` | py/src/python.rs:157-165 | a token stays covered if and only if the last cancel does not run inside user code |
| `UserCode.NothingLeaks` | py/src/python.rs:132-206 | from its start to its first request an execution suffers no raise, injection, fired injection or cancel from an earlier one, and none is waiting to fire |
| `UserCode.CancelHitsCurrent` | py/src/python.rs:157-165 | a cancel only cancels the running task of the current execution |
| `UserCode.StrandedToken` | py/src/python.rs:157-165 | a run that strands a token of a running task, with no signal, delivery or cancel left |
| `UserCode.OwnSignalMisread` | py/src/python.rs:255-267 | a run in which kernmini's own SIGINT is taken for Ctrl-C |
| `UserCode.StaysMatched` | py/src/python.rs:105-128 | signals match announcements if and only if no request overtakes the handler and no Ctrl-C uses up an announcement |
| `UserCode.OwnSignalsRecognised` | py/src/python.rs:255-267 | over every run without these two, harmless Ctrl-Cs included, every own signal and every Ctrl-C is recognised |
| `UserCode.MisreadExactly` | py/src/python.rs:255-267 | from a matched state a step opens the way to a misread signal if and only if it is one of these two |
| `UserCode.CtrlCSwallowed` | py/src/python.rs:255-267 | a run in which a Ctrl-C is taken for an own signal and the own signal for Ctrl-C |
| `UserCode.OvertakingIsMisread` | py/src/python.rs:105-128 | after any request that overtakes the handler, a signal can be misread |
| `UserCode.SharedUserCode.Request` | py/src/python.rs:105-128 | leaves a token and announces the SIGINT |
| `UserCode.SharedUserCode.Deliver` | py/src/python.rs:132-149 | takes the token for user code on another thread |
| `UserCode.SharedUserCode.DeferredCancel` | py/src/python.rs:157-165 | takes the token outside user code |
| `UserCode.SharedUserCode.Start` | py/src/python.rs:176-181 | a new execution begins without a token |
| `UserCode.SharedUserCode.Enter` | py/src/python.rs:185-193 | takes the token and raises, or enters |
| `UserCode.SharedUserCode.Exit` | py/src/python.rs:196-206 | leaves one block |
| `UserCode.SharedUserCode.Signal` | py/src/python.rs:255-267 | an announced signal takes the token inside user code |
| `PeerTable.TableFollowsLastConnection` | src/transport.rs:46-54 | over every run an identity is in the table iff the connection inserted last for it is not torn down, with that connection |
| `PeerTable.TeardownSparesSuccessor` | src/transport.rs:51-54 | an old connection's teardown never evicts its successor |
| `PeerTable.NoLostPeer` | src/transport.rs:56-64 | no `wait` sleeps with its peer in the table unless that peer's notification is outstanding |
| `PeerTable.WaitReturnsLast` | src/transport.rs:56-64 | over every run a look of `wait` returns the connection inserted last for its identity, exactly if there is one that is not torn down, and sleeps otherwise |
| `PeerTable.RouterPeers.Insert` | src/transport.rs:46-49 | the locked section is the machine's step |
| `PeerTable.RouterPeers.Remove` | src/transport.rs:51-54 | the locked section is the machine's step |
| `PeerTable.RouterPeers.Get` | src/transport.rs:56-64 | the lookup is the machine's step |
| `Iopub.PeersShareOneOrder` | src/transport.rs:129-155 | over every run a peer holds exactly the log from its arrival to its departure, in one order common to all |
| `Iopub.Walk` | src/transport.rs:129-135 | the `swap_remove` loop offers the message to each peer exactly once and keeps exactly those that took it |
| `Iopub.Publisher.Add` | src/transport.rs:155 | a peer joins with an empty queue |
| `Iopub.Publisher.Publish` | src/transport.rs:129-135 | refines the broadcast |
| `Wire.RoundTrip` | src/wire.rs:53-86 | decoding undoes encoding if and only if no identity is the delimiter and, under a key, the signature is new |
| `Wire.EncodedLayout` | src/wire.rs:53-58 | what is sent: identities, delimiter, signature, header, parent, metadata, content, buffers, in this order |
| `Wire.DecodeExactly` | src/wire.rs:60-86 | what `decode` answers, error by error in the order of its checks, which frame each part is read from, and which signatures are seen after it |
| `Wire.TamperedIsRefused` | src/wire.rs:60-73 | under a hash without collisions an input that bears the signature of a genuine one and differs in the four parts together is refused |
| `Wire.AcceptedExactly` | src/wire.rs:60-73 | what a run of decodes accepts: at the first delimiter a signature and four JSON parts, where under a key the signature is the hash of the four parts together and no earlier signed input used it |
| `Wire.NoReplayIsAccepted` | src/wire.rs:60-73 | under a key no two accepted messages of a run share a signature |
| `Wire.Session.Receive` | src/wire.rs:60-73 | refines the decoder with its set of seen signatures |

## Left out

- Sockets, ZMTP, heartbeat, listeners, connection files and kernel specs: input and output around the machines.
- JSON, HMAC-SHA256, UUIDs and dates: opaque parameters; only that parsing undoes printing is used.
- Other shell requests than `execute_request` and `shutdown_request`: serving one is a single step that may fail.
- Reply contents beyond status, count and error name; control requests that touch no shell, such as `debug_request` and `list_subshell_request`.
- Publishing failures and panics: an execution whose own publishing fails, or whose task panics, is not modelled.
- The `silent` flag drops output after the pump's merge; the pump theorems are about what reaches that point.
- Input requests to the front end: the pump treats one as an event that merges with nothing, and its answer is not modelled.
- Channel capacities: channels are unbounded.
- The `found` flag of a `release_reply`, which joins what the shells acknowledge.
- The shutdown of the remaining shells is sequential in the code and in any order in the model.
- `user_code()` blocks of a background task that outlives its execution: the model has them on the running execution's stack only.
- A shell that has decided to return still accepts messages while the language shuts down, and never reads them; in the model it has returned at once and they are refused.
- Dropping a running execution aborts its task, which can cut a broadcast short in the middle of the peer vector; in the model a broadcast is one step.
- A Python session with an `interrupt()` hook, a failing `pthread_kill`, PyO3 conversions and event-loop startup.
- Whitespace around a `Content-Length` is trimmed as ASCII; the code trims Unicode whitespace.
- `python_dap.rs`, `python_worker.rs` and `thread_worker.rs`: wrappers that would add only easy members.
- SchedulerRuns.StoppingReachesExit: does not claim that user code returns; it counts that as a step which can be taken.
- ExecutionInterrupt.NoLostWakeUp: the notification is a step of its own, so a waiter may sleep while it is outstanding.
