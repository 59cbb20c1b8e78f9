# The durable execution control plane

Better Colab runs code on a remote Jupyter kernel through a local controller. Each execution is a
row in a database; a worker thread sends the code to the kernel at most once, watches the messages
that come back, records what they prove, and brings the row to a terminal state. The process, the
machine or the connection may fail between any two durable actions. This project models that control
plane in Dafny and proves what it promises, for every run.

## How the model is organised

**Proof objects** (`KernelProof`, `Verdicts`, `Interleaving`). `ExecutionProof` and
`KernelIdleProof` are classes with the program's fields and branches. Each method is proved equal to
a function on values (`Observed`, `Report`, `Requesting`, `Restored`), about which the theorems are
stated: what a verdict says about the messages seen, that restoring commutes with observing, when
the verdict computed live and the one computed after a restart agree, and when the order in which
two message queues are read can matter. `Verdicts` tells what the objects hold, and every verdict,
in the fields of the messages.

**The store** (`Lifecycle`, `Storage`, `Restart`). `DurableStore` holds rows and source texts in
maps. Each transaction is a method proved equal to a partial function `Apply` on one row. `Restart`
holds the two loops over all rows: reconciliation when a controller starts, and the forced stop.

**The machine** (`KernelWorker`, `WorkerSafety`, `WorkerRuns`). One execution, its worker thread,
the controller thread, clients that cancel, the clock, and crashes, as a step relation. A program
point names what a thread does next; a list of writes is performed one transaction at a time, so a
crash, an exception or another thread's step may come between any two. What was put on the wire and
what was observed is logged beside the row. `WorkerSafety` has the inductive invariant, `WorkerRuns`
and `WorkerLaws` the promises that follow for all runs. `Recovery` has the observation loops in
messages: what closes an execution, and when recovery gives up. `ControlPlane` has any number of
executions, start requests and idempotency keys; `Batch` adds the batch loop, the client's cancel in
its separate transactions, and crashes that hit all members. `BatchRuns` has the order in which
members are sent, `BatchOutcome` how the loop goes on, what the outcome says, and that nothing is
left queued. `Endings` says which steps can leave an execution behind, and what a restart makes of
one that was about to be closed. `Scenarios` and `BatchScenarios` hold concrete runs in which
something goes otherwise than one might expect.

**The worker thread** (`WorkerThread`). The loops of `_run_one` and `_recover_one` with the failure
handlers, as methods over the store class and the proof classes. Every path through them is proved
to be a run of the machine, so the promises about runs hold of the code as written. In addition the
thread is shown to bring every execution it takes up to an end, but for the reasons named in
`Serve`. The network and the kernel answer arbitrarily; clients may cancel and time may pass between
any two actions; `rounds` is the number of loop heads the thread passes before it is closed, which
is arbitrary.

**Output** (`Outputs`, `Utf8`, `Spool`, `Paging`, `EndToEnd`, `Notebook`, `Writeback`). Output text
is cut into chunks at character boundaries, appended to a file that an index in the database
describes, read back in pages bounded in bytes, and turned into notebook outputs. The spool keeps
the truncation, each partial write, the fsync and the commit as separate actions with a crash
possible after any. The output of the machine is connected to the spool, the pages and the notebook
in `EndToEnd` and `Writeback`.

**Hand-offs** (`Coordinator`, `DriveAuth`, `Wakeup`, `Frames`). The coordinator's schedule and its
FIFO workers, the drive-authorization queue between two threads, waiting for a topic in the
controller, and the length-prefixed frames on its socket.

## Where the code does not do what one might expect

- A cancel that arrives after a timeout replaces the durable request, while the proof object in
  memory keeps the timeout; a crash then changes the verdict. `RestartVerdictAgrees` gives the exact
  condition, `CrashBeforeClosing` states it for every run with a crash before the closing writes, and
  `CancelAfterTimeoutChangesVerdict` is such a run, ending TIMED_OUT without the crash and INTERRUPTED
  with it.
- Two error names that disagree about an interrupt, one on each message queue, make the verdict
  depend on the order in which the queues are read: `VerdictIsOrderFree`, in both directions.
- The batch loop goes on past a member that is not over when the worker is closed at one of its loop
  heads, or when an interrupt cannot be delivered before the member's request is confirmed, so that
  `_ambiguous_interrupt` leaves it DISPATCHING. `LeftWasAbandoned` shows that nothing else leads
  there; `ClosedWorkerBreaksOrder` and `UndeliveredBreaksOrder` are runs in which the next member is
  sent, and in `FinishedWithoutFinishing` the batch is then reported finished with every member
  DISPATCHING.
- A cancel of a batch is one transaction for the batch and one for each member. In between, the loop
  no longer stops at a failed member and takes up members whose own cancel is not committed yet:
  `CancelBreaksOrder`. `SentInOrder` says exactly who can be sent past an unfinished member, and
  `SentInOrderAtomic` that nobody is when the cancel is one step.
- A cancel of a batch accepted after the loop has settled its outcome is overwritten by that outcome:
  `OutcomeMeans`, `OutcomeIsKept`. A member that was abandoned and failed later does not count as a
  failure: `OutcomeMeans` goes by what the loop found, `OutcomeByMembers` by the members when none was
  abandoned.
- An execution that becomes UNKNOWN keeps its completeness flag if and only if it was DISPATCHING
  and complete: `EnteringUnknown`; `UnknownCanBeComplete` is a run. DISCONNECTED, an
  undelivered interrupt, a restart and a forced stop take the flag away; `IncompleteForGood` is stated
  for DISCONNECTED.
- An interrupt that cannot be delivered leaves the row DISPATCHING if and only if it was:
  `AmbiguousInterrupt`, and the last clause of `Serve`. `UndeliveredLeavesDispatching` is a run, and
  `LeftHasCause` shows that besides a closed worker and a failing failure handler this is the only
  way in which an execution is left DISPATCHING or RUNNING with nobody working on it.
- A spool file left longer than its index by a crash makes finalization fail until the next text
  is appended: `FinalizeOutput` says so with an if-and-only-if. If no further text arrives, an
  execution that recovery gives up on stays DISCONNECTED; `Serve` counts this as a failure of the
  store. The failure handler fails in the same way, and its exception ends the worker's thread.
- Work is served if and only if it is queued ahead of a closing mark on a thread that has not
  returned: `ServedIff`, and `IdleIff` for the coordinator as a whole. It fails in two ways. Looking
  a worker up and scheduling on it are separate critical sections, so work can be given to a closed
  worker: `LateWorkIsStuck`. And a thread ended by an exception of its failure handler stays in the
  table of workers, so that all later work of the session is stuck though nothing was closed:
  `DeadWorkerIsStuck`.
- A finalization cut short after promoting the spool, followed by more output, keeps the old
  artifact: `InterruptedFinalization`, with the exact condition.
- A client asleep after the end can still be woken if and only if a notification is on its way:
  `WokenIffPending`. It is lost when a thread raises between committing the end and notifying
  (dropping the connection comes in between, and the failure handler returns early for a terminal
  row), or when the publish task fails while it reads the row: `FailureLosesWakeup`,
  `PublishFailureLosesWakeup`, and `LossesAreReachable` for both.
- An exception while building a drive-authorization reply strands the queued requests until the
  next request: `RaiseStrands`, `NextRequestRepairs`.
- A stream that ends inside a frame header is reported by the asynchronous reader as a clean end,
  by the socket reader as a protocol error: `CutStream`. Neither decodes anything from it.

## Model

| member | source | states |
|---|---|---|
| Lifecycle.PathClimbs | src/better_colab/storage.py:52-79 | along the allowed transitions, if DISCONNECTED never returns to RUNNING, a journal has at most six entries |
| Lifecycle.PathRankStrict | src/better_colab/storage.py:52-79 | no state occurs twice, and nothing follows a terminal state |
| KernelProof.ExecutionProof.RequestInterrupt | src/better_colab/kernel_transport.py:74-78 | only an interrupt or a timeout can be requested, and a timeout is never replaced |
| KernelProof.ExecutionProof.Restore | src/better_colab/kernel_transport.py:80-104 | all fields come from the durable columns; the request is then applied as a request |
| KernelProof.ExecutionProof.Observe | src/better_colab/kernel_transport.py:109-188 | new state and reported observation as functions of the old state and the message; unmatched messages change nothing |
| KernelProof.ExecutionProof.TerminalState | src/better_colab/kernel_transport.py:190-200 | the verdict as a function of the evidence and the request |
| KernelProof.EvidenceMeans | src/better_colab/kernel_transport.py:109-188 | after any history, evidence holds a reply, its status or an idle exactly when the history has a valid matching reply, that status on the first of them, or a matching idle |
| KernelProof.FinishedMeans | src/better_colab/kernel_transport.py:190-200 | the verdict is FINISHED exactly when the first valid matching reply is ok and a matching idle was seen; some verdict exactly when there is a reply and an idle |
| Verdicts.VerdictMeans | src/better_colab/kernel_transport.py:190-200 | told in message fields: no verdict without a reply and an idle; with a request, that state if and only if the first reply is "aborted", or is "error" and the last name carried is KeyboardInterrupt, InterruptedError or CancelledError; ERROR for any other reply but "ok" |
| Verdicts.ErrorMeans | src/better_colab/kernel_transport.py:131-188 | the error name, value and traceback held are the last ones carried by error reports and by a first reply that is not "ok", each for itself |
| Verdicts.SavedVerdictMeans | src/better_colab/storage.py:1617-1644 | for any history of messages and requests the live verdict and the verdict of the saved columns are what the messages call for under the request each goes by; a requested timeout outlasts cancels in memory |
| KernelProof.RestoreCommutes | src/better_colab/execution.py:759-780 | for any history of messages and requests cut anywhere, saving, crashing, restoring and going on ends as one uninterrupted object |
| KernelProof.RestartVerdictAgrees | src/better_colab/storage.py:1617-1644 | restart and live verdict agree if and only if the requests are equal or the evidence does not show a delivered interrupt |
| Scenarios.CancelAfterTimeoutChangesVerdict | src/better_colab/storage.py:1776-1789 | a run with a timeout and then a cancel that ends TIMED_OUT, and the same run with a crash before the closing writes that ends INTERRUPTED |
| KernelProof.KernelIdleProof.Observe | src/better_colab/kernel_transport.py:273-293 | the idle boundary after a kernel-info reply, as a function of the messages |
| Interleaving.Reader.Take | src/better_colab/kernel_transport.py:426-443 | which queue is served, which message is dropped, and how the preference flips |
| Interleaving.ReaderAlternates | src/better_colab/kernel_transport.py:426-443 | with a message at the head of both queues, two rounds read one from each, the preferred one first |
| Interleaving.DrainIsMerge | src/better_colab/kernel_transport.py:404-443 | reading until both queues are empty yields an order-preserving interleaving, nothing lost or repeated |
| Interleaving.StoredOutputIsOrderFree | src/better_colab/execution.py:701-757 | for every interleaving, with any unmatched messages in between, a conversation ends with a verdict and the stored output is the queue's output in order |
| Interleaving.VerdictIsOrderFree | src/better_colab/kernel_transport.py:109-200 | all interleavings give the same verdict if and only if the two captured error names do not disagree about an interrupt |
| Storage.DurableStore.CreateExecution | src/better_colab/storage.py:1121-1262 | a key in use is answered with its execution, or refused when the request differs; otherwise one new queued row and its text |
| Storage.DurableStore.ReadSource | src/better_colab/storage.py:1293-1330 | text is handed out only for a queued row and only if it matches the digest recorded at creation; which error otherwise |
| Storage.DurableStore.BeginDispatch | src/better_colab/storage.py:1332-1381 | QUEUED to DISPATCHING with message id and connection identity, or refused with nothing changed |
| Storage.DurableStore.ConfirmDispatch | src/better_colab/storage.py:1503-1555 | DISPATCHING to RUNNING, deadline set once, source discarded |
| Storage.DurableStore.TransitionExecution | src/better_colab/storage.py:1434-1501 | only allowed moves, terminal ones only after finalization; the journal grows by the new state |
| Storage.DurableStore.RecordEvidence | src/better_colab/storage.py:1557-1615 | flags only rise, columns keep their value when nothing new is given; refused unless running or disconnected |
| Storage.DurableStore.AppendOutput | src/better_colab/storage.py:1814-1829 | output is appended, and refused once finalized |
| Storage.DurableStore.Finalize | src/better_colab/storage.py:2392-2400 | output is closed; closing twice is harmless |
| Storage.DurableStore.MarkOutputIncomplete | src/better_colab/storage.py:1727-1737 | the flag goes down and nothing else changes |
| Storage.DurableStore.RequestExecutionCancel | src/better_colab/storage.py:1739-1790 | terminal rows are untouched, a queued row is interrupted at once, others record the request |
| Storage.DurableStore.RequestExecutionTimeout | src/better_colab/storage.py:1792-1812 | recorded only for running or disconnected rows |
| Storage.DurableStore.IncrementReconnectCount | src/better_colab/storage.py:1706-1725 | counted only for disconnected rows |
| Storage.ApplyKeepsSound | src/better_colab/storage.py:1241-1256 | after every transaction the journal is a path to the current state, terminal rows are finalized without source, and confirmation implies a dispatch |
| Storage.ApplyGrows | src/better_colab/storage.py:1434-1555 | no transaction undoes a terminal state, a finalized output, confirmation, a cancel, incompleteness, the message id or a deadline |
| Restart.ReconcileAfterRestart | src/better_colab/storage.py:1646-1704 | every row is reconciled, ended rows lose their text, and exactly the confirmed rows whose columns, as they were before, do not tell how they ended are returned for recovery, in the order in which they were queued |
| Restart.ForceUncertainActive | src/better_colab/storage.py:3170-3201 | every active row is over as UNKNOWN with incomplete output, all others are untouched |
| Restart.ReconcileAndResume | src/better_colab/controller.py:1136-1156 | after a restart every active batch is resumed, and of the executions in none of them exactly the disconnected are recovered and exactly the queued submitted, in order |
| Restart.MachineReconciles | src/better_colab/storage.py:1646-1704 | the controller thread of the machine performs the same transactions with the same result |
| Restart.RestartSettles | src/better_colab/storage.py:1646-1704 | afterwards a row is queued, over, or disconnected, confirmed and incomplete; sent but unconfirmed work is UNKNOWN; nothing durable is undone |
| Restart.RestartKeepsUnsettled | src/better_colab/storage.py:1665-1704 | in the columns before: DISCONNECTED afterwards exactly confirmed work without both a reply and an idle, UNKNOWN exactly what was sent and not confirmed or was so already, any other confirmed work the state its status, error name and request say, all other rows untouched |
| Restart.UnsettledIsKept | src/better_colab/storage.py:1694-1704 | for every row, whatever its columns: kept DISCONNECTED if and only if confirmed and undecided; this is the condition of the returned list |
| Restart.RestartWrites | src/better_colab/storage.py:1665-1704 | completeness is lost, the completion source set and the output finalized exactly where the state calls for it; evidence, request, output and deadline are kept |
| Restart.ForceEnds | src/better_colab/storage.py:3170-3201 | what was active is UNKNOWN, incomplete and closed, by way of DISCONNECTED if it was running; nothing else is touched |
| Restart.RestartIsIdempotent | src/better_colab/storage.py:1646-1704 | a second restart changes nothing more |
| Restart.InterruptedRestartAgrees | src/better_colab/storage.py:1665-1703 | a crash between two of its transactions is made up for by the next restart, with the same final row |
| WorkerRuns.StepInv | src/better_colab/execution.py:594-964 | every step of every thread, and every crash, keeps the invariant that all promises rest on |
| WorkerRuns.RunGrows | src/better_colab/storage.py:1434-1555 | over any stretch of any run nothing durable is undone |
| WorkerRuns.SentAtMostOnce | src/better_colab/execution.py:594-639 | in every run at most one execute request is sent, with the dispatched message id and a text that matches the recorded digest |
| WorkerRuns.NeverReplayed | src/better_colab/execution.py:804-871 | once the send is behind it, or lost, no continuation of any run sends the request again |
| WorkerRuns.FinishedIsEarned | src/better_colab/execution.py:744-757 | FINISHED implies one request sent, confirmed, first valid matching reply ok and a matching idle, every recorded event seen on the connection snapshotted at dispatch |
| WorkerRuns.OtherEndingsAreEarned | src/better_colab/execution.py:655-678 | TIMED_OUT implies a configured timeout and a clock past the deadline; INTERRUPTED after a send implies a cancel, reply and idle; without a cancel it implies nothing was sent |
| Recovery.EndingsInMessages | src/better_colab/execution.py:744-757 | in every run, in the messages whose evidence was committed: what FINISHED, ERROR, INTERRUPTED after a send and TIMED_OUT say about replies, idles and error names |
| Recovery.ClosingIsCalledFor | src/better_colab/execution.py:736-757 | in every run a message makes the waiting loop close the row if and only if it answers the request and all messages so far call for a verdict; output is finalized before that state is entered, with the source of the loop |
| WorkerLaws.ConfirmedByMessage | src/better_colab/execution.py:701-718 | in every run a dispatch is confirmed only after a message that answers this very request |
| WorkerLaws.DeadlineCountsFromConfirmation | src/better_colab/storage.py:1503-1555 | in every run exactly confirmed work with a timeout has a deadline, and it is the time of the confirmation plus the timeout |
| WorkerLaws.WaitsOnlyWhenServed | src/better_colab/execution.py:644-700 | no message is awaited while a requested interrupt or a passed deadline has not been acted on |
| WorkerLaws.InterruptsOnce | src/better_colab/execution.py:655-678 | an interrupt is passed on once per connection, as what the row requests unless a timeout was passed on before |
| WorkerLaws.UnknownHasCause | src/better_colab/execution.py:1041-1124 | in every run an UNKNOWN execution was given up at one of eight named points; losing the connection after confirmation, a restart of confirmed work, or a message are not among them |
| WorkerLaws.JournalIsLifecycle | src/better_colab/storage.py:52-79 | in every run the journal is one of the lifecycles spelled out |
| Endings.CrashBeforeClosing | src/better_colab/storage.py:1678-1692 | in every run with a crash between the saved evidence and the closing writes, the restarted controller closes with the worker's verdict if and only if the durable request is the one it answers or the evidence does not show an interrupt |
| Endings.EnteringUnknown | src/better_colab/execution.py:1041-1099 | in every run a row that becomes UNKNOWN keeps its completeness flag if and only if it was DISPATCHING and complete, and then it is the worker that gives it up |
| Endings.LeftHasCause | src/better_colab/execution.py:315-369 | a DISPATCHING or RUNNING row with nobody working on it has one of three causes: a closed worker, an undelivered interrupt before confirmation, a failing failure handler |
| Scenarios.UnknownCanBeComplete | src/better_colab/execution.py:1059-1067 | a reachable UNKNOWN execution still flagged complete |
| Scenarios.UndeliveredLeavesDispatching | src/better_colab/execution.py:1101-1124 | a reachable execution left DISPATCHING by an undelivered interrupt, its request sent |
| WorkerRuns.JournalIsPath | src/better_colab/storage.py:1397-1427 | in every run the journal is an allowed path of at most six entries to the current state |
| WorkerRuns.TerminalIsFinal | src/better_colab/storage.py:1929-1936 | a terminal row keeps state, journal and output for ever, is finalized without source, and refuses output |
| WorkerRuns.IncompleteForGood | src/better_colab/storage.py:1727-1737 | the completeness flag never returns, and any row that was ever DISCONNECTED has it down in every later state |
| WorkerRuns.CompleteOutputIsExact | src/better_colab/execution.py:719-742 | an execution that is over, other than as UNKNOWN, and complete stored exactly the output of its matching events, in order |
| WorkerThread.KernelThread.RunOne | src/better_colab/execution.py:594-639 | nothing happens unless the row is queued; every path is a run of the machine and leaves it at a named place |
| WorkerThread.KernelThread.LoadSource | src/better_colab/execution.py:596-624 | only sound text of a queued row goes on to be sent; a missing session or text that is not UTF-8 ends the execution |
| WorkerThread.KernelThread.Dispatch | src/better_colab/execution.py:624-640 | the dispatch is committed before anything is sent |
| WorkerThread.KernelThread.LiveHead | src/better_colab/execution.py:644-678 | a requested interrupt or a passed deadline is delivered once; a terminal row ends the loop |
| WorkerThread.KernelThread.LiveStore | src/better_colab/execution.py:701-757 | confirmation, output, evidence and closing are written in this order, each once, and the loop goes on exactly without a verdict |
| WorkerThread.KernelThread.ObserveLive | src/better_colab/execution.py:641-757 | the loop is a run of the machine whose locals are the proof object, the interrupt flag and the deadline |
| WorkerThread.KernelThread.DispatchFailed | src/better_colab/execution.py:1041-1069 | a failed dispatch ends the execution unless the store fails |
| WorkerThread.KernelThread.ConnectionLost | src/better_colab/execution.py:1071-1099 | lost before confirmation it is over; lost after, it is disconnected, incomplete and recovered |
| WorkerThread.KernelThread.AmbiguousInterrupt | src/better_colab/execution.py:1101-1124 | unless the store fails, an undeliverable interrupt leaves the row DISPATCHING if and only if it was, and ends it otherwise |
| WorkerThread.KernelThread.InternalFailure | src/better_colab/execution.py:315-369 | from every state an execution that raised is brought to an end unless the store fails |
| WorkerThread.KernelThread.RestoredProof | src/better_colab/execution.py:759-780 | a fresh proof object equal to the restored value |
| WorkerThread.KernelThread.RecoveryUnknown | src/better_colab/execution.py:782-802 | giving up marks the output incomplete and ends as UNKNOWN |
| WorkerThread.KernelThread.RecoverOne | src/better_colab/execution.py:804-964 | reconnecting until the row is over, the thread is closed or an exception escapes |
| Recovery.GivesUpIff | src/better_colab/execution.py:900-964 | recovery gives up if and only if at some message both halves of the answer to the info request are there and nothing has decided the execution; it closes the row if and only if a message decided it without that; otherwise it watches on |
| Recovery.GivesUpInRun | src/better_colab/execution.py:872-964 | the same in every run, from the info request on, whatever clients, the clock and the other thread do meanwhile |
| Recovery.HeardGoesOn | src/better_colab/execution.py:900-912 | every step of a run that stays in the loop is covered: it hears one message or none |
| Recovery.OrderedAnswersDecide | src/better_colab/execution.py:952-964 | when the kernel answers in order, every interleaving of the two queues, each with its half of the info answer at the end and anything unrelated in between, closes the row as the conversation says and never gives up |
| Recovery.ReconnectGivesUp | src/better_colab/execution.py:811-860 | without watching, recovery gives up if and only if the session is gone or endpoint, kernel or session id are not those recorded at dispatch |
| WorkerLaws.AskedOncePerReconnect | src/better_colab/execution.py:861-871 | in every run the kernel is asked for its info at most once per counted reconnect |
| WorkerThread.KernelThread.Connect | src/better_colab/execution.py:811-860 | recovery goes on only with the endpoint, kernel and session recorded at dispatch |
| WorkerThread.KernelThread.RecoveryHead | src/better_colab/execution.py:874-899 | the durable deadline and a requested interrupt are honoured while watching |
| WorkerThread.KernelThread.RecoveryStore | src/better_colab/execution.py:910-950 | output, evidence and closing of a recovered execution, in this order |
| WorkerThread.KernelThread.Serve | src/better_colab/execution.py:239-293 | the whole activity is a run of the machine; unless the thread was closed or the store failed, the execution is over afterwards if and only if no interrupt went undelivered before confirmation, and DISPATCHING otherwise |
| ControlPlane.OneRequestPerKey | src/better_colab/storage.py:1148-1168 | however clients retry and the controller crashes, at most one request is sent per execution id and per idempotency key |
| ControlPlane.RetryFindsHolder | src/better_colab/storage.py:1148-1168 | a retry with a used key changes nothing and names the holder, or is refused when the request differs |
| BatchRuns.LeftWasAbandoned | src/better_colab/execution.py:980-999 | the loop goes past a member that is not over only if the worker was closed at it or an interrupt for it could not be delivered before confirmation |
| BatchRuns.SentInOrder | src/better_colab/execution.py:966-1031 | without continue-on-error a member is sent only after every earlier one is FINISHED, but for abandoned members and for one whose dispatch began after the batch's cancel and before its own |
| BatchRuns.SentInOrderAtomic | src/better_colab/storage.py:2903-2918 | when a cancel is one step, the order holds after it too |
| BatchRuns.SentIsPrefix | src/better_colab/execution.py:966-1031 | when a cancel is one step, the members sent form a prefix unless one was abandoned |
| BatchRuns.FinishedBatch | src/better_colab/execution.py:1020-1031 | a finished batch has only finished or abandoned members |
| BatchOutcome.NeverStops | src/better_colab/execution.py:1005-1018 | with continue-on-error, as long as no exception reaches the batch handler, the loop never stops the members that are left |
| BatchOutcome.StopsIff | src/better_colab/execution.py:1004-1018 | it stops them if and only if it found the member failed, was not told to continue and sees no cancel; otherwise it goes on with the next |
| BatchOutcome.ReachedIsTakenUp | src/better_colab/execution.py:980-996 | every member the loop has gone through it took up: a queued one loaded, a disconnected one recovered, any other passed by |
| BatchOutcome.OutcomeMeans | src/better_colab/execution.py:1020-1030 | at the end of the loop every member was taken up, and the outcome is interrupted if and only if a cancel is pending, otherwise an error if and only if some member was found failed, otherwise finished |
| BatchOutcome.OutcomeByMembers | src/better_colab/execution.py:1020-1030 | if no member was abandoned, the outcome can be read off the states of the members in the same way |
| BatchOutcome.OutcomeIsKept | src/better_colab/storage.py:2846-2880 | that outcome becomes the state of the batch, unless it was over already |
| BatchOutcome.NothingLeftQueued | src/better_colab/execution.py:966-1031 | in every run, exceptions, cancels and crashes included, no member is left in the queue once the batch is over |
| BatchScenarios.ClosedWorkerBreaksOrder | src/better_colab/execution.py:1126-1130 | a reachable batch in which closing the worker lets member 1 be sent while member 0 is not over |
| BatchScenarios.FinishedWithoutFinishing | src/better_colab/execution.py:1020-1031 | a reachable batch reported finished with every member DISPATCHING |
| BatchScenarios.UndeliveredBreaksOrder | src/better_colab/execution.py:1101-1124 | a reachable batch in which an undelivered interrupt lets member 1 be sent while member 0 is DISPATCHING |
| BatchScenarios.CancelBreaksOrder | src/better_colab/storage.py:2903-2918 | a reachable batch in which member 1 is sent past a failed member 0 between the batch's cancel and its own |
| Coordinator.ExecutionCoordinator.OpenWorker | src/better_colab/execution.py:1180-1203 | one worker per session, none once closed |
| Coordinator.ExecutionCoordinator.Schedule | src/better_colab/execution.py:1222-1227 | a key is queued once until it is completed |
| Coordinator.ExecutionCoordinator.Completed | src/better_colab/execution.py:1435-1439 | the key leaves the schedule and the count goes down |
| Coordinator.OneActivity | src/better_colab/execution.py:1205-1276 | no execution is ever worked on twice at a time, or queued while it is worked on |
| Coordinator.TakenInOrder | src/better_colab/execution.py:1133-1134 | each session's work is taken in the order in which it was scheduled |
| Coordinator.IdleMeansIdle | src/better_colab/execution.py:1441-1452 | the count is zero if and only if no worker has anything queued or in hand |
| Coordinator.ServedIff | src/better_colab/execution.py:239-293 | in every run a scheduled key can still be completed if and only if it is in hand, or queued ahead of a Stop on a thread that has not returned |
| Coordinator.IdleIff | src/better_colab/execution.py:1441-1452 | the coordinator can become idle if and only if every scheduled key can be served |
| Coordinator.NeverServed | src/better_colab/execution.py:239-293 | a key that cannot be served stays scheduled, and the count above zero, whatever follows |
| Coordinator.LateWorkIsStuck | src/better_colab/execution.py:1218-1227 | a run in which work is scheduled on a closed worker |
| Coordinator.DeadWorkerIsStuck | src/better_colab/execution.py:262-293 | a run in which work is scheduled on a worker whose thread an exception ended, though nothing was closed |
| Utf8.ChunkEnd | src/better_colab/storage.py:1876-1886 | a chunk is nonempty and within the limit; for well-formed UTF-8 (section 4 of RFC 3629) it does not cut a character, so the fallback is never taken |
| Utf8.Split | src/better_colab/storage.py:1871-1887 | the chunks are the text; none is over 512 bytes; none is empty unless the text is; if the text is well-formed, so is each, and all but the last are over 508 bytes |
| Spool.OutputSpool.WriteChunks | src/better_colab/storage.py:1950-1968 | however little each write takes, success means all chunks follow the committed text |
| Spool.OutputSpool.IndexRows | src/better_colab/storage.py:1969-1998 | consecutive ranges, error details on the first chunk only |
| Spool.OutputSpool.AppendText | src/better_colab/storage.py:1912-2016 | on success file and index agree and the rows are chunks of the text; on failure index and committed text are as before; every durable state on the way holds exactly the old rows and text or the new ones |
| Spool.OutputSpool.AppendIndex | src/better_colab/storage.py:2130-2172 | a row without text, refused once finalized |
| Spool.OutputSpool.Crash | src/better_colab/storage.py:1938-2016 | whatever survives beyond what was synced, the spool is still consistent |
| Spool.OutputSpool.FinalizeOutput | src/better_colab/storage.py:2392-2459 | refused if and only if the file is longer than its index; the digest and any new artifact are of exactly the committed text; when an older artifact is kept it is that text if and only if its size is |
| Spool.CrashKeepsText | src/better_colab/storage.py:1938-2016 | a crash leaves index and committed text as they were |
| Spool.CrashedAppend | src/better_colab/storage.py:1938-2016 | a crash at any state of an append leaves the texts committed before it, or those and the new one |
| Spool.AppendAfterCrash | src/better_colab/storage.py:1912-2016 | an append cut short after any of its actions, a new process, another append: the spool holds the old texts with or without the cut one, and file and index agree again |
| Spool.InterruptedFinalization | src/better_colab/storage.py:2430-2445 | promotion, more output, finalization: the kept artifact is of the recorded text if and only if nothing was added |
| Spool.ReadsBack | src/better_colab/storage.py:2210-2275 | reading every row returns the committed text, each byte once, whatever lies beyond it |
| Paging.EncodeCursor | src/better_colab/protocol.py:118-131 | the loop yields the cursor text, and refuses negative offsets |
| Paging.CursorRoundTrip | src/better_colab/protocol.py:118-140 | decoding the cursor of n gives n, for all n |
| Paging.DecodesIff | src/better_colab/protocol.py:134-140 | exactly the texts of the form c1_ and lower-case digits of base 36 are accepted |
| Paging.ReadPage | src/better_colab/storage.py:2277-2390 | the page, or which error, for any cursor and budget |
| Paging.PagesIff | src/better_colab/storage.py:2284-2380 | a page is returned if and only if the budget is supported, the cursor is known and the next event fits; which error otherwise |
| Paging.PageFits | src/better_colab/storage.py:2365-2390 | a page is nonempty, within its budget, and ends only where the next event would not fit |
| Paging.PageStable | src/better_colab/storage.py:2277-2390 | a page with more to come is the same page after any later appends |
| Paging.TraversalIsComplete | src/better_colab/storage.py:2277-2390 | following cursors visits every event once, in order, whatever the budgets |
| Paging.TraverseSucceeds | src/better_colab/storage.py:2365-2380 | a reader gets to the end if and only if every event fits its budget |
| Paging.TraverseFollowsCursors | src/better_colab/storage.py:2277-2390 | the pages so read are those the cursors lead to |
| EndToEnd.AppendOutputEvent | src/better_colab/storage.py:1814-1870 | the spool carries exactly the items of all events appended so far; refused once finalized |
| Outputs.StoredMeans | src/better_colab/execution.py:88-160 | for every message, in its fields: what it stores, both directions, and which messages store nothing |
| EndToEnd.PagesReturnItems | src/better_colab/storage.py:2210-2390 | whatever the budgets, the stream text joined over the pages is that of the appended items |
| EndToEnd.SpoolOfRun | src/better_colab/storage.py:1814-2016 | for any run, appending each committed output event to a spool, with crashes in between and a finalization at the end, leaves a spool that carries what the run says |
| EndToEnd.PagesReturnStream | src/better_colab/storage.py:2277-2390 | for an execution that is over, other than as UNKNOWN, and complete, the stream text joined over the pages is the text of the stream messages, taken from their own fields, whatever the budgets |
| Notebook.Collect | src/better_colab/notebooks.py:530-620 | an inner loop collects exactly one maximal group of chunks |
| Notebook.Replace | src/better_colab/notebooks.py:621-640 | an update replaces the last output shown under its id, or is appended |
| Notebook.NotebookOutputs | src/better_colab/notebooks.py:502-645 | the nested loops terminate and compute the event-by-event reading, with deferred clears and updates |
| Notebook.ChunkInvariance | src/better_colab/notebooks.py:502-645 | cutting any texts into chunks leaves the outputs unchanged |
| Notebook.ClearForgets | src/better_colab/notebooks.py:519-526 | after an immediate clear the outputs are what the events behind it make of an empty notebook, so none if nothing is shown behind it |
| Notebook.DeferredClearWaits | src/better_colab/notebooks.py:519-529 | a deferred clear alone changes nothing; the next output, or an immediate clear, removes all that was there |
| Notebook.NewOutputIsShown | src/better_colab/notebooks.py:530-645 | a stream, error or display after something of another kind appears, with its own fields, behind the others, alone if a deferred clear was waiting, or in place of what it updates |
| Notebook.StreamsMerge | src/better_colab/notebooks.py:531-552 | text directly behind text to the same stream is one output |
| Writeback.StoredRowsAreChunks | src/better_colab/storage.py:1969-1998 | the rows the store writes for a text are chunks of it in that sense |
| Writeback.WritebackIgnoresChunking | src/better_colab/notebooks.py:502-645 | a notebook rebuilt from stored rows is the one rebuilt from the uncut output |
| Writeback.ArtifactIsSkipped | src/better_colab/notebooks.py:509-518 | the row of a promoted artifact at the end changes nothing |
| Writeback.NotebookShowsWhatWasSent | src/better_colab/notebooks.py:647-700 | for such an execution the notebook is the one rebuilt from what its messages tell, each by its own fields and uncut, with or without a promoted artifact |
| Frames.Connection.RecvExact | src/better_colab/controller_protocol.py:81-90 | exactly the next bytes, however they were split, or an error when there are fewer |
| Frames.Connection.RecvFrame | src/better_colab/controller_protocol.py:93-102 | one frame, or which error, as a function of the bytes to come |
| Frames.Connection.ReadFrame | src/better_colab/controller_protocol.py:54-70 | the asynchronous reader, with its own error inside the header |
| Frames.Connection.ReadAll | src/better_colab/controller.py:167-189 | the connection loop reads the same requests as the frame-by-frame reading |
| Frames.FrameRoundTrip | src/better_colab/controller_protocol.py:25-51 | one frame comes back whatever follows it |
| Frames.FrameLayout | src/better_colab/controller_protocol.py:25-51 | four bytes of length, the highest first, then the body |
| Frames.CutFrame | src/better_colab/controller_protocol.py:81-102 | a proper prefix of a frame is an error |
| Frames.CutStream | src/better_colab/controller_protocol.py:54-102 | a stream cut anywhere yields exactly the whole frames before the cut, then an error |
| Frames.WholeStream | src/better_colab/controller_protocol.py:25-102 | any list of payloads within the limit comes back, for any splitting |
| DriveAuth.Coordinator.Intercept | src/colab_cli/drive_auth.py:128-157 | which messages are taken; a new id is queued and a thread started when none is alive; a known id changes nothing |
| DriveAuth.Coordinator.Take | src/colab_cli/drive_auth.py:174-181 | the next request, or the thread field cleared when there is none |
| DriveAuth.Coordinator.MarkReplied | src/colab_cli/drive_auth.py:383-387 | each id is marked once |
| DriveAuth.Coordinator.RecordError | src/colab_cli/drive_auth.py:192-195 | the first error is kept |
| DriveAuth.OneWorker | src/colab_cli/drive_auth.py:138-149 | in every interleaving at most one worker is alive |
| DriveAuth.QueueHasWorker | src/colab_cli/drive_auth.py:138-181 | a nonempty queue has a live worker if and only if the thread on record is not a dead one |
| DriveAuth.NeverStranded | src/colab_cli/drive_auth.py:138-181 | without an exception while building a reply nothing is stranded |
| DriveAuth.RaiseStrands | src/colab_cli/drive_auth.py:388-399 | with one, a request is |
| DriveAuth.NextRequestRepairs | src/colab_cli/drive_auth.py:138-149 | until the next new request |
| DriveAuth.RepliesInOrder | src/colab_cli/drive_auth.py:383-402 | replies go out in the order of acceptance, each id at most once |
| DriveAuth.QuietMeansAnswered | src/colab_cli/drive_auth.py:162-190 | when no thread is on record every accepted request was replied to |
| DriveAuth.WorkerFinishes | src/colab_cli/drive_auth.py:174-190 | left alone, from any point of any run, the worker answers everything in boundedly many steps and returns |
| Wakeup.NoLostWakeup | src/better_colab/controller.py:804-841 | while no thread fails before notifying and no publish task fails, a blocked waiter implies that nothing has ended or a notification is on its way |
| Wakeup.WokenIffPending | src/better_colab/controller.py:1070-1099 | in every run, failures included, a waiter asleep after the end can still be woken if and only if a notification is on its way |
| Wakeup.EveryWaitReturns | src/better_colab/controller.py:1070-1099 | after the end is committed, however tasks are scheduled and as long as none fails, the controller comes to rest after boundedly many steps and every wait has returned, those without timeout having seen the end |
| Wakeup.FailureLosesWakeup | src/better_colab/execution.py:1068-1069 | a thread that fails between commit and notification leaves a waiter asleep |
| Wakeup.PublishFailureLosesWakeup | src/better_colab/controller.py:1083-1095 | so does a publish task that fails while it reads the row |
| Wakeup.LossesAreReachable | src/better_colab/controller.py:1070-1099 | both happen in runs from the start |

## Left out

- SQL text, migrations, timestamps and file modes: a transaction is one atomic update, an atomic file replacement one durable step, time a number that never decreases.
- One clock stands for wall clock and monotonic clock; the loop's own deadline is only known to be no earlier than the durable one.
- SHA-256, UUIDs, JSON and base64: `Digest` stands for the hash and nothing depends on which function it is, message ids are arbitrary, the frame body is an abstract codec with a stated round trip, json.loads and str.splitlines of notebook text are kept as symbols.
- HTTP, OAuth, websocket and Jupyter client code: the network and the kernel answer arbitrarily.
- Session leases, readiness probes and their queue items: not part of this model.
- Electing the controller process and its socket: not part of this model.
- Pruning, listing, health fields, collection paging, capabilities, command line and rendering: they add only easy members.
- Round-tripping displays through notebooks: adjacent displays of the same type and id are merged by design, so only independence from chunking is claimed.
- Display metadata and execution counts are carried as tokens; the store's copy of them is not modelled.
- Binary representations: one that is not text, or is over the inline limit, becomes a row without text; the content of the artifact is not modelled.
- Several representations of one display are appended in one transaction each; the machine of `KernelWorker` takes one output event as one write, `EndToEnd` has the separate transactions.
- The batch loop is a step relation in `Batch`, not a method: a crash may come between any two of its writes, and its members are the machines of `KernelWorker`.
- A worker may keep a connection that was opened before the session row it reads; the identity recorded at dispatch, and compared at recovery, is the endpoint of the row together with the kernel and session ids of the connection.
- Exceptions of the program other than those raised by the store, the transport and the checks named above are one nondeterministic step.
- The join with a timeout in `wait` of the drive-authorization coordinator: only what a cleared thread field tells it is stated.
- Forced stops are excluded in `Wakeup`, since they end executions without notifying.
- RestoreCommutes: the error value is not compared, because an error value without a name or traceback is not saved; no verdict depends on it.
- SentInOrder: the two exceptions are what the code does; LeftWasAbandoned gives the cause of the first, SentInOrderAtomic removes the second, and BatchScenarios shows both.
- FinishedBatch: the same exception for abandoned members, because the code reports such a batch as finished.
- OutcomeByMembers: for batches without an abandoned member, because the code does not count one that fails later; OutcomeMeans has no such assumption.
- OrderedAnswersDecide: the request stays the same while the loop watches; GivesUpInRun has no such assumption.
- FinalizeOutput: a stale artifact is described, not excluded, because the code keeps it.
- Serve: a queued batch member is not covered here, because its exceptions go to the batch's handler instead.
- NeverStranded: assumes that building a reply does not raise, because the code loses the queue otherwise.
- NoLostWakeup: assumes that a thread that commits also notifies and that publish tasks do not fail, because the code may fail there; WokenIffPending has no such assumption.
- SpoolOfRun: an append that fails ends the comparison. An event whose transactions fail halfway has its first items in the spool; the execution then ends incomplete or is recovered as such.
