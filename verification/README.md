# runnerd: a verified model of a job supervisor

runnerd is a single-threaded daemon that accepts jobs over a local socket, runs at most
`max_running` of them at a time in submission order, captures their output, stops them on request
or on timeout (SIGTERM, one second of grace, SIGKILL) and reports their results. This project
models its logic in Dafny and proves what it keeps true in every run.

## How the model is built

Two layers describe the daemon.

*The step machine* (`Kernel`, `MonitorSpec`, `Deadlines`, `Machine`) says what one event (SUBMIT,
CANCEL, a readable pipe, SIGCHLD, an expired timer) does to the whole state: the job table, the FIFO
queue, the occupied slots, the live processes and their index by process id, the pending terminal
notifications, the deadlines, the counters and the kernel. `Machine.Run` folds any sequence of events.

*The classes* (`JobScheduler`, `ProcessMonitor`, `TimeoutManager`, `Daemon`, `FrameDecoder`,
`Connection`) follow the source method by method, with its indexes, its lazily cleaned heap, its
buffers and its loops. Each method is proved equal to the machine's function for it. Of the source's
`logic_error` checks two can fail, both because a process id was reused, and the machine follows them;
every other one is an `assert false` that Dafny proves unreachable. `Daemon.Serve` closes the circle:
an object driven by any events is in the state `Run` says.

The kernel is an adversary. Every system call takes its answer from an arbitrary finite stream
(`Kernel.Os`): launches that fail or succeed with any ids, partial reads, EINTR, EAGAIN, end of
file, exits in any order, refused signals, refused timers, and a clock that advances by any amount.
An exhausted stream answers quietly. An answer no kernel can give is replaced by a refusal: a new
child with the id of a child still to be waited for, a descriptor that is open, an exit of no child.
Nothing else is assumed: as soon as a child has been waited for its process group may die out, and its
id may be given to another child of the daemon or to a process that is none of its own. Beside the answers the kernel keeps independent
books: the bytes each pipe delivered, the children still to be waited for, whose launch made the
process group of each id and whether that group may be somebody else's, whether a SIGCHLD is pending, and a log of what happened when. The safety
results are statements about that log (`Ledger`, `Histories`); where a record carries a name the
daemon supplied, as a signal does, the kernel's own resolution of the group stands beside it.

| file | holds |
|---|---|
| `Job.dfy` | job records and the job state machine |
| `Kernel.dfy`, `Host.dfy` | the operating system and the system calls; exceptions as outcomes |
| `Monitor.dfy`, `Deadlines.dfy`, `Machine.dfy` | the step machine |
| `Ledger.dfy`, `Histories.dfy` | the log, the rules of the supervision protocol, what the rules mean for a history |
| `MonitorInvariant.dfy`, `MachineInvariant.dfy`, `Progress.dfy` | the cross-module invariant and how jobs evolve |
| `Runs.dfy`, `Answers.dfy` | the results about whole runs |
| `Reactions.dfy` | what the process monitor does, told by the kernel's answers alone |
| `Words.dfy` | the answers word for word and the requests byte for byte |
| `Heap.dfy`, `TimeoutManager.dfy`, `JobScheduler.dfy`, `ProcessMonitor.dfy`, `Daemon.dfy` | the classes |
| `Wire.dfy`, `Decimal.dfy`, `Frames.dfy`, `Protocol.dfy`, `Listing.dfy`, `Requests.dfy`, `Connection.dfy` | the wire protocol, requests and responses |
| `Growth.dfy` | the history only grows |
| `PidReuse.dfy`, `Astray.dfy`, `LostChild.dfy` | process ids that are given away: what fails, exactly when, and runs |
| `Wakeups.dfy`, `StuckRun.dfy` | when the daemon can still be woken: what fails, exactly when, and a run |
| `Endings.dfy`, `RefusedTimer.dfy` | when the daemon ends or is degraded, exactly, and runs |

`dafny verify dfyconfig.toml` checks everything.

## Results to read first

- `MachineInvariant.RunKeeps`, `Runs.ModulesAgree`: the four pieces of mutable state agree after every event of every run.
- `Daemon.Serve`, `Daemon.Daemon.Handle`: the classes do what the machine does.
- `Runs.TimeoutsAreNeverEarly`, `Runs.GraceIsRespected`, `Runs.MilestonesHappenOnce`, `Runs.SignalsReachTheirGroup`: the timed signal protocol.
- `Progress.DeadlinesAreExact`: deadlines from above and below, in nanoseconds.
- `Runs.ResultsAreTheChildsOwn`, `Runs.OutputIsComplete`, `Runs.ResultsAreConsistent`, `Runs.FirstCauseWins`, `Runs.NoJobIsForgotten`.
- `Reactions.SigchldCollects`, `Reactions.FinishedIsNotCancelled`, `Reactions.RunningIsCancelled`: which answers of the kernel lead to which end.
- `Words.ListIsTruthful`, `Words.StatusIsTruthful`: in every run the words of LIST and STATUS say where each job is.
- `PidReuse.NeverLost`, `PidReuse.LossIff`, `Astray.SignalsMayStrayIff`; `Wakeups.SleepIsForEver`, `Wakeups.MaySleepIff`; `Endings.EndsIff`, `Endings.DegradedIff`: ways in which the daemon fails, with their exact conditions.
- `Answers.AcceptedCancelIsFinal`, `Answers.CancelIsAcceptedOnce`: what an answer promises about the future.
- `TimeoutManager.TimeoutManager.HandleReadable`: heap, stale entries and generations behave as a plain map.
- `Frames.DecodeChunks`, `Protocol.SubmitIsBijective`, `Requests.ClientAndDaemonAgree`, `Connection.Converse`: the protocol end to end.

## Where the code fails what one might expect

- **A signal can reach somebody else.** Once a job's child has been waited for, nothing keeps its process
  id, but the job stays live until its pipes end, which a descendant that has left the process group, or
  an end of file not yet read, can delay. A CANCEL or a timeout then signals whatever group has the
  id: one of an unrelated process (`LostChild.ForeignGroup`), or that of a later job
  (`LostChild.WrongGroup`). Exactly: a signal can go astray, if the kernel answers so, if and only if the
  exit of the job's child has been handed out (`Astray.SignalsMayStrayIff`); before that every signal
  that gets through reaches its own job's group, and after it a group of the daemon's own that is
  reached is the job's own if and only if its id was not given to a later job
  (`Runs.SignalsReachTheirGroup`).
- **A child can be lost.** `pid_to_job_` keeps an entry until the job settles, not until the child is
  waited for. If the id of job 1 is given away while it is live, a first reuse collides, and its rollback
  erases job 1's entry; a second reuse, by job 3, registers. If job 1 then settles, it takes job 3's entry
  with it, the exit of job 3's child is ignored and job 3 keeps its slot (`LostChild.ChildIsLost`). A
  CANCEL of job 3 loses its connection, and a deadline of job 3 ends the daemon
  (`PidReuse.StoppingRaisesIff`, `LostChild.LostDeadlineIsFatal`). All other results hold of these runs
  too. Exactly: only a job started with the id of an unsettled job is ever lost, in any run
  (`PidReuse.NeverLost`), and as long as nothing is lost every such job whose child is still to be waited
  for can be (`PidReuse.LossIff`); a start collides if and only if its id is in the index
  (`PidReuse.CollisionIff`); and stopping a job raises the internal error if and only if its exit is not
  recorded and the exits of all live jobs with its id have been handed out (`PidReuse.OrphanIff`).
- **The queue can get stuck.** Terminal notifications are handled after timer and monitor events only,
  and a CANCEL can settle a job whose exit was already reported and whose pipes it finds ended. If that
  job was the last thing the daemon could hear of, its slot is never freed and the queue waits for ever
  (`StuckRun.QueueIsStuck`, with one slot; docs/requirements.md:111-112 promises otherwise). Exactly:
  the daemon can be woken if and only if a process can still be heard of, the timer is set or a SIGCHLD is
  pending (`Wakeups.WakeUpIff`); a CANCEL can put it to sleep, if the kernel answers so, if and only if the
  job is its last hope (`Wakeups.MaySleepIff`), and no other event does as long as no child is lost
  (`Wakeups.OnlyCancelSleeps`); and from there no request of any client starts a waiting job
  (`Wakeups.SleepIsForEver`). Accordingly `Runs.NothingIsLate` counts a slot whose
  notification is pending as occupied.
- **A refused timer.** If the timer cannot be armed for a job that was just started, the exception leaves the
  scheduler loop. A SUBMIT loses its connection although its job runs, with a deadline on record and no
  timer set (`RefusedTimer.SubmitLeavesTimerUnset`); a timer or monitor event ends the daemon
  (`RefusedTimer.MonitorEventEnds`). Exactly: an event ends a living daemon if and only if it is a timer or
  monitor event in which the timer was refused for a job just started, or a timer event in which the
  timer was refused for the event itself, a signal was refused with an error the source does not handle,
  or a lost job's turn came (`Endings.EndsIff`); and the daemon is degraded if and only if an execution
  deadline was refused at some time (`Endings.DegradedIff`).
- **Answers to a repeated CANCEL.** docs/requirements.md:151 says that it reports a terminal job;
  the code answers "ERR job is already terminating" while the job is TERMINATING. The model follows the code.

## Model

| member | source | states |
|---|---|---|
| Jobs.PathsFollow | src/job.cpp:52-78 | every chain of legal transitions stays within the closed-form "can follow" relation |
| Jobs.FollowsIsPath | src/job.cpp:52-78 | every pair in that relation is joined by an actual chain of legal transitions |
| Jobs.TerminalIff | src/job.cpp:31-50 | the terminal states are exactly those that no state can follow |
| ProcessMonitor.Transition | src/job.cpp:109-118 | a legal transition changes the state only; an illegal one is refused and changes nothing |
| Protocol.ValidateJobSpec | src/job.cpp:80-107 | accepts exactly the valid specifications and otherwise names the first rule broken |
| Deadlines.DueOrdered | src/timeout_manager.cpp:241-272 | the expired jobs are listed once each, by deadline and then JobId |
| Deadlines.DueUnique | src/timeout_manager.cpp:241-272 | any list with the right members in the right order is that list |
| Deadlines.TimerIsExact | src/timeout_manager.cpp:155-204 | the timer is set to the earliest deadline, to one nanosecond ahead exactly if that has passed, and disarmed exactly if there is none |
| Heap.TopIsEarliest | include/runnerd/timeout_manager.h:100-111 | the top of the heap comes before every entry by (deadline, JobId), generations unordered |
| Heap.Push | src/timeout_manager.cpp:107-108 | keeps the heap order and adds exactly the entry |
| Heap.Pop | src/timeout_manager.cpp:149-153 | keeps the heap order and removes exactly the top entry |
| TimeoutManager.TimeoutManager.TopIsFirst | src/timeout_manager.cpp:137-164 | once no stale entry lies on top, the top is the earliest deadline of the map |
| TimeoutManager.TimeoutManager.DiscardStaleEntries | src/timeout_manager.cpp:149-153 | leaves the map unchanged and the heap empty or with a current entry on top |
| TimeoutManager.TimeoutManager.ArmToNextDeadline | src/timeout_manager.cpp:155-204 | sets the timer to exactly the earliest deadline of the map, or one nanosecond ahead if it passed, with an exact and normalised split; disarms only if the map is empty |
| TimeoutManager.TimeoutManager.Insert | src/timeout_manager.cpp:93-114 | the map gains or replaces the job's deadline whatever entries the heap still holds for it |
| TimeoutManager.TimeoutManager.Schedule | src/timeout_manager.cpp:82-119 | refuses non-positive times and an exhausted counter unchanged; otherwise updates the map and the timer, keeping the deadline even if arming failed |
| TimeoutManager.TimeoutManager.Cancel | src/timeout_manager.cpp:121-135 | removes the deadline from the map; idempotent |
| TimeoutManager.TimeoutManager.TakeFirst | src/timeout_manager.cpp:257-268 | removes one current entry from heap and map |
| TimeoutManager.TimeoutManager.HandleReadable | src/timeout_manager.cpp:206-279 | returns exactly the due jobs of the map in order, leaves exactly the later ones, and re-arms |
| JobScheduler.JobScheduler.Create | src/job_scheduler.cpp:9-13 | refuses a limit of zero, otherwise starts empty |
| JobScheduler.JobScheduler.Enqueue | src/job_scheduler.cpp:15-41 | appends a new id; refuses zero and ids already queued or active, unchanged |
| JobScheduler.JobScheduler.TakeNextJobToStart | src/job_scheduler.cpp:43-69 | yields the head exactly if a slot is free and the queue is not empty, and moves it into a slot |
| JobScheduler.JobScheduler.OnJobReachedTerminalState | src/job_scheduler.cpp:71-83 | frees the slot; an id without a slot is an error |
| JobScheduler.JobScheduler.CancelQueuedJob | src/job_scheduler.cpp:85-106 | removes one id from the queue, the others keep their order |
| JobScheduler.JobScheduler.RemoveAt | src/job_scheduler.cpp:93-103 | erasing the found position is the recursive removal |
| MachineInvariant.RemoveSpec | src/job_scheduler.cpp:85-106 | removal keeps the queue strictly increasing and loses exactly the one id |
| ProcessMonitor.ProcessMonitor.RegisterProcessFd | src/process_monitor.cpp:185-202 | tracks the descriptor, or leaves the index as it was when epoll refuses or it is tracked already |
| ProcessMonitor.ProcessMonitor.RegisterPipes | src/process_monitor.cpp:281-283 | three registrations in order, stopping at the first refusal; only these descriptors are touched |
| ProcessMonitor.ProcessMonitor.AbandonStartedJob | src/process_monitor.cpp:204-239 | rolls back descriptors, child, both indexes and the process table, and fails the job |
| ProcessMonitor.ProcessMonitor.StartJob | src/process_monitor.cpp:241-291 | equals the machine's start: RUNNING, or FAILED after a refused launch, a registered process id or a refused registration; a job that is not QUEUED is refused; the descriptor index stays exact |
| ProcessMonitor.ProcessMonitor.Monitor | src/process_monitor.cpp:270-288 | from a launched child to a registered RUNNING job, or back when its process id is registered already or a registration is refused |
| ProcessMonitor.ProcessMonitor.CloseTrackedFd | src/process_monitor.cpp:518-550 | closes the descriptor and marks exactly the end it belongs to as ended |
| ProcessMonitor.ProcessMonitor.ReadProcessFd | src/process_monitor.cpp:562-601 | one read equals the machine's read of the tracked pipe |
| ProcessMonitor.ProcessMonitor.DrainProcessFd | src/process_monitor.cpp:552-602 | the loop equals the recursive drain, which goes on to EAGAIN or end of file (`Reactions.DrainTakes`) |
| Reactions.DrainTakes | src/process_monitor.cpp:562-602 | over the kernel's answers: data and interruptions in any mix, then end of file or EAGAIN, are all taken, and all the data is appended in order |
| Reactions.PipeIsRead | src/process_monitor.cpp:552-602 | a readable pipe of a live job is read that far; if that finishes the job, the record has all the bytes |
| ProcessMonitor.ProcessMonitor.Conclude | src/process_monitor.cpp:693-764 | every transition made while settling is legal and the record is the machine's result, whose exit code or signal is the child's own (`Runs.ResultsAreTheChildsOwn`) |
| ProcessMonitor.ProcessMonitor.TryFinalizeJob | src/process_monitor.cpp:679-788 | settles exactly the finished processes, with one notification, and removes them from table and indexes |
| ProcessMonitor.ProcessMonitor.PollChild | src/process_monitor.cpp:309-344 | the wait loop equals the machine's poll, and ECHILD occurs exactly if the exit is unrecorded and no child has the id |
| ProcessMonitor.ProcessMonitor.FinishExitedChildBeforeSignal | src/process_monitor.cpp:293-388 | polls, drains the open pipes, settles if possible; answers true exactly if the process is gone; raises exactly if the job has no process or its child cannot be waited for |
| Reactions.FinishSettles | src/process_monitor.cpp:346-378 | over the kernel's answers: if the exit is known and every open pipe delivers data and then ends, the job settles with all its bytes |
| Reactions.FinishedIsNotSignalled | src/process_monitor.cpp:351-378 | under the same answers neither SIGTERM nor SIGKILL is sent, and the job takes its natural end |
| Reactions.FinishedIsNotCancelled | src/runnerd_main.cpp:515-521 | ... and CANCEL answers that the process already exited |
| Reactions.RunningIsSignalled | src/process_monitor.cpp:435-468 | over the kernel's answers: a job whose child still runs gets SIGTERM, however often calls are interrupted, and is TERMINATING exactly if it was sent |
| Reactions.RunningIsKilled | src/process_monitor.cpp:470-516 | the same for SIGKILL |
| Reactions.RunningIsCancelled | src/runnerd_main.cpp:500-532 | CANCEL of a job whose child still runs, with each answer word for word and the SIGKILL deadline one second ahead |
| Reactions.StartSucceedsIff | src/process_monitor.cpp:241-291 | a job is RUNNING exactly if a child was launched, its id is not in the index and three registrations were accepted; otherwise it is FAILED, and nothing else of its record changes |
| ProcessMonitor.ProcessMonitor.SendSignalToProcessGroup | src/process_monitor.cpp:390-433 | signals the process's own group id, which is positive; retries on EINTR, reports a vanished group as not sent and other errors as exceptions |
| ProcessMonitor.ProcessMonitor.RequestTerminate | src/process_monitor.cpp:435-468 | only RUNNING jobs; the state and cause change only if SIGTERM was sent |
| ProcessMonitor.ProcessMonitor.ForceKill | src/process_monitor.cpp:470-516 | only TERMINATING jobs; no job record changes by the signal |
| ProcessMonitor.ProcessMonitor.ReapExitedChildren | src/process_monitor.cpp:604-642 | the reap loop through the pid index equals the machine's, which ignores exits whose id is not in the index and goes on until no child is reported (`Reactions.SigchldCollects`) |
| Reactions.CollectsAll | src/process_monitor.cpp:604-642 | over the kernel's answers: every child that one SIGCHLD reports is handed to its job, which settles exactly if its pipes have ended and else carries the status |
| Reactions.SigchldCollects | src/process_monitor.cpp:644-677 | the same for the whole event: the settled jobs have given up their slots when it is over |
| ProcessMonitor.ProcessMonitor.HandleSigchld | src/process_monitor.cpp:644-677 | the signal descriptor is emptied before children are reaped |
| ProcessMonitor.ProcessMonitor.HandleFileDescriptorEvent | src/process_monitor.cpp:790-812 | drains and settles the job the kernel's descriptor belongs to; unknown descriptors are ignored |
| MonitorInvariant.DrainKeeps | src/process_monitor.cpp:552-602 | reading keeps the daemon's copy of every pipe equal to the kernel's books and touches one process only |
| MonitorInvariant.ResultIsOk | src/process_monitor.cpp:693-764 | the settled record has a legal terminal state consistent with cause, exit code and signal, and keeps identity and output |
| MonitorInvariant.SettleKeepsStatus | src/process_monitor.cpp:679-788 | settling keeps every finished record in step with the status the kernel handed out for its child |
| MonitorInvariant.SettleKeeps | src/process_monitor.cpp:679-788 | settling keeps the monitor invariant and announces the job exactly once |
| MonitorInvariant.FinishKeeps | src/process_monitor.cpp:293-388 | the check before a signal keeps the invariant and sends nothing |
| MonitorInvariant.PipeEventKeeps | src/process_monitor.cpp:790-812 | a pipe event keeps the invariant and leaves no finished process unsettled |
| MonitorInvariant.ReapKeeps | src/process_monitor.cpp:604-642 | so does SIGCHLD, for any number of exited children |
| MonitorInvariant.KillGroupLog | src/process_monitor.cpp:412-432 | interrupted signal calls leave no trace beyond the log; the last one decides |
| MonitorInvariant.SendTermKeeps | src/process_monitor.cpp:452-468 | a permitted SIGTERM keeps the invariant and is an allowed record |
| MonitorInvariant.SendKillKeeps | src/process_monitor.cpp:496-516 | a permitted SIGKILL keeps the invariant and is an allowed record |
| MonitorInvariant.MarkKeepsIds | src/process_monitor.cpp:309-321 | recording an exit keeps log, index and children consistent even if the status was that of another job with the same id |
| MonitorInvariant.IgnoredKeepsIds | src/process_monitor.cpp:609-614 | so does ignoring one |
| MonitorInvariant.SettleKeepsIds | src/process_monitor.cpp:771-783 | settling erases an entry of its id; a job that never shared its id keeps its own |
| MonitorInvariant.UpKeepsIds | src/process_monitor.cpp:270-288 | a registration makes exactly the unsettled jobs with its id reused |
| MonitorInvariant.AbandonKeepsIds | src/process_monitor.cpp:229-232 | a rollback erases the entry of its id, which at that moment belongs to no child |
| MonitorInvariant.SpawnUndone | src/process_monitor.cpp:213-232 | the rollback restores the kernel's children and descriptors |
| MonitorInvariant.StartKeeps | src/process_monitor.cpp:241-291 | starting keeps the invariant; a failed start, a collision included, changes nothing but the job and the index entry of its id |
| MachineInvariant.ScheduleForceKillKeeps | src/runnerd_main.cpp:170-194 | after SIGTERM the job has a grace deadline or a SIGKILL behind it, and all other deadlines and their timer are untouched |
| MachineInvariant.TerminateKeeps | src/runnerd_main.cpp:500-532 | a termination request keeps the invariant and leaves the job handled or watched as before |
| MachineInvariant.ExpireKeeps | src/runnerd_main.cpp:720-802 | handling all expired deadlines keeps the invariant; SIGTERM for RUNNING, SIGKILL for TERMINATING |
| MachineInvariant.PumpKeeps | src/runnerd_main.cpp:210-253 | the scheduler loop keeps the invariant and ends with the queue empty or all slots taken |
| MachineInvariant.DeliverKeeps | src/runnerd_main.cpp:260-295 | notification processing keeps the invariant and empties the notification queue |
| MachineInvariant.SubmitKeeps | src/runnerd_main.cpp:593-648 | SUBMIT keeps the invariant |
| MachineInvariant.CancelKeeps | src/runnerd_main.cpp:472-545 | CANCEL keeps the invariant |
| MachineInvariant.TimerKeeps | src/runnerd_main.cpp:707-802 | a timer event keeps the invariant |
| MachineInvariant.StepKeeps | src/runnerd_main.cpp:884-977 | every event keeps the cross-module invariant |
| MachineInvariant.RunKeeps | src/runnerd_main.cpp:872-978 | the cross-module invariant holds in every state of every run |
| Progress.StepAdvances | src/runnerd_main.cpp:884-977 | every event lets jobs only evolve legally and forgets no job |
| Progress.RunWatches | src/runnerd_main.cpp:872-978 | in every run each TERMINATING job has a grace deadline ahead or a SIGKILL behind it |
| Progress.RunEvolves | include/runnerd/job.h:71-76 | between any two moments of a run jobs keep identity, first cause and terminal record |
| Progress.DeadlinesAreExact | src/runnerd_main.cpp:170-247 | in every run: the deadline of a RUNNING job is its timeout from a moment of the event that started it, that of a TERMINATING job one second from a moment of the event that sent SIGTERM, bounded on both sides |
| Histories.TermFollowsStart | src/runnerd_main.cpp:729-758 | in a log that obeys the rules a timeout SIGTERM follows the start by at least the timeout |
| Histories.KillFollowsTerm | src/process_monitor.cpp:470-516 | in such a log SIGKILL follows a delivered SIGTERM by the grace period or a refused deadline |
| Histories.AtMostOnce | src/process_monitor.cpp:435-516 | in such a log no milestone of a job happens twice and no signal follows settlement |
| Histories.FirstComeFirstServed | src/job_scheduler.cpp:15-69 | in such a log jobs are submitted and taken in strictly increasing order |
| Histories.ReleaseFollowsSettlement | src/job_scheduler.cpp:71-83 | in such a log a slot is released only after its job was taken and settled |
| Runs.ModulesAgree | src/runnerd_main.cpp:210-295 | QUEUED jobs are the queue, RUNNING and TERMINATING jobs the live processes, slots the disjoint union of live processes and duplicate-free notifications, never more than the limit |
| Runs.NothingIsLate | src/timeout_manager.cpp:155-204 | unless a timer was refused: no job waits beside a slot that is neither live nor awaiting its notification, and the timer is set no later than the earliest deadline or one nanosecond after setting |
| Runs.FinishedProcessesAreSettled | src/process_monitor.cpp:679-691 | no process that has exited with all pipes ended is left unsettled |
| Runs.NoJobIsForgotten | src/runnerd_main.cpp:170-194 | a TERMINATING job without a deadline has had its SIGKILL answered, a RUNNING job whose timeout is gone has had its SIGTERM answered |
| Runs.EveryJobIsAccountedFor | src/runnerd_main.cpp:599-636 | every accepted id is waiting, taken or withdrawn, exactly one of these, and lies in 1..2^64-1 |
| Runs.ResultsAreConsistent | src/process_monitor.cpp:693-764 | state, cause, exit code and signal of every job belong together; INTERRUPTED never occurs |
| Runs.OutputIsComplete | src/process_monitor.cpp:552-602 | a finished job that ran holds exactly the bytes its pipes delivered up to their end |
| Runs.ResultsAreTheChildsOwn | src/process_monitor.cpp:699-764 | in every run, a finished job not started with a shared id: its exit code or signal is the one the kernel handed out for its child; it has neither exactly if it was not terminated and its startup pipe spoke |
| Runs.FirstCauseWins | src/process_monitor.cpp:458-463 | the first cause and a terminal record never change |
| Runs.TimeoutsAreNeverEarly | src/runnerd_main.cpp:243-247 | a timeout SIGTERM comes no earlier than the moment of RUNNING plus the timeout; queue time never counts |
| Runs.GraceIsRespected | src/runnerd_main.cpp:170-194 | SIGKILL only after a delivered SIGTERM, and a full second later unless the grace deadline was refused |
| Runs.MilestonesHappenOnce | src/runnerd_main.cpp:707-802 | at most one SIGTERM gets through and one SIGKILL is answered, none after settlement; jobs are taken in order, once |
| Histories.ReusedIsHistory | src/process_monitor.cpp:275-279 | the ledger's reused ids are exactly those of the history |
| Histories.SignalsAreAimed | src/process_monitor.cpp:412-415 | in a log that obeys the rules a sent signal reached its own job's group before the child's exit was handed out; after that a group of the daemon's own is the job's own exactly if the id was not reused, and a later job's otherwise |
| Runs.SignalsReachTheirGroup | src/process_monitor.cpp:404-415 | the same for every run: the kernel's resolution of the group, which may be foreign, against the job that was meant |
| Runs.GroupsAreSignalledOnce | src/process_monitor.cpp:435-516 | no process group of the daemon's own is sent SIGTERM or SIGKILL twice unless the id of a job meant was reused |
| Growth.StepGrows | src/runnerd_main.cpp:884-977 | an event only adds records to the history |
| Growth.HistoryGrows | src/runnerd_main.cpp:872-978 | in every run the history so far is a prefix of any later one |
| Astray.StraysIff | src/process_monitor.cpp:412-415 | a signal sent now may reach another group, if the kernel answers so, exactly if the exit of the job's child was handed out |
| Astray.SignalsMayStrayIff | src/process_monitor.cpp:412-415 | the same stated on the history of any run |
| Astray.NextSignalMayStray | src/process_monitor.cpp:309-349 | once the exit was handed out, some answers make the next SIGTERM of a termination request, and the next SIGKILL, reach another group |
| Runs.SlotsAreConserved | src/job_scheduler.cpp:43-83 | a slot is held exactly from taking to releasing, and released only after settlement |
| Daemon.Daemon.constructor | src/runnerd_main.cpp:839-862 | the components start in the machine's initial state |
| Daemon.Daemon.SetDeadline | src/runnerd_main.cpp:243-251 | the heap-based manager does what the machine's map does |
| Daemon.Daemon.TakeNext | src/runnerd_main.cpp:213-222 | the head is taken exactly if the machine can pump |
| Daemon.Daemon.StartTaken | src/runnerd_main.cpp:222-252 | one turn of the scheduler loop equals the machine's; "neither RUNNING nor terminal" is unreachable; the deadline is exactly the timeout (`Progress.DeadlinesAreExact`) |
| Daemon.Daemon.PumpScheduler | src/runnerd_main.cpp:210-253 | the loop equals the machine's, and only external errors leave it |
| Daemon.Daemon.RetireNext | src/runnerd_main.cpp:265-288 | a notification always names a known terminal job that holds a slot |
| Daemon.Daemon.ProcessTerminalJobNotifications | src/runnerd_main.cpp:260-295 | the loop equals the machine's delivery and terminates |
| Daemon.Daemon.ScheduleForceKillDeadline | src/runnerd_main.cpp:170-194 | grace deadline, or immediate SIGKILL when it cannot be set |
| Daemon.Daemon.CancelJob | src/runnerd_main.cpp:472-545 | equals the machine's CANCEL with exactly its answer; a QUEUED job is always found in the queue; the internal error occurs exactly if the job is RUNNING and its child cannot be waited for |
| Daemon.Daemon.HandleExpired | src/runnerd_main.cpp:720-801 | one expired deadline equals the machine's; unknown and QUEUED jobs cannot have one; the internal error occurs exactly if the child cannot be waited for |
| Daemon.Daemon.HandleAllExpired | src/runnerd_main.cpp:720-801 | the loop over expired deadlines equals the machine's |
| Daemon.Daemon.HandleDeadlineEvent | src/runnerd_main.cpp:707-802 | a timer event up to the notifications equals the machine's |
| Daemon.Daemon.Submit | src/runnerd_main.cpp:599-640 | a new id is free in table, queue and slots, so insertion and enqueueing cannot fail |
| Daemon.Daemon.HandleSubmit | src/runnerd_main.cpp:593-647 | decoding, validation and submission give exactly the specified answer |
| Daemon.Daemon.HandleRequest | src/runnerd_main.cpp:547-648 | the state and the answer are exactly those specified; every response fits a frame; a request never ends the daemon |
| Daemon.Daemon.HandlePipe | src/runnerd_main.cpp:910-920 | a pipe event equals the machine's |
| Daemon.Daemon.HandleSigchld | src/runnerd_main.cpp:910-920 | SIGCHLD equals the machine's |
| Daemon.Daemon.HandleTimer | src/runnerd_main.cpp:893-908 | a timer event equals the machine's, including the end of the daemon on an error |
| Daemon.Daemon.Handle | src/runnerd_main.cpp:884-977 | any event takes a valid daemon to a valid daemon in the machine's next state |
| Daemon.Serve | src/runnerd_main.cpp:872-978 | after any events the objects are in exactly the state of `Run` |
| Wire.ValueOfBigEndian | src/protocol.cpp:25-58 | reading inverts writing of big-endian numbers of any width |
| Wire.BigEndianOfValue | src/protocol.cpp:25-58 | writing inverts reading |
| Wire.AppendJobId | src/protocol.cpp:51-58 | the shift loop writes the big-endian bytes |
| Wire.ReadJobId | src/protocol.cpp:212-218 | the shift-and-or loop reads them without overflow |
| Decimal.NumberOfDigits | src/runnerd_main.cpp:609 | a printed number denotes itself |
| Decimal.DigitsOfNumber | src/runnerctl_main.cpp:87-119 | a digit string is the printed form of its number exactly if it has no superfluous leading zero |
| Decimal.ParsePositive | src/runnerd_main.cpp:48-81 | accepts exactly the digit strings with value in 1..maximum, returns the value without overflow, and gives each refusal its exact reason |
| Decimal.ParseJobId | src/runnerctl_main.cpp:87-119 | exactly the texts of 1..2^64-1 |
| Decimal.ParsePositiveTimeout | src/runnerctl_main.cpp:49-85 | exactly the texts of 1..2^32-1 |
| Decimal.ParseSubmitSuccessResponse | src/runnerctl_main.cpp:347-381 | exactly "OK " followed by the text of a valid id |
| Decimal.SubmitResponseRoundTrip | src/runnerctl_main.cpp:347-381 | what the daemon prints for an id the client reads back, for all ids |
| Frames.EncodeFrame | src/protocol.cpp:280-295 | length prefix and payload, refused above 65536 bytes |
| Frames.ParseOfStream | src/protocol.cpp:280-383 | parsing a concatenation of frames gives the payloads, whatever follows |
| Frames.StreamOfParse | src/protocol.cpp:337-366 | the parsed frames and the rest give the stream back |
| Frames.ParseExtends | src/protocol.cpp:297-335 | more input only adds frames; an oversized header stays where it is |
| Frames.FrameDecoder.Refines | src/protocol.cpp:297-366 | frames taken so far followed by the parse of the buffer are the parse of all bytes fed |
| Frames.FrameDecoder.Feed | src/protocol.cpp:297-335 | appends the data, or stops with the header when a completed length field is too large |
| Frames.FrameDecoder.HasFrame | src/protocol.cpp:337-346 | true exactly if a complete frame is at the front; an oversized header is an error |
| Frames.FrameDecoder.PopFrame | src/protocol.cpp:348-366 | removes exactly the first frame and returns its payload |
| Frames.FrameDecoder.PopAll | src/runnerd_main.cpp:665-675 | takes out exactly the complete frames of the buffer |
| Frames.DecodeChunks | src/runnerctl_main.cpp:313-341 | for every cutting into chunks: the frames of the whole stream, and an error exactly if it declares an oversized frame; any cutting of encoded frames yields the original payloads |
| Protocol.CommandsAreDisjoint | src/protocol.cpp:62-65 | no payload belongs to two commands |
| Protocol.MeasureArguments | src/protocol.cpp:88-109 | the subtraction-only loop computes 14 plus the sum of 4 + length, and refuses exactly above 65536 |
| Protocol.EncodeSubmitRequest | src/protocol.cpp:67-127 | succeeds exactly for valid specifications with a 32-bit timeout and a size up to 65536 |
| Protocol.ArgumentsLength | src/protocol.cpp:88-109 | the computed size is the size of the bytes written |
| Protocol.ReadUint32 | src/protocol.cpp:35-47 | the number at the offset, or truncation; no underflow |
| Protocol.DecodeArguments | src/protocol.cpp:159-177 | the offset loop equals the recursive reader, error for error |
| Protocol.DecodeSubmitRequest | src/protocol.cpp:129-182 | equals the recursive meaning of a payload on every input |
| Protocol.SubmitIsBijective | src/protocol.cpp:67-182 | a payload decodes to a specification exactly if it is that specification's payload and fits a frame |
| Protocol.SubmitRoundTrip | src/protocol.cpp:67-182 | decode after encode and encode after decode are identities on their domains |
| Protocol.IdIsBijective | src/protocol.cpp:184-278 | STATUS and CANCEL payloads and the ids 1..2^64-1 correspond one to one |
| Protocol.EncodeIdRequest | src/protocol.cpp:189-201 | the payload of an id; zero is refused |
| Protocol.DecodeIdRequest | src/protocol.cpp:203-225 | the id of a payload, or the exact reason for refusal |
| Listing.SortingIsUnique | src/runnerd_main.cpp:443-451 | a set of ids has one ascending order, so the table's iteration order does not show |
| Listing.SortedIds | src/runnerd_main.cpp:443-451 | the keys in ascending order, from any iteration order |
| Listing.ListJobs | src/runnerd_main.cpp:453-468 | the full text if it fits 65536 bytes and the error exactly if not; the remaining-space subtraction never underflows |
| Listing.MakeListResponse | src/runnerd_main.cpp:442-469 | every job once in ascending order, all or nothing; what its words mean is `Words.ListIsTruthful` |
| Listing.ListingIsReadable | src/runnerd_main.cpp:455-458 | two tables with the same listing have the same jobs in the same states; the words themselves are fixed by `Words.LineMeans` and `Words.NameTells` |
| Words.NameTells | src/job.cpp:7-29 | the word for a state, as written, against queue, live process, cause, result and withdrawal |
| Words.LineMeans | src/runnerd_main.cpp:453-468 | a line of the literal form "id=<j> state=<word>" is in the listing exactly if the job is there with that word |
| Words.ListIsTruthful | src/runnerd_main.cpp:442-469 | in every run: the answer to LIST is "OK" and one line for each job in ascending order, with exactly the word for where the job is, or the error exactly if that exceeds 65536 bytes |
| Words.StatusIsTruthful | src/runnerd_main.cpp:396-440 | in every run: the answer to STATUS names the job, the word for where it is, and exactly the numbers it has |
| Words.WordsTellNumbers | src/runnerd_main.cpp:398-429 | timeout_ms, pid, exit_code, exit_signal, stdout_bytes and stderr_bytes are there exactly if the record has them, with its value |
| Words.CancelIsAnswered | src/runnerd_main.cpp:472-545 | the answers to CANCEL for every job without a running child, word for word, and what changes |
| Words.SubmitIsAnswered | src/runnerd_main.cpp:593-640 | the answer to SUBMIT of a valid job is "OK" and the next id, under which the job is entered |
| Words.InvalidJobIsAnswered | src/job.cpp:80-107 | the answer to SUBMIT of an invalid job names the first rule broken, word for word |
| Words.MalformedIsAnswered | src/protocol.cpp:203-278 | the answers to STATUS and CANCEL of a wrong size or the id zero, word for word |
| Words.UnknownIsAnswered | src/runnerd_main.cpp:587-591 | whatever is no command is answered as such and changes nothing |
| Words.PingIsAnswered | src/runnerd_main.cpp:551-554 | PING and PONG, byte for byte |
| Words.SubmitLayout | src/protocol.cpp:108-126 | a SUBMIT request byte for byte: the word, timeout, number of arguments, and each argument at its place with its length in front |
| Words.IdIsAsked | src/protocol.cpp:189-250 | STATUS and CANCEL requests: the word and the big-endian id |
| Words.EightBytes | src/protocol.cpp:51-58 | the eight bytes of an id, the most significant first |
| Words.FrameLayout | src/protocol.cpp:280-295 | a frame byte for byte |
| Requests.ClientAndDaemonAgree | src/runnerctl_main.cpp:273-288 | the daemon takes a payload for a command exactly if the client writes it for that command |
| Requests.AnswerFits | src/runnerd_main.cpp:668-671 | every response fits a frame, so encoding a response never throws |
| Answers.NaturalExitWins | src/process_monitor.cpp:368-387 | a termination request either settles a finished job by its own result without a signal, or the job is not finished after its pipes were read; which answers make it finished is `Reactions.FinishedIsNotSignalled` |
| Answers.AcceptedIsKept | src/runnerd_main.cpp:483-532 | an accepted CANCEL leaves the job TERMINATING or CANCELLED for the rest of the run |
| Answers.AcceptedCancelIsFinal | src/runnerd_main.cpp:483-532 | a job whose CANCEL was accepted ends CANCELLED or not at all |
| Answers.CancelIsAcceptedOnce | src/runnerd_main.cpp:534-542 | every later CANCEL of it is refused and changes nothing |
| Answers.AcceptedSubmitIsKept | src/runnerd_main.cpp:599-640 | the answered id is new and names a job with that specification for the rest of the run |
| Connection.Connection.HandleClientWrite | src/runnerd_main.cpp:301-330 | bytes sent plus bytes unsent stay the frames of the responses under any partial writes |
| Connection.Connection.Respond | src/runnerd_main.cpp:666-674 | one request, one answer, one frame at the end of the buffer |
| Connection.Connection.AnswerAll | src/runnerd_main.cpp:665-675 | every complete request is answered, in order, each in the state left by the one before |
| Connection.Connection.HandleClientRead | src/runnerd_main.cpp:653-696 | for any fragmentation: the requests answered are all complete frames received, the responses their answers in order, and sent plus unsent bytes the frames of those |
| Connection.Converse | src/runnerd_main.cpp:930-976 | the same over the whole life of a connection, with any other events of the daemon in between, each answer in the state its request met |
| PidReuse.ExitsAreFound | src/process_monitor.cpp:604-624 | a live job not started with the id of an unsettled one: its exit is recorded exactly if it was handed out, and until then it is found through the index; it has the id to itself unless that is reused |
| PidReuse.NeverLost | src/process_monitor.cpp:771-783 | in every run, only a job started with the id of an unsettled job is ever lost |
| PidReuse.OrphanIff | src/process_monitor.cpp:328-339 | a child cannot be waited for exactly if its exit is not recorded and the exits of all live jobs with its id were handed out |
| PidReuse.StoppingRaisesIff | src/process_monitor.cpp:335-339 | stopping a job raises the internal error exactly then; CANCEL then changes no job, a deadline ends the daemon |
| PidReuse.CollisionIff | src/process_monitor.cpp:274-288 | a launched child that epoll accepts is given up exactly if its id is in the index; the entry of a live job goes with it |
| PidReuse.OnlySharersAreLost | src/process_monitor.cpp:771-783 | a live job that can be lost in some later run was started with the id of an unsettled job |
| PidReuse.SharersCanBeLost | src/process_monitor.cpp:771-783 | every such job whose child is still to be waited for can be lost: some kernel answers and events do it without sharing another id |
| PidReuse.FirstLossIff | src/process_monitor.cpp:275-279 | as long as nothing is lost, being started with an unsettled job's id is exactly being able to get lost in some later run |
| PidReuse.LossIff | src/process_monitor.cpp:275-279 | the same stated on the history of any run |
| LostChild.LostJobEndsDaemon | src/runnerd_main.cpp:720-782 | among any expired deadlines, that of a lost job ends the daemon |
| LostChild.LostDeadlineIsFatal | src/runnerd_main.cpp:893-908 | once the deadline of a lost job has passed, the next timer event ends the daemon |
| LostChild.IdIsReused | src/process_monitor.cpp:241-291 | a run in which a rollback erases an entry and a later start takes over the id of an unsettled job |
| LostChild.WrongGroup | src/process_monitor.cpp:412-415 | its continuation in which CANCEL of one job signals the group of another |
| LostChild.ForeignGroup | src/process_monitor.cpp:309-413 | a run in which CANCEL signals a group that is not the daemon's, answers that the job is terminating and sets the deadline for SIGKILL, although no id was reused among jobs |
| LostChild.ChildIsLost | src/process_monitor.cpp:604-624 | its continuation in which a child's exit is ignored and its job keeps the slot |
| Wakeups.WakeUpIff | src/runnerd_main.cpp:893-921 | the daemon can be woken exactly if a process can be heard of, the timer is set or a SIGCHLD is pending; without shared ids, exactly if a process is live, or one of the other two |
| Wakeups.NoClientCanHelp | src/runnerd_main.cpp:941-944 | no sequence of SUBMIT and CANCEL takes a job from the queue of a sleeping daemon, nor wakes it |
| Wakeups.SleepIsForEver | src/runnerd_main.cpp:941-944 | in every run, a daemon that sleeps while jobs wait has all slots occupied and starts none of them, whatever clients ask |
| Wakeups.CancelSleepsIff | src/process_monitor.cpp:351-370 | CANCEL puts the daemon to sleep exactly if its job, already reported as exited, owns every open pipe, no child, timer or SIGCHLD is left, and the job settles in the call |
| Wakeups.MaySleepIff | src/process_monitor.cpp:351-370 | the pre-state form: some kernel answers let a CANCEL put a waking daemon to sleep exactly if the job is its last hope |
| Wakeups.OnlyCancelSleeps | src/runnerd_main.cpp:893-944 | in every run, any other event leaves a waking undegraded daemon with a queue awake, unless all live jobs are lost |
| Wakeups.LastHopeIsAlone | src/runnerd_main.cpp:500-532 | without shared ids that job is the only live process and there is no deadline |
| StuckRun.QueueIsStuck | src/runnerd_main.cpp:941-944 | a run with one slot that ends with a job waiting, a succeeded job holding the slot, and nothing to wake the daemon |
| Endings.ExpireCounts | src/runnerd_main.cpp:720-802 | handling expired deadlines ends the daemon exactly if a signal was refused or a lost job's turn came |
| Endings.TimerEndsIff | src/runnerd_main.cpp:893-908 | a timer event ends the daemon exactly for these reasons, a refused timer at the event, or one for a job just started |
| Endings.EndsIff | src/runnerd_main.cpp:872-981 | an event ends a living daemon for one of these reasons and for no other; a client never does |
| Endings.DegradedIff | src/runnerd_main.cpp:243-247 | in every run, the daemon is degraded exactly if an execution deadline was refused |
| RefusedTimer.SubmitLeavesTimerUnset | src/runnerd_main.cpp:243-247 | a run in which SUBMIT loses its connection while its job runs with no timer set |
| RefusedTimer.MonitorEventEnds | src/runnerd_main.cpp:910-920 | a run in which the same refusal ends the daemon |

## Left out

- `fork`, `execve`, pipes, sockets, epoll, signalfd and timerfd mechanics: a launch fails or yields fresh ids; events are arbitrary inputs, so spurious and stale ones are included.
- Errors the source does not handle (unexpected errno values, allocation failure) and the SIGKILL of a child that never became RUNNING, which is part of the rollback and not in the log.
- 64-bit overflow of the nanosecond clock: times are unbounded; timeouts are at most 2^32-1 milliseconds on the wire.
- Wait statuses other than exited and signalled: the waits used cannot report them.
- EINTR in `timerfd_settime` and the reads that empty the timer and signal descriptors.
- Daemon.Daemon.CancelJob: the answer to a refused SIGTERM lacks the system's error text, which is not modelled.
- Daemon.Daemon.HandleRequest: a job records only whether it has a failure message, so STATUS shows the field without its text; the same holds for the text after a refused SIGTERM.
- Accepting and closing connections, half-closed sockets and event masks; `Connection` models the buffers of one connection, and what follows an exception on it is only that the daemon stays valid.
- Command-line options, usage text, logging and client-side printing.
- Restart recovery and persistence, which the program does not implement.
