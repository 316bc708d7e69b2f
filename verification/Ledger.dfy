/** The log read as a protocol: what a log says happened to each job, and when the next
    record is allowed.  Nothing here looks at the daemon's own state. */
module Ledger {
  import opened Jobs
  import opened Kernel
  import opened Deadlines

  datatype Run = Run(pid: Pid, timeout: Option<int>, at: Time)

  datatype Ledger = Ledger(
    submitted: set<JobId>,
    withdrawn: set<JobId>,
    taken: set<JobId>,
    running: map<JobId, Run>,
    reaped: map<JobId, WaitStatus>, // the exit status of the job's child was handed out
    reused: set<JobId>,             // the process id was given to a later job before this one settled
    reusing: set<JobId>,            // the process id was that of an earlier job that had not settled
    expired: set<JobId>,            // a SIGTERM for a timeout was answered (sent or refused)
    terminated: map<JobId, Time>,   // time of the successful SIGTERM
    refused: set<JobId>,            // a deadline could not be set after the SIGTERM
    killed: set<JobId>,             // a SIGKILL was answered (sent or refused)
    settled: set<JobId>,
    released: set<JobId>)

  function Enter(l: Ledger, r: Record): Ledger {
    match r
    case Submitted(j) => l.(submitted := l.submitted + {j})
    case Withdrawn(j) => l.(withdrawn := l.withdrawn + {j})
    case Taken(j) => l.(taken := l.taken + {j})
    case Started(j, pid, timeout, at) =>
      l.(running := l.running[j := Run(pid, timeout, at)],
         reused := l.reused + Namesakes(l, pid),
         reusing := if Namesakes(l, pid) == {} then l.reusing else l.reusing + {j})
    case Reaped(j, status) => l.(reaped := l.reaped[j := status])
    case Signalled(j, SigTerm, reason, a, _, at) =>
      l.(expired := if reason.OnTimeout? && !a.KillInterrupted? then l.expired + {j} else l.expired,
         terminated := if a.Sent? then l.terminated[j := at] else l.terminated)
    case Signalled(j, SigKill, _, a, _, _) => if a.KillInterrupted? then l else l.(killed := l.killed + {j})
    case Refused(j) => if j in l.terminated then l.(refused := l.refused + {j}) else l
    case Settled(j) => l.(settled := l.settled + {j})
    case Released(j) => l.(released := l.released + {j})
  }

  /** The jobs not yet settled that were started with this process id. */
  function Namesakes(l: Ledger, pid: Pid): set<JobId> {
    set j | j in l.running && j !in l.settled && l.running[j].pid == pid
  }

  function Of(log: Log): Ledger {
    match log
    case Empty => Ledger({}, {}, {}, map[], map[], {}, {}, {}, map[], {}, {}, {}, {})
    case Then(earlier, last) => Enter(Of(earlier), last)
  }

  /** A signal that was sent reached the job's own group as long as its child was not waited for.  Later, a
      group of ours that it reached has the job's process id, and is its own exactly if no later job was
      started with that id. */
  predicate Aimed(l: Ledger, j: JobId, a: KillAnswer, target: Owner)
    requires j in l.running
  {
    a.Sent? ==>
      && (j !in l.reaped ==> target == Own(j))
      && (target.Own? ==>
            && target.job in l.running && l.running[target.job].pid == l.running[j].pid && j <= target.job
            && (target.job == j <==> j !in l.reused))
  }

  /** The rules of the supervision protocol. */
  predicate Allowed(l: Ledger, r: Record) {
    match r
    case Submitted(j) => forall i | i in l.submitted :: i < j
    case Withdrawn(j) => j in l.submitted && j !in l.taken && j !in l.withdrawn
    case Taken(j) => j in l.submitted && j !in l.withdrawn && forall i | i in l.taken :: i < j
    case Started(j, _, _, _) => j in l.taken && j !in l.running && j !in l.settled && j !in l.reaped
    case Reaped(j, _) => j in l.running && j !in l.reaped
    case Signalled(j, SigTerm, reason, a, target, at) =>
      && j in l.running && j !in l.terminated && j !in l.settled
      && l.running[j].at <= at && Aimed(l, j, a, target)
      && (reason.OnCancel? || reason.OnTimeout?)
      && (reason.OnTimeout? ==>
            l.running[j].timeout.Some? && l.running[j].at + ToNs(l.running[j].timeout.value) <= at)
    case Signalled(j, SigKill, reason, a, target, at) =>
      && j in l.terminated && j !in l.killed && j !in l.settled
      && j in l.running && Aimed(l, j, a, target)
      && (reason.OnGrace? || reason.OnFallback?)
      && (reason.OnGrace? ==> l.terminated[j] + ToNs(GRACE_MS) <= at)
      && (reason.OnFallback? ==> j in l.refused)
    case Refused(j) => j in l.running
    case Settled(j) => j in l.taken && j !in l.settled
    case Released(j) => j in l.settled && j !in l.released
  }

  predicate Good(log: Log) {
    match log
    case Empty => true
    case Then(earlier, last) => Good(earlier) && Allowed(Of(earlier), last)
  }
}
