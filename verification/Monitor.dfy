/** Child processes: what each `ProcessMonitor` operation does to the job table, the process
    table, the queue of terminal notifications and the kernel (src/process_monitor.cpp). */
module MonitorSpec {
  import opened Jobs
  import opened Kernel

  /** The read end of one pipe; `fd` is -1 once the pipe is closed. */
  datatype End = End(fd: Fd, eof: bool, bytes: Bytes)

  datatype Proc = Proc(pid: Pid, out: End, err: End, startup: End, exited: bool, status: WaitStatus) {
    function At(k: Kind): End {
      match k case Stdout => out case Stderr => err case StartupError => startup
    }
    function Set(k: Kind, e: End): Proc {
      match k
      case Stdout => this.(out := e)
      case Stderr => this.(err := e)
      case StartupError => this.(startup := e)
    }
  }

  /** The part of the daemon that the process monitor reads and writes. */
  datatype Mon = Mon(jobs: map<JobId, Job>, procs: map<JobId, Proc>, byPid: map<Pid, JobId>, pending: seq<JobId>, os: Os)

  /** How an attempt to signal a job ends: sent; no longer needed or no such group; refused by the
      kernel; or given up because the child's exit went unrecorded. */
  datatype Ending = Delivered | Vanished | Rejected | Missing {
    predicate Raised() {
      Rejected? || Missing?
    }
  }

  function EndingOf(a: KillAnswer): Ending {
    match a case Sent => Delivered case Denied => Rejected case _ => Vanished
  }

  predicate Complete(p: Proc) {
    p.exited && p.out.eof && p.err.eof && p.startup.eof
  }

  // ----- starting -----

  function NewProc(a: Launch): Proc
    requires a.Launched?
  {
    Proc(a.pid, End(a.out, false, []), End(a.err, false, []), End(a.startup, false, []), false, Exited(0))
  }

  /** The three registrations are attempted in order; the first refusal stops them. */
  function WatchAll(os: Os, n: nat): (r: (Os, bool))
    decreases n
  {
    if n == 0 then (os, true)
    else if !NextWatch(os) then (Watch(os), false)
    else WatchAll(Watch(os), n - 1)
  }

  function FailStart(mon: Mon, j: JobId): Mon
    requires j in mon.jobs
  {
    mon.(jobs := mon.jobs[j := mon.jobs[j].(state := Failed, failed := true)],
         os := Note(mon.os, Settled(j)))
  }

  /** The child exists and its id is in the job record. */
  function Forked(mon: Mon, j: JobId, a: Launch): Mon
    requires j in mon.jobs && a.Launched?
  {
    mon.(jobs := mon.jobs[j := mon.jobs[j].(pid := Some(a.pid))], os := Spawn(mon.os, j, a))
  }

  /** Registration failed: close the pipes, kill and reap the child, and erase whatever the index has under its id. */
  function Abandon(mon: Mon, a: Launch): (r: Mon)
    requires a.Launched?
    ensures r.jobs == mon.jobs
  {
    mon.(byPid := mon.byPid - {a.pid}, os := KillAndReap(Close(Close(Close(mon.os, a.out), a.err), a.startup), a.pid))
  }

  function Up(mon: Mon, j: JobId, a: Launch): Mon
    requires j in mon.jobs && a.Launched?
  {
    var os := Tick(mon.os);
    mon.(jobs := mon.jobs[j := mon.jobs[j].(state := Running)],
         procs := mon.procs[j := NewProc(a)],
         byPid := mon.byPid[a.pid := j],
         os := Note(os, Started(j, a.pid, mon.jobs[j].spec.timeout, os.now)))
  }

  function Start(mon: Mon, j: JobId): (r: Mon)
    requires j in mon.jobs
    ensures j in r.jobs && r.pending == mon.pending
  {
    var a := NextLaunch(mon.os);
    if a.LaunchFailed? then FailStart(mon.(os := Spawn(mon.os, j, a)), j)
    else if a.pid in mon.byPid then FailStart(Abandon(Forked(mon, j, a), a), j)
    else Monitored(Forked(mon, j, a), j, a)
  }

  function Monitored(mon: Mon, j: JobId, a: Launch): Mon
    requires j in mon.jobs && a.Launched?
  {
    var (os, ok) := WatchAll(mon.os, 3);
    if ok then Up(mon.(os := os), j, a) else FailStart(Abandon(mon.(os := os), a), j)
  }

  // ----- draining and settling -----

  function PutEnd(mon: Mon, j: JobId, k: Kind, e: End): Mon
    requires j in mon.procs
  {
    mon.(procs := mon.procs[j := mon.procs[j].Set(k, e)])
  }

  /** One `read` on a pipe: data is appended, the end closes the descriptor. */
  function DrainOnce(mon: Mon, j: JobId, k: Kind): (r: Mon)
    requires j in mon.procs
    ensures r.procs.Keys == mon.procs.Keys
    ensures mon.os.inputs != [] ==> |r.os.inputs| < |mon.os.inputs|
  {
    var e, a := mon.procs[j].At(k), NextRead(mon.os);
    var os := Read(mon.os, e.fd);
    PutEnd(mon.(os := if a.EndOfFile? then Close(os, e.fd) else os), j, k, NextEnd(e, a))
  }

  function NextEnd(e: End, a: ReadAnswer): End {
    match a
    case Data(b) => e.(bytes := e.bytes + b)
    case EndOfFile => e.(fd := -1, eof := true)
    case _ => e
  }

  /** Read one pipe until it would block or ends. */
  function Drain(mon: Mon, j: JobId, k: Kind): (r: Mon)
    requires j in mon.procs
    ensures r.procs.Keys == mon.procs.Keys
    decreases |mon.os.inputs|
  {
    var a := NextRead(mon.os);
    var next := DrainOnce(mon, j, k);
    if a.Data? || a.ReadInterrupted? then Drain(next, j, k) else next
  }

  function DrainOpen(mon: Mon, j: JobId, k: Kind): (r: Mon)
    requires j in mon.procs
    ensures r.procs.Keys == mon.procs.Keys
  {
    if mon.procs[j].At(k).fd == -1 then mon else Drain(mon, j, k)
  }

  /** The terminal record of a job whose child is gone and whose pipes have ended. */
  function Result(job: Job, p: Proc): Job {
    var job := job.(stdout := p.out.bytes, stderr := p.err.bytes);
    if job.state.Terminating? then
      var job := match p.status
        case Exited(code) => job.(exitCode := Some(code))
        case Signaled(signal) => job.(exitSignal := Some(signal));
      job.(state := if job.cause == Some(CauseTimedOut) then TimedOut else Cancelled)
    else if p.startup.bytes == [] then
      match p.status
      case Exited(code) =>
        if code == 0 then job.(exitCode := Some(code), state := Succeeded)
        else job.(exitCode := Some(code), state := Failed, failed := true)
      case Signaled(signal) => job.(exitSignal := Some(signal), state := Failed, failed := true)
    else job.(state := Failed, failed := true)
  }

  function TryFinalize(mon: Mon, j: JobId): Mon {
    if j !in mon.procs || !Complete(mon.procs[j]) || j !in mon.jobs then mon else
      mon.(jobs := mon.jobs[j := Result(mon.jobs[j], mon.procs[j])],
           procs := mon.procs - {j},
           byPid := mon.byPid - {mon.procs[j].pid},
           pending := mon.pending + [j],
           os := Note(mon.os, Settled(j)))
  }

  function PipeEvent(mon: Mon, fd: Fd): Mon {
    if fd !in mon.os.files.open then mon else
      var p := mon.os.files.open[fd];
      if p.job !in mon.procs then mon else
        TryFinalize(Drain(mon, p.job, p.kind), p.job)
  }

  function SetExited(mon: Mon, j: JobId, status: WaitStatus): Mon
    requires j in mon.procs
  {
    mon.(procs := mon.procs[j := mon.procs[j].(exited := true, status := status)])
  }

  /** One `waitpid(-1, WNOHANG)`; an exit whose process id is not in the index is ignored. */
  function ReapOnce(mon: Mon): (r: Mon)
    ensures mon.os.reaps != [] ==> |r.os.reaps| < |mon.os.reaps|
  {
    var a := NextReap(mon.os);
    var next := mon.(os := Reap(mon.os));
    if a.Child? && a.pid in mon.byPid && mon.byPid[a.pid] in mon.procs then
      var j := mon.byPid[a.pid];
      TryFinalize(SetExited(next, j, a.status), j)
    else next
  }

  /** Collect every child the kernel reports as exited. */
  function ReapAll(mon: Mon): Mon
    decreases |mon.os.reaps|
  {
    if NextReap(mon.os).NoneReady? then ReapOnce(mon) else ReapAll(ReapOnce(mon))
  }

  // ----- signals -----

  /** The child's exit was never recorded, and the kernel knows no child of that id any more. */
  predicate Orphaned(mon: Mon, j: JobId) {
    j in mon.procs && !mon.procs[j].exited && mon.procs[j].pid !in mon.os.children
  }

  function PollExit(mon: Mon, j: JobId): (r: Mon)
    requires j in mon.procs
    ensures r.procs.Keys == mon.procs.Keys
    decreases |mon.os.polls|
  {
    if mon.procs[j].exited then mon else
      var pid := mon.procs[j].pid;
      var a := NextPoll(mon.os, pid);
      var next := mon.(os := Poll(mon.os, pid));
      match a
      case PollInterrupted => PollExit(next, j)
      case Gone(status) => SetExited(next, j, status)
      case _ => next
  }

  function FinishExited(mon: Mon, j: JobId): Mon
    requires j in mon.procs
  {
    var mon := PollExit(mon, j);
    if !mon.procs[j].exited then mon else
      TryFinalize(DrainOpen(DrainOpen(DrainOpen(mon, j, Stdout), j, Stderr), j, StartupError), j)
  }

  function KillGroup(os: Os, pid: Pid, j: JobId, signal: Signal, reason: Reason): (r: (Os, KillAnswer))
    ensures !r.1.KillInterrupted?
    decreases |os.kills|
  {
    var a := NextKill(os);
    var next := KillOnce(os, pid, j, signal, reason);
    if a.KillInterrupted? then KillGroup(next, pid, j, signal, reason) else (next, a)
  }

  function ReasonOf(cause: Cause): Reason {
    match cause case CauseCancelled => OnCancel case CauseTimedOut => OnTimeout
  }

  function SendTerm(mon: Mon, j: JobId, cause: Cause): (r: (Mon, Ending))
    requires j in mon.jobs && j in mon.procs
  {
    var (os, a) := KillGroup(mon.os, mon.procs[j].pid, j, SigTerm, ReasonOf(cause));
    var mon := mon.(os := os);
    (if a.Sent? then mon.(jobs := mon.jobs[j := mon.jobs[j].(state := Terminating, cause := Some(cause))]) else mon, EndingOf(a))
  }

  function SendKill(mon: Mon, j: JobId, reason: Reason): (r: (Mon, Ending))
    requires j in mon.procs
  {
    var (os, a) := KillGroup(mon.os, mon.procs[j].pid, j, SigKill, reason);
    (mon.(os := os), EndingOf(a))
  }

  /** `Vanished` also stands for a job that settled before any signal was sent. */
  function RequestTerminate(mon: Mon, j: JobId, cause: Cause): (r: (Mon, Ending)) {
    if j !in mon.procs then (mon, Vanished)
    else if Orphaned(mon, j) then (PollExit(mon, j), Missing)
    else
      var mon := FinishExited(mon, j);
      if j !in mon.procs || j !in mon.jobs then (mon, Vanished) else SendTerm(mon, j, cause)
  }

  function ForceKill(mon: Mon, j: JobId, reason: Reason): (r: (Mon, Ending)) {
    if j !in mon.procs then (mon, Vanished)
    else if Orphaned(mon, j) then (PollExit(mon, j), Missing)
    else
      var mon := FinishExited(mon, j);
      if j !in mon.procs then (mon, Vanished) else SendKill(mon, j, reason)
  }
}
