/** The operating system as the daemon sees it.

    Every system call the daemon makes takes its answer from a finite stream of
    answers fixed in advance.  An exhausted stream gives the quiet answer (no
    data, no exited child, signal sent, launch refused), and an answer that no
    kernel can give (a descriptor that is open already, a process id in use, a
    child that does not exist) is replaced by a refusal.  A statement about all
    streams is therefore a statement about every behaviour of the kernel.

    Beside the answers the kernel keeps its own books: which descriptors are open
    and which pipe each one reads, the bytes every pipe delivered, the children
    not yet waited for, whose launch made the process group of each id, whether a
    SIGCHLD waits to be read, the clock and the timer, and a log of what happened. */
module Kernel {
  import opened Jobs

  type Pid = int
  type Fd = int
  /** Nanoseconds of the monotonic clock. */
  type Time = nat

  const NS_PER_MS: nat := 1_000_000
  const GRACE_MS: nat := 1000

  datatype Kind = Stdout | Stderr | StartupError

  /** A pipe, named by the job it was opened for, its role, and the process group that writes to it. */
  datatype Pipe = Pipe(job: JobId, kind: Kind, pid: Pid)

  datatype WaitStatus = Exited(code: nat) | Signaled(signal: nat)

  /** A failed launch may leave a SIGCHLD behind: a child that was forked and then killed and reaped. */
  datatype Launch = LaunchFailed(forked: bool) | Launched(pid: Pid, out: Fd, err: Fd, startup: Fd)
  datatype ReadAnswer = Data(bytes: Bytes) | EndOfFile | ReadInterrupted | WouldBlock
  datatype PollAnswer = PollInterrupted | StillRunning | Gone(status: WaitStatus) | NoChild
  datatype ReapAnswer = ReapInterrupted | NoneReady | Child(pid: Pid, status: WaitStatus)
  datatype KillAnswer = KillInterrupted | Sent | NoGroup | Denied

  datatype Signal = SigTerm | SigKill
  datatype Reason = OnCancel | OnTimeout | OnGrace | OnFallback

  /** Whose process group a signal reaches: that of the job launched last under the id, or one that is not ours. */
  datatype Owner = Own(job: JobId) | Foreign

  datatype Record =
    | Submitted(job: JobId)
    | Withdrawn(job: JobId)
    | Taken(job: JobId)
    | Started(job: JobId, pid: Pid, timeout: Option<int>, at: Time)
    | Reaped(job: JobId, status: WaitStatus)   // the exit status of the job's child was handed out
    | Signalled(job: JobId, signal: Signal, reason: Reason, answer: KillAnswer, target: Owner, at: Time)
    | Refused(job: JobId)      // a deadline for the job could not be set
    | Settled(job: JobId)
    | Released(job: JobId)

  /** The log grows at its end: `Then(earlier, last)`. */
  datatype Log = Empty | Then(earlier: Log, last: Record)

  /** When the one-shot timer becomes readable, and when it was set. */
  datatype Timer = Disarmed | Armed(fireAt: Time, setAt: Time)

  /** The open descriptors, everything each pipe ever delivered, and the pipes read to their end. */
  datatype Files = Files(open: map<Fd, Pipe>, delivered: map<Pipe, Bytes>, ended: set<Pipe>)

  datatype Os = Os(
    ticks: seq<nat>,
    launches: seq<Launch>,
    watches: seq<bool>,
    inputs: seq<ReadAnswer>,
    polls: seq<PollAnswer>,
    reaps: seq<ReapAnswer>,
    kills: seq<KillAnswer>,
    arms: seq<bool>,
    late: seq<bool>,
    extinct: seq<bool>,
    now: Time,
    timer: Timer,
    children: map<Pid, JobId>,
    groups: map<Pid, JobId>,
    sigchld: bool,
    files: Files,
    log: Log)

  function Rest<T>(s: seq<T>): (r: seq<T>)
    ensures s != [] ==> |r| < |s|
  {
    if s == [] then [] else s[1..]
  }

  function Note(os: Os, r: Record): Os {
    os.(log := Then(os.log, r))
  }

  /** Time passes between two observations of the clock. */
  function Tick(os: Os): (r: Os)
    ensures os.now <= r.now
  {
    os.(now := os.now + (if os.ticks == [] then 0 else os.ticks[0]), ticks := Rest(os.ticks))
  }

  /** What `fork` can return: unused descriptors, and a process id that no child still to be waited for has. */
  predicate CanSpawn(os: Os, a: Launch) {
    && a.Launched?
    && 0 < a.pid && a.pid !in os.children
    && 0 <= a.out && 0 <= a.err && 0 <= a.startup
    && a.out != a.err && a.out != a.startup && a.err != a.startup
    && a.out !in os.files.open && a.err !in os.files.open && a.startup !in os.files.open
  }

  function NextLaunch(os: Os): (a: Launch)
    ensures a.Launched? ==> CanSpawn(os, a)
  {
    if os.launches != [] && CanSpawn(os, os.launches[0]) then os.launches[0]
    else if os.launches != [] && os.launches[0].LaunchFailed? then os.launches[0]
    else LaunchFailed(false)
  }

  function Spawn(os: Os, job: JobId, a: Launch): Os {
    var os := Tick(os.(launches := Rest(os.launches)));
    if a.LaunchFailed? then os.(sigchld := os.sigchld || a.forked) else
      os.(children := os.children[a.pid := job], groups := os.groups[a.pid := job], files := OpenPipes(os.files, job, a))
  }

  function OpenPipes(files: Files, job: JobId, a: Launch): Files
    requires a.Launched?
  {
    var out, err, startup := Pipe(job, Stdout, a.pid), Pipe(job, Stderr, a.pid), Pipe(job, StartupError, a.pid);
    Files(files.open[a.out := out][a.err := err][a.startup := startup],
          files.delivered[out := []][err := []][startup := []],
          files.ended - {out, err, startup})
  }

  function NextWatch(os: Os): bool {
    os.watches == [] || os.watches[0]
  }

  /** `epoll_ctl(EPOLL_CTL_ADD)`. */
  function Watch(os: Os): Os {
    os.(watches := Rest(os.watches))
  }

  function Close(os: Os, fd: Fd): Os {
    os.(files := os.files.(open := os.files.open - {fd}))
  }

  /** SIGKILL to the group followed by a blocking wait for the child; the group is gone, and a SIGCHLD is left behind. */
  function KillAndReap(os: Os, pid: Pid): Os {
    os.(children := os.children - {pid}, groups := os.groups - {pid}, sigchld := true)
  }

  function NextRead(os: Os): (a: ReadAnswer)
    ensures os.inputs == [] ==> a.WouldBlock?
  {
    if os.inputs == [] then WouldBlock else os.inputs[0]
  }

  /** The kernel's side of a `read`: it is the kernel that knows which pipe the descriptor names. */
  function Read(os: Os, fd: Fd): (r: Os)
    ensures os.inputs != [] ==> |r.inputs| < |os.inputs|
  {
    os.(inputs := Rest(os.inputs), files := ReadFile(os.files, fd, NextRead(os)))
  }

  function ReadFile(files: Files, fd: Fd, a: ReadAnswer): Files {
    if fd !in files.open then files else
      var p := files.open[fd];
      match a
      case Data(b) => files.(delivered := files.delivered[p := (if p in files.delivered then files.delivered[p] else []) + b])
      case EndOfFile => files.(ended := files.ended + {p})
      case _ => files
  }

  /** `waitpid(pid, WNOHANG)`. */
  function NextPoll(os: Os, pid: Pid): (a: PollAnswer)
    ensures a.PollInterrupted? ==> os.polls != []
    ensures a.NoChild? <==> pid !in os.children
  {
    if pid !in os.children then NoChild
    else if os.polls == [] || os.polls[0].NoChild? then StillRunning else os.polls[0]
  }

  function Poll(os: Os, pid: Pid): (r: Os)
    ensures os.polls != [] ==> |r.polls| < |os.polls|
  {
    var a := NextPoll(os, pid);
    var next := os.(polls := Rest(os.polls));
    if a.Gone? then HandOut(next, pid, a.status).(sigchld := true) else next
  }

  /** The exit status of a child goes to the daemon.  A child that exited since the daemon last emptied
      its signal descriptor has a SIGCHLD pending. */
  function HandOut(os: Os, pid: Pid, status: WaitStatus): Os
    requires pid in os.children
  {
    Note(os.(children := os.children - {pid}), Reaped(os.children[pid], status))
  }

  /** `waitpid(-1, WNOHANG)`. */
  function NextReap(os: Os): (a: ReapAnswer)
    ensures os.reaps == [] ==> a.NoneReady?
    ensures a.Child? ==> a.pid in os.children
  {
    if os.reaps == [] || (os.reaps[0].Child? && os.reaps[0].pid !in os.children) then NoneReady else os.reaps[0]
  }

  function Reap(os: Os): (r: Os)
    ensures os.reaps != [] ==> |r.reaps| < |os.reaps|
  {
    var a := NextReap(os);
    var next := os.(reaps := Rest(os.reaps));
    if a.Child? then HandOut(next, a.pid, a.status).(late := Rest(os.late), sigchld := os.sigchld || NextLate(os)) else next
  }

  /** Whether the child exited only after the signal descriptor was emptied. */
  function NextLate(os: Os): bool {
    os.late != [] && os.late[0]
  }

  /** The signal descriptor is read until it is empty. */
  function ReadSignals(os: Os): Os {
    os.(sigchld := false)
  }

  function NextKill(os: Os): (a: KillAnswer)
    ensures os.kills == [] ==> a.Sent?
  {
    if os.kills == [] then Sent else os.kills[0]
  }

  /** Once no child with the id is left to be waited for, its process group may have died out, and
      the id may be anybody's. */
  function Groups(os: Os, pid: Pid): map<Pid, JobId> {
    if pid !in os.children && os.extinct != [] && os.extinct[0] then os.groups - {pid} else os.groups
  }

  /** It is the kernel that knows whose process group has an id now. */
  function Target(groups: map<Pid, JobId>, pid: Pid): Owner {
    if pid in groups then Own(groups[pid]) else Foreign
  }

  /** One `kill(-pid, signal)`; job and reason are what the daemon had in mind. */
  function KillOnce(os: Os, pid: Pid, job: JobId, signal: Signal, reason: Reason): (r: Os)
    ensures os.kills != [] ==> |r.kills| < |os.kills|
  {
    var a := NextKill(os);
    var os := Tick(os.(kills := Rest(os.kills), extinct := Rest(os.extinct), groups := Groups(os, pid)));
    Note(os, Signalled(job, signal, reason, a, Target(os.groups, pid), os.now))
  }

  function NextArm(os: Os): bool {
    os.arms == [] || os.arms[0]
  }

  /** `timerfd_settime` with a relative time; a refused call leaves the timer as it was. */
  function SetTimer(os: Os, timer: Timer): Os {
    os.(arms := Rest(os.arms), timer := if NextArm(os) then timer else os.timer)
  }
}
