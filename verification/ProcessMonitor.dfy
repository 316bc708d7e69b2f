/** `ProcessMonitor` (src/process_monitor.cpp): the process table with its two indexes, by process
    id and by file descriptor, over the shared job table and the queue of notifications. */
module ProcessMonitor {
  import opened Jobs
  import opened Kernel
  import opened Exceptions
  import opened Host
  import opened MonitorSpec
  import opened MonitorInvariant

  class JobTable {
    var jobs: map<JobId, Job>

    constructor ()
      ensures jobs == map[]
    {
      jobs := map[];
    }
  }

  /** Where the terminal-job callback leaves its ids. */
  class Notifications {
    var queue: seq<JobId>

    constructor ()
      ensures queue == []
    {
      queue := [];
    }
  }

  datatype Tracked = Tracked(job: JobId, kind: Kind)

  /** `transitionJob`: refuses an illegal transition and then leaves the job as it was. */
  method Transition(job: Job, to: JobState) returns (r: Outcome, moved: Job)
    ensures r == if CanTransition(job.state, to) then Done else Threw(LogicError)
    ensures moved == if r.Done? then job.(state := to) else job
  {
    if !CanTransition(job.state, to) {
      return Threw(LogicError), job;
    }
    return Done, job.(state := to);
  }

  /** A descriptor is tracked as (job, kind) exactly if that job's field for that kind holds it. */
  ghost predicate FdsOk(procs: map<JobId, Proc>, fds: map<Fd, Tracked>) {
    && (forall fd | fd in fds :: fd != -1 && fds[fd].job in procs && procs[fds[fd].job].At(fds[fd].kind).fd == fd)
    && (forall j, k | j in procs && procs[j].At(k).fd != -1 :: procs[j].At(k).fd in fds && fds[procs[j].At(k).fd] == Tracked(j, k))
  }

  // ----- the indexes follow the process table -----

  lemma ClosedEnd(procs: map<JobId, Proc>, fds: map<Fd, Tracked>, j: JobId, k: Kind)
    requires FdsOk(procs, fds) && j in procs && procs[j].At(k).fd != -1
    ensures FdsOk(procs[j := procs[j].Set(k, procs[j].At(k).(fd := -1, eof := true))], fds - {procs[j].At(k).fd})
  {
    var b := procs[j := procs[j].Set(k, procs[j].At(k).(fd := -1, eof := true))];
    var rest := fds - {procs[j].At(k).fd};
    forall i, l | i in b && b[i].At(l).fd != -1
      ensures b[i].At(l).fd in rest && rest[b[i].At(l).fd] == Tracked(i, l)
    {
      assert i != j || l != k;
      assert b[i].At(l) == procs[i].At(l);
    }
    forall fd | fd in rest
      ensures fd != -1 && rest[fd].job in b && b[rest[fd].job].At(rest[fd].kind).fd == fd
    {
      assert rest[fd].job != j || rest[fd].kind != k;
      assert b[rest[fd].job].At(rest[fd].kind) == procs[rest[fd].job].At(rest[fd].kind);
    }
  }

  /** Descriptors do not depend on buffered bytes or on exit marks. */
  lemma SameFds(a: map<JobId, Proc>, b: map<JobId, Proc>, fds: map<Fd, Tracked>)
    requires FdsOk(a, fds) && a.Keys == b.Keys && forall j, k | j in a :: b[j].At(k).fd == a[j].At(k).fd
    ensures FdsOk(b, fds)
  {
  }

  lemma RemovedProc(procs: map<JobId, Proc>, fds: map<Fd, Tracked>, j: JobId)
    requires FdsOk(procs, fds) && j in procs && forall k :: procs[j].At(k).fd == -1
    ensures FdsOk(procs - {j}, fds)
  {
  }

  /** The descriptors of a new child are not tracked. */
  lemma NewFds(mon: Mon, fds: map<Fd, Tracked>, a: Launch)
    requires Core(mon) && FdsOk(mon.procs, fds) && CanSpawn(mon.os, a)
    ensures a.out !in fds && a.err !in fds && a.startup !in fds
  {
    forall fd | fd in fds
      ensures fd in mon.os.files.open
    {
      var t := fds[fd];
      assert EndOk(mon.os.files, mon.procs[t.job].At(t.kind), Pipe(t.job, t.kind, mon.procs[t.job].pid));
    }
  }

  lemma AddedFds(procs: map<JobId, Proc>, fds: map<Fd, Tracked>, j: JobId, a: Launch)
    requires FdsOk(procs, fds) && j !in procs && a.Launched? && a.out !in fds && a.err !in fds && a.startup !in fds
    requires a.out != a.err && a.out != a.startup && a.err != a.startup && a.out >= 0 && a.err >= 0 && a.startup >= 0
    ensures FdsOk(procs[j := NewProc(a)], fds[a.out := Tracked(j, Stdout)][a.err := Tracked(j, Stderr)][a.startup := Tracked(j, StartupError)])
  {
  }

  /** The exception an attempt to signal a job ends with, if any. */
  function OutcomeOf(a: Ending): (r: Outcome)
    ensures (r == Threw(SystemError) <==> a.Rejected?) && (r == Threw(LogicError) <==> a.Missing?) && (r.Done? <==> !a.Raised())
  {
    match a case Rejected => Threw(SystemError) case Missing => Threw(LogicError) case _ => Done
  }

  // ----- the class -----

  class ProcessMonitor {
    const host: Host
    const table: JobTable
    const outbox: Notifications
    var procs: map<JobId, Proc>
    var pidToJob: map<Pid, JobId>
    var trackedFds: map<Fd, Tracked>

    ghost function View(): Mon
      reads this, host, table, outbox
    {
      Mon(table.jobs, procs, pidToJob, outbox.queue, host.os)
    }

    /** The index by descriptor agrees with the process table; the index by process id is part of the view. */
    ghost predicate Indexed()
      reads this
    {
      FdsOk(procs, trackedFds)
    }

    constructor (host: Host, table: JobTable, outbox: Notifications)
      ensures this.host == host && this.table == table && this.outbox == outbox
      ensures Indexed() && procs == map[] && pidToJob == map[]
    {
      this.host, this.table, this.outbox := host, table, outbox;
      procs, pidToJob, trackedFds := map[], map[], map[];
    }

    // ----- starting -----

    method RegisterProcessFd(fd: Fd, job: JobId, kind: Kind) returns (r: Outcome)
      modifies this`trackedFds, host
      ensures fd in old(trackedFds) ==> r == Threw(LogicError) && host.os == old(host.os)
      ensures fd !in old(trackedFds) ==>
        host.os == Watch(old(host.os)) && (r == if NextWatch(old(host.os)) then Done else Threw(SystemError))
      ensures trackedFds == if r.Done? then old(trackedFds)[fd := Tracked(job, kind)] else old(trackedFds)
    {
      if fd in trackedFds {
        return Threw(LogicError);
      }
      ghost var before := trackedFds;
      trackedFds := trackedFds[fd := Tracked(job, kind)];
      var ok := host.EpollAdd();
      if !ok {
        trackedFds := trackedFds - {fd};
        assert trackedFds == before;
        return Threw(SystemError);
      }
      r := Done;
    }

    /** The three registrations of a new process; a refusal leaves a few of them behind. */
    method RegisterPipes(job: JobId, a: Launch) returns (r: Outcome)
      requires a.Launched? && a.out !in trackedFds && a.err !in trackedFds && a.startup !in trackedFds
      requires a.out != a.err && a.out != a.startup && a.err != a.startup
      modifies this`trackedFds, host
      ensures host.os == WatchAll(old(host.os), 3).0 && r.Done? == WatchAll(old(host.os), 3).1
      ensures r.Done? ==>
        trackedFds == old(trackedFds)[a.out := Tracked(job, Stdout)][a.err := Tracked(job, Stderr)][a.startup := Tracked(job, StartupError)]
      ensures trackedFds - {a.out, a.err, a.startup} == old(trackedFds)
    {
      ghost var before := trackedFds;
      ghost var os := host.os;
      ghost var os1 := Watch(os);
      ghost var os2 := Watch(os1);
      assert WatchAll(os, 3) == if NextWatch(os) then WatchAll(os1, 2) else (os1, false);
      assert WatchAll(os1, 2) == if NextWatch(os1) then WatchAll(os2, 1) else (os2, false);
      assert WatchAll(os2, 1) == (Watch(os2), NextWatch(os2));
      r := RegisterProcessFd(a.out, job, Stdout);
      if r.Done? {
        r := RegisterProcessFd(a.err, job, Stderr);
        if r.Done? {
          r := RegisterProcessFd(a.startup, job, StartupError);
        }
      }
      assert trackedFds - {a.out, a.err, a.startup} == before;
    }

    method FailQueuedJob(job: JobId)
      requires job in table.jobs && table.jobs[job].state.Queued?
      modifies table, host
      ensures View() == FailStart(old(View()), job)
    {
      var r, failed := Transition(table.jobs[job], Failed);
      assert r.Done?;
      table.jobs := table.jobs[job := failed.(failed := true)];
      host.Log(Settled(job));
    }

    /** Roll a registration back: close the pipes, kill and reap the child, forget the process. */
    method AbandonStartedJob(job: JobId, ghost a: Launch)
      requires job in procs && a.Launched? && procs[job] == NewProc(a) && a.out >= 0 && a.err >= 0 && a.startup >= 0
      requires job in table.jobs && table.jobs[job].state.Queued?
      modifies this, table, host
      ensures View() == FailStart(Abandon(old(View()), a).(procs := old(procs) - {job}), job)
      ensures trackedFds == old(trackedFds) - {a.out, a.err, a.startup} && pidToJob == old(pidToJob) - {a.pid}
    {
      ghost var before := trackedFds;
      var p := procs[job];
      trackedFds := trackedFds - {p.out.fd};
      host.CloseFd(p.out.fd);
      trackedFds := trackedFds - {p.err.fd};
      host.CloseFd(p.err.fd);
      trackedFds := trackedFds - {p.startup.fd};
      host.CloseFd(p.startup.fd);
      host.KillAndReapProcess(p.pid);
      assert trackedFds == before - {a.out, a.err, a.startup};
      pidToJob := pidToJob - {p.pid};
      procs := procs - {job};
      FailQueuedJob(job);
    }

    method StartJob(job: JobId) returns (r: Outcome)
      requires Indexed() && MonInv(View())
      modifies this, table, host
      ensures Indexed()
      ensures r == if job in old(table.jobs) && old(table.jobs)[job].state.Queued? then Done else Threw(LogicError)
      ensures View() == if r.Done? then Start(old(View()), job) else old(View())
    {
      hide Core, NoneComplete;
      if job !in table.jobs || !table.jobs[job].state.Queued? {
        return Threw(LogicError);
      }
      Known(View(), job);
      ghost var before := View();
      var a := host.Launch(job);
      if a.LaunchFailed? {
        FailQueuedJob(job);
        return Done;
      }
      if job in procs {
        assert false;
      }
      NewFds(before, trackedFds, a);
      Monitor(job, a);
      r := Done;
    }

    /** From the launched child to RUNNING, or back: a process id that is registered already, like a
        refused registration, undoes everything. */
    method Monitor(job: JobId, a: Launch)
      requires Indexed() && a.Launched? && job !in procs && job in table.jobs && table.jobs[job].state.Queued?
      requires 0 <= a.out && 0 <= a.err && 0 <= a.startup && a.out != a.err && a.out != a.startup && a.err != a.startup
      requires a.out !in trackedFds && a.err !in trackedFds && a.startup !in trackedFds
      modifies this, table, host
      ensures Indexed()
      ensures var forked := old(View()).(jobs := old(table.jobs)[job := old(table.jobs)[job].(pid := Some(a.pid))]);
        View() == if a.pid in old(pidToJob) then FailStart(Abandon(forked, a), job) else Monitored(forked, job, a)
    {
      hide FdsOk, WatchAll, CanTransition;
      ghost var before, fds, pids := procs, trackedFds, pidToJob;
      AddedFds(before, fds, job, a);
      procs := procs[job := NewProc(a)];
      table.jobs := table.jobs[job := table.jobs[job].(pid := Some(a.pid))];
      var r := Threw(LogicError);
      if a.pid !in pidToJob {
        pidToJob := pidToJob[a.pid := job];
        r := RegisterPipes(job, a);
      }
      if r.Threw? {
        AbandonStartedJob(job, a);
        assert fds - {a.out, a.err, a.startup} == fds;
        assert procs == before && trackedFds == fds && pidToJob == pids - {a.pid};
        return;
      }
      Run(job, a.pid);
    }

    method Run(job: JobId, pid: Pid)
      requires job in table.jobs && table.jobs[job].state.Queued?
      modifies table, host
      ensures table.jobs == old(table.jobs)[job := old(table.jobs)[job].(state := Running)]
      ensures host.os == var os := Tick(old(host.os)); Note(os, Started(job, pid, old(table.jobs)[job].spec.timeout, os.now))
    {
      var r, running := Transition(table.jobs[job], Running);
      assert r.Done?;
      table.jobs := table.jobs[job := running];
      var now := host.Now();
      host.Log(Started(job, pid, running.spec.timeout, now));
    }

    // ----- draining and settling -----

    method CloseTrackedFd(fd: Fd)
      requires Indexed()
      modifies this`procs, this`trackedFds, host
      ensures Indexed()
      ensures fd !in old(trackedFds) ==> View() == old(View())
      ensures fd in old(trackedFds) ==>
        var t := old(trackedFds)[fd];
        View() == PutEnd(old(View()).(os := Close(old(host.os), fd)), t.job, t.kind, old(procs)[t.job].At(t.kind).(fd := -1, eof := true))
    {
      if fd !in trackedFds {
        return;
      }
      var t := trackedFds[fd];
      ClosedEnd(procs, trackedFds, t.job, t.kind);
      var closed := procs[t.job].Set(t.kind, procs[t.job].At(t.kind).(fd := -1, eof := true));
      procs := procs[t.job := closed];
      host.CloseFd(fd);
      trackedFds := trackedFds - {fd};
    }

    /** One `read`: data is appended, the end closes the descriptor. */
    method ReadProcessFd(fd: Fd) returns (a: ReadAnswer)
      requires Indexed() && fd in trackedFds
      modifies this`procs, this`trackedFds, host
      ensures Indexed() && a == NextRead(old(host.os)) && (a.EndOfFile? || trackedFds == old(trackedFds))
      ensures View() == DrainOnce(old(View()), old(trackedFds)[fd].job, old(trackedFds)[fd].kind)
    {
      var t := trackedFds[fd];
      var before := procs;
      a := host.ReadFd(fd);
      if a.Data? {
        var e := procs[t.job].At(t.kind);
        procs := procs[t.job := procs[t.job].Set(t.kind, e.(bytes := e.bytes + a.bytes))];
        SameFds(before, procs, trackedFds);
      } else if a.EndOfFile? {
        CloseTrackedFd(fd);
      } else {
        assert procs[t.job].Set(t.kind, procs[t.job].At(t.kind)) == procs[t.job];
        assert procs == procs[t.job := procs[t.job]];
      }
    }

    method DrainProcessFd(fd: Fd)
      requires Indexed() && Core(View())
      modifies this`procs, this`trackedFds, host
      ensures Indexed()
      ensures View() == if fd in old(trackedFds) then Drain(old(View()), old(trackedFds)[fd].job, old(trackedFds)[fd].kind) else old(View())
    {
      hide Core, Quiet, FdsOk, DrainOnce;
      if fd !in trackedFds {
        return;
      }
      var t := trackedFds[fd];
      FdIsIndexed(View(), trackedFds, fd);
      ghost var whole := Drain(View(), t.job, t.kind);
      while true
        invariant Indexed() && Core(View()) && fd in trackedFds && trackedFds[fd] == t && t.job in procs
        invariant Drain(View(), t.job, t.kind) == whole
        decreases |host.os.inputs|
      {
        FdIsIndexed(View(), trackedFds, fd);
        EofIsClosed(View(), t.job, t.kind);
        DrainOnceKeeps(View(), t.job, t.kind);
        var a := ReadProcessFd(fd);
        if a.EndOfFile? || a.WouldBlock? {
          return;
        }
      }
    }

    /** The terminal state of a job whose child is gone and whose pipes have ended. */
    method Conclude(job: Job, p: Proc) returns (done: Job)
      requires JobOk(job) && IsActive(job.state)
      ensures done == Result(job, p)
    {
      var r: Outcome;
      done := job.(stdout := p.out.bytes, stderr := p.err.bytes);
      if job.state.Terminating? {
        if job.cause.None? {
          assert false;
        }
        match p.status {
          case Exited(code) => done := done.(exitCode := Some(code));
          case Signaled(signal) => done := done.(exitSignal := Some(signal));
        }
        match job.cause.value {
          case CauseCancelled => r, done := Transition(done, Cancelled);
          case CauseTimedOut => r, done := Transition(done, TimedOut);
        }
      } else if p.startup.bytes == [] {
        match p.status {
          case Exited(code) =>
            done := done.(exitCode := Some(code));
            if code == 0 {
              r, done := Transition(done, Succeeded);
            } else {
              r, done := Transition(done, Failed);
              done := done.(failed := true);
            }
          case Signaled(signal) =>
            done := done.(exitSignal := Some(signal));
            r, done := Transition(done, Failed);
            done := done.(failed := true);
        }
      } else {
        r, done := Transition(done, Failed);
        done := done.(failed := true);
      }
      assert r.Done?;
    }

    method TryFinalizeJob(job: JobId)
      requires Indexed() && Core(View())
      modifies this`procs, this`pidToJob, table, outbox, host
      ensures Indexed() && View() == TryFinalize(old(View()), job)
    {
      hide Core, NoneComplete, Result;
      if job !in procs {
        return;
      }
      var p := procs[job];
      if !p.exited || !p.out.eof || !p.err.eof || !p.startup.eof {
        return;
      }
      Live(View(), job);
      AllClosed(View(), job);
      var done := Conclude(table.jobs[job], p);
      table.jobs := table.jobs[job := done];
      RemovedProc(procs, trackedFds, job);
      pidToJob := pidToJob - {p.pid};
      procs := procs - {job};
      outbox.queue := outbox.queue + [job];
      host.Log(Settled(job));
    }

    static lemma AllClosed(mon: Mon, j: JobId)
      requires Core(mon) && j in mon.procs && Complete(mon.procs[j])
      ensures forall k :: mon.procs[j].At(k).fd == -1
    {
      forall k
        ensures mon.procs[j].At(k).fd == -1
      {
        EofIsClosed(mon, j, k);
      }
    }

    // ----- signals -----

    /** Wait for the child without blocking, and record its exit; a child that cannot be waited for is an error. */
    method PollChild(job: JobId) returns (r: Outcome)
      requires Indexed() && Core(View()) && job in procs
      modifies this`procs, host
      ensures Indexed() && View() == PollExit(old(View()), job)
      ensures r == if Orphaned(old(View()), job) then Threw(LogicError) else Done
    {
      hide TableOk, PipesOk, ChildrenOk, IndexOk, IdsOk, OutputOk, StatusOk, LedgerOk, LogOk, FdsOk;
      ghost var whole, lost := PollExit(View(), job), Orphaned(View(), job);
      while !procs[job].exited
        invariant Indexed() && Core(View()) && job in procs && PollExit(View(), job) == whole && Orphaned(View(), job) == lost
        decreases procs[job].exited, |host.os.polls|
      {
        var before := procs;
        var a := host.WaitPid(procs[job].pid);
        match a
        case Gone(status) =>
          procs := procs[job := procs[job].(exited := true, status := status)];
          SameFds(before, procs, trackedFds);
          return Done;
        case StillRunning => return Done;
        case PollInterrupted =>
        case NoChild => return Threw(LogicError);
      }
      r := Done;
    }

    method DrainIfOpen(job: JobId, kind: Kind, fd: Fd)
      requires Indexed() && Core(View()) && job in procs && fd == procs[job].At(kind).fd
      modifies this`procs, this`trackedFds, host
      ensures Indexed() && View() == DrainOpen(old(View()), job, kind)
    {
      hide Core;
      if fd != -1 {
        DrainProcessFd(fd);
      }
    }

    /** True if the job settled with the result the child already had. */
    method FinishExitedChildBeforeSignal(job: JobId) returns (r: Outcome, settled: bool)
      requires Indexed() && MonInv(View())
      modifies this, table, outbox, host
      ensures Indexed()
      ensures r == if job in old(procs) && !Orphaned(old(View()), job) then Done else Threw(LogicError)
      ensures r.Threw? ==> View() == if job in old(procs) then PollExit(old(View()), job) else old(View())
      ensures r.Done? ==> View() == FinishExited(old(View()), job) && (settled <==> job !in procs)
    {
      hide Core, NoneComplete, Quiet, FdsOk;
      if job !in procs {
        return Threw(LogicError), false;
      }
      Live(View(), job);
      FinishKeeps(View(), job);
      ghost var m0 := PollExit(View(), job);
      PollKeeps(View(), job);
      r := PollChild(job);
      if r.Threw? {
        return r, false;
      }
      if !procs[job].exited {
        return Done, false;
      }
      var out, err, startup := procs[job].out.fd, procs[job].err.fd, procs[job].startup.fd;
      ghost var m1 := DrainOpen(m0, job, Stdout);
      ghost var m2 := DrainOpen(m1, job, Stderr);
      DrainOpenKeeps(m0, job, Stdout);
      DrainOpenKeeps(m1, job, Stderr);
      DrainOpenKeeps(m2, job, StartupError);
      OtherEnds(m0, job, Stdout);
      OtherEnds(m1, job, Stderr);
      DrainIfOpen(job, Stdout, out);
      DrainIfOpen(job, Stderr, err);
      DrainIfOpen(job, StartupError, startup);
      TryFinalizeJob(job);
      Settlement(old(View()), View(), job);
      settled := IsTerminal(table.jobs[job].state);
      r := Done;
    }

    /** Draining one pipe leaves the other two as they are. */
    static lemma {:induction false} OtherEnds(mon: Mon, j: JobId, k: Kind)
      requires j in mon.procs
      ensures forall l | l != k :: DrainOpen(mon, j, k).procs[j].At(l) == mon.procs[j].At(l)
    {
      if mon.procs[j].At(k).fd != -1 {
        OtherEndsDrained(mon, j, k);
      }
    }

    static lemma {:induction false} OtherEndsDrained(mon: Mon, j: JobId, k: Kind)
      requires j in mon.procs
      ensures forall l | l != k :: Drain(mon, j, k).procs[j].At(l) == mon.procs[j].At(l)
      decreases |mon.os.inputs|
    {
      if NextRead(mon.os).Data? || NextRead(mon.os).ReadInterrupted? {
        OtherEndsDrained(DrainOnce(mon, j, k), j, k);
      }
    }

    /** After a quiet step a job is terminal exactly if its process is gone. */
    static lemma Settlement(a: Mon, b: Mon, j: JobId)
      requires MonInv(a) && MonInv(b) && Quiet(a, b) && j in a.procs && j in a.jobs
      ensures j in b.jobs && (IsTerminal(b.jobs[j].state) <==> j !in b.procs)
    {
      hide Core, NoneComplete;
      Known(a, j);
      Known(b, j);
    }

    method SendSignalToProcessGroup(job: JobId, signal: Signal, reason: Reason) returns (r: Outcome, sent: bool)
      requires ChildrenOk(procs, host.os.children)
      modifies host
      ensures job !in procs ==> r == Threw(LogicError) && host.os == old(host.os)
      ensures job in procs ==>
        var (os, a) := KillGroup(old(host.os), procs[job].pid, job, signal, reason);
        host.os == os && sent == a.Sent? && (r == if a.Denied? then Threw(SystemError) else Done)
    {
      if job !in procs {
        return Threw(LogicError), false;
      }
      var group := procs[job].pid;
      if group <= 0 {
        assert false;
      }
      ghost var whole := KillGroup(host.os, group, job, signal, reason);
      while true
        invariant KillGroup(host.os, group, job, signal, reason) == whole
        decreases |host.os.kills|
      {
        var a := host.Kill(group, signal, job, reason);
        match a
        case Sent => return Done, true;
        case KillInterrupted =>
        case NoGroup => return Done, false;
        case Denied => return Threw(SystemError), false;
      }
    }

    method RequestTerminate(job: JobId, cause: Cause) returns (r: Outcome, requested: bool)
      requires Indexed() && MonInv(View())
      modifies this, table, outbox, host
      ensures Indexed()
      ensures if job in old(table.jobs) && old(table.jobs)[job].state.Running? then
          var (mon, a) := MonitorSpec.RequestTerminate(old(View()), job, cause);
          View() == mon && requested == a.Delivered? && r == OutcomeOf(a)
        else View() == old(View()) && r == Threw(LogicError)
    {
      hide Core, NoneComplete, Quiet, FdsOk, FinishExited, KillGroup;
      if job !in table.jobs || !table.jobs[job].state.Running? {
        return Threw(LogicError), false;
      }
      Known(View(), job);
      FinishKeeps(View(), job);
      var settled;
      r, settled := FinishExitedChildBeforeSignal(job);
      if r.Threw? {
        return r, false;
      }
      QuietKeepsProcs(old(View()), View(), job);
      if settled {
        return Done, false;
      }
      Positive(View());
      r, requested := SendSignalToProcessGroup(job, SigTerm, ReasonOf(cause));
      if r.Threw? || !requested {
        return;
      }
      var legal, ending := Transition(table.jobs[job], Terminating);
      assert legal.Done?;
      table.jobs := table.jobs[job := ending.(cause := Some(cause))];
    }

    static lemma Positive(mon: Mon)
      requires MonInv(mon)
      ensures ChildrenOk(mon.procs, mon.os.children)
    {
    }

    static lemma QuietKeepsProcs(a: Mon, b: Mon, j: JobId)
      requires MonInv(a) && Quiet(a, b) && j in a.jobs
      ensures j in b.jobs && (j in b.procs ==> b.jobs[j] == a.jobs[j])
    {
    }

    /** The state check alone does not prevent a second SIGKILL. */
    method ForceKill(job: JobId, reason: Reason) returns (r: Outcome, sent: bool)
      requires Indexed() && MonInv(View())
      modifies this, table, outbox, host
      ensures Indexed()
      ensures if job in old(table.jobs) && old(table.jobs)[job].state.Terminating? then
          var (mon, a) := MonitorSpec.ForceKill(old(View()), job, reason);
          View() == mon && sent == a.Delivered? && r == OutcomeOf(a)
        else View() == old(View()) && r == Threw(LogicError)
    {
      hide Core, NoneComplete, Quiet, FdsOk, FinishExited, KillGroup;
      if job !in table.jobs || !table.jobs[job].state.Terminating? {
        return Threw(LogicError), false;
      }
      Known(View(), job);
      if table.jobs[job].cause.None? {
        assert false;
      }
      FinishKeeps(View(), job);
      var settled;
      r, settled := FinishExitedChildBeforeSignal(job);
      if r.Threw? {
        return r, false;
      }
      if settled {
        return Done, false;
      }
      Positive(View());
      r, sent := SendSignalToProcessGroup(job, SigKill, reason);
    }

    // ----- events -----

    method ReapExitedChildren()
      requires Indexed() && MonInv(View())
      modifies this, table, outbox, host
      ensures Indexed() && View() == ReapAll(old(View()))
    {
      hide Core, NoneComplete, Quiet, FdsOk;
      ghost var whole := ReapAll(View());
      while true
        invariant Indexed() && MonInv(View()) && ReapAll(View()) == whole
        decreases |host.os.reaps|
      {
        ghost var before := View();
        ReapOnceKeeps(before);
        var a := host.WaitAny();
        match a
        case NoneReady => return;
        case ReapInterrupted =>
        case Child(pid, status) =>
          if pid in pidToJob {
            MonitorInvariant.Indexed(before, pid);
            var job := pidToJob[pid];
            procs := procs[job := procs[job].(exited := true, status := status)];
            SameFds(before.procs, procs, trackedFds);
            ExitKeeps(before, View(), job, status);
            TryFinalizeJob(job);
          }
      }
    }

    static lemma FdIsIndexed(mon: Mon, fds: map<Fd, Tracked>, fd: Fd)
      requires Core(mon) && FdsOk(mon.procs, fds)
      ensures fd in fds <==> fd in mon.os.files.open
      ensures fd in fds ==> fd != -1 && fds[fd].job in mon.procs && mon.procs[fds[fd].job].At(fds[fd].kind).fd == fd
      ensures fd in fds ==> mon.os.files.open[fd].job == fds[fd].job && mon.os.files.open[fd].kind == fds[fd].kind
    {
      if fd in fds {
        var t := fds[fd];
        assert EndOk(mon.os.files, mon.procs[t.job].At(t.kind), Pipe(t.job, t.kind, mon.procs[t.job].pid));
      }
    }

    method HandleSigchld()
      requires Indexed() && MonInv(View())
      modifies this, table, outbox, host
      ensures Indexed() && View() == ReapAll(old(View()).(os := ReadSignals(old(host.os))))
    {
      hide TableOk, PipesOk, ChildrenOk, IndexOk, IdsOk, OutputOk, StatusOk, LedgerOk, LogOk, NoneComplete, FdsOk;
      host.ReadSignalFd();
      ReapExitedChildren();
    }

    method HandleFileDescriptorEvent(fd: Fd)
      requires Indexed() && MonInv(View())
      modifies this, table, outbox, host
      ensures Indexed() && View() == PipeEvent(old(View()), fd)
    {
      hide Core, NoneComplete, Quiet, FdsOk;
      FdIsIndexed(View(), trackedFds, fd);
      if fd !in trackedFds {
        return;
      }
      var job := trackedFds[fd].job;
      ghost var kind := trackedFds[fd].kind;
      EofIsClosed(View(), job, kind);
      DrainKeeps(View(), job, kind);
      DrainProcessFd(fd);
      TryFinalizeJob(job);
    }
  }
}
