/** What the process monitor keeps true of the job table, the process table and the kernel. */
module MonitorInvariant {
  import opened Jobs
  import opened Kernel
  import opened MonitorSpec
  import opened Deadlines
  import Ledger

  // ----- the invariant -----

  /** The daemon's copy of a pipe agrees with the kernel's books. */
  predicate EndOk(files: Files, e: End, p: Pipe) {
    && p in files.delivered && files.delivered[p] == e.bytes
    && (e.eof <==> e.fd == -1)
    && (e.eof ==> p in files.ended)
    && (!e.eof ==> e.fd in files.open && files.open[e.fd] == p)
  }

  /** The descriptors the daemon holds are exactly the open ones, each under its own job and role. */
  ghost predicate PipesOk(procs: map<JobId, Proc>, files: Files) {
    && (forall j, k | j in procs :: EndOk(files, procs[j].At(k), Pipe(j, k, procs[j].pid)))
    && (forall fd | fd in files.open :: fd >= 0 &&
          var p := files.open[fd]; p.job in procs && procs[p.job].At(p.kind).fd == fd)
  }

  /** A child still to be waited for is a live process not marked as exited. */
  ghost predicate ChildrenOk(procs: map<JobId, Proc>, children: map<Pid, JobId>) {
    && (forall j | j in procs :: 0 < procs[j].pid)
    && (forall pid | pid in children :: var j := children[pid]; j in procs && procs[j].pid == pid && !procs[j].exited)
  }

  /** An entry of the index by process id names a live process of that id, and the right one as long as
      its child is still to be waited for. */
  ghost predicate IndexOk(procs: map<JobId, Proc>, byPid: map<Pid, JobId>, children: map<Pid, JobId>) {
    && (forall pid | pid in byPid :: byPid[pid] in procs && procs[byPid[pid]].pid == pid)
    && (forall pid | pid in byPid && pid in children :: children[pid] == byPid[pid])
  }

  /** The job never had the same process id as another job before either of them settled. */
  predicate Unshared(l: Ledger.Ledger, j: JobId) {
    j !in l.reused && j !in l.reusing
  }

  predicate IsChild(children: map<Pid, JobId>, pid: Pid, j: JobId) {
    pid in children && children[pid] == j
  }

  /** What the log says about the process id of one live job: whether its child was waited for, whose
      group has the id and, unless it was another job's before, that the child's exit is recorded or will be found. */
  predicate IdOk(l: Ledger.Ledger, p: Proc, byPid: map<Pid, JobId>, children: map<Pid, JobId>, groups: map<Pid, JobId>, j: JobId) {
    && j in l.running && j !in l.settled && l.running[j].pid == p.pid
    && (j in l.reaped <==> !IsChild(children, p.pid, j))
    && (p.exited ==> j in l.reaped)
    && (IsChild(children, p.pid, j) ==> p.pid in groups && groups[p.pid] == j)
    && (p.pid in groups ==>
          && groups[p.pid] in l.running && l.running[groups[p.pid]].pid == p.pid && j <= groups[p.pid]
          && (groups[p.pid] == j <==> j !in l.reused))
    && (j !in l.reusing && !p.exited ==> j !in l.reaped && p.pid in byPid)
    && (j !in l.reusing && p.exited ==> j in l.reaped && p.status == l.reaped[j])
  }

  /** Another live process has the same id. */
  ghost predicate Shares(procs: map<JobId, Proc>, j: JobId)
    requires j in procs
  {
    exists i :: i in procs && i != j && procs[i].pid == procs[j].pid
  }

  /** A child still to be waited for is not one whose id was reused; if it reuses an id itself, its entry
      is gone or the other job is still there. */
  ghost predicate ReusersOk(l: Ledger.Ledger, procs: map<JobId, Proc>, byPid: map<Pid, JobId>, children: map<Pid, JobId>) {
    forall j | j in procs && IsChild(children, procs[j].pid, j) ::
      j !in l.reused && (j in l.reusing ==> procs[j].pid !in byPid || Shares(procs, j))
  }

  ghost predicate IdsOk(l: Ledger.Ledger, procs: map<JobId, Proc>, byPid: map<Pid, JobId>, children: map<Pid, JobId>, groups: map<Pid, JobId>) {
    && (forall j | j in procs :: IdOk(l, procs[j], byPid, children, groups, j))
    && (forall i, j | i in procs && j in procs && i != j && Unshared(l, j) :: procs[i].pid != procs[j].pid)
    && (forall i, j | i in procs && j in procs && i != j && j !in l.reusing && !procs[j].exited :: procs[i].pid != procs[j].pid)
    && ReusersOk(l, procs, byPid, children)
    && (forall j | j in l.running :: j in l.settled || j in procs)
    && l.reaped.Keys <= l.running.Keys && l.reused <= l.running.Keys && l.reusing <= l.running.Keys
  }

  predicate NoResult(job: Job) {
    job.exitCode.None? && job.exitSignal.None? && !job.failed && job.stdout == [] && job.stderr == []
  }

  /** State, cause and exit result of a job belong together. */
  predicate JobOk(job: Job) {
    && ValidSpec(job.spec)
    && (job.exitCode.None? || job.exitSignal.None?)
    && (job.cause == Some(CauseTimedOut) ==> job.spec.timeout.Some?)
    && match job.state
       case Queued => job.cause.None? && job.pid.None? && NoResult(job)
       case Running => job.cause.None? && job.pid.Some? && NoResult(job)
       case Terminating => job.cause.Some? && job.pid.Some? && NoResult(job)
       case Succeeded => job.cause.None? && job.exitCode == Some(0) && !job.failed
       case Failed => job.cause.None? && job.exitCode != Some(0) && job.failed
       case Cancelled =>
         if job.cause.None? then job.pid.None? && NoResult(job)
         else job.cause.value.CauseCancelled? && (job.exitCode.Some? || job.exitSignal.Some?)
       case TimedOut => job.cause == Some(CauseTimedOut) && (job.exitCode.Some? || job.exitSignal.Some?)
       case Interrupted => false
  }

  /** The live processes are exactly the RUNNING and TERMINATING jobs. */
  ghost predicate TableOk(jobs: map<JobId, Job>, procs: map<JobId, Proc>, pending: seq<JobId>) {
    && (forall j | j in jobs :: jobs[j].id == j && JobOk(jobs[j]))
    && (forall j | j in jobs :: IsActive(jobs[j].state) <==> j in procs)
    && (forall j | j in procs :: j in jobs && jobs[j].pid == Some(procs[j].pid))
    && (forall j | j in pending :: j in jobs && IsTerminal(jobs[j].state))
    && Distinct(pending)
  }

  predicate StreamOk(files: Files, p: Pipe, bytes: Bytes) {
    p in files.delivered && files.delivered[p] == bytes && p in files.ended
  }

  /** A finished job holds exactly what its pipes delivered, up to their end. */
  ghost predicate OutputOk(jobs: map<JobId, Job>, started: set<JobId>, files: Files) {
    forall j | j in jobs && IsTerminal(jobs[j].state) ::
      if j in started then
        && jobs[j].pid.Some?
        && StreamOk(files, Pipe(j, Stdout, jobs[j].pid.value), jobs[j].stdout)
        && StreamOk(files, Pipe(j, Stderr, jobs[j].pid.value), jobs[j].stderr)
      else jobs[j].stdout == [] && jobs[j].stderr == []
  }

  /** The exit code or signal of a record against the status that was handed out: the one it is, unless the job was
      not being terminated and its startup pipe delivered something. */
  predicate ResultIs(job: Job, status: WaitStatus, startup: Bytes) {
    if job.cause.None? && startup != [] then
      job.exitCode.None? && job.exitSignal.None? && job.state.Failed?
    else match status
      case Exited(code) => job.exitCode == Some(code) && job.exitSignal.None?
      case Signaled(signal) => job.exitSignal == Some(signal) && job.exitCode.None?
  }

  predicate StatusIs(l: Ledger.Ledger, job: Job, files: Files, j: JobId) {
    && j in l.reaped && job.pid.Some?
    && var p := Pipe(j, StartupError, job.pid.value);
       p in files.delivered && p in files.ended && ResultIs(job, l.reaped[j], files.delivered[p])
  }

  /** A finished job that was not started with the id of an unsettled one holds the result of its own child. */
  ghost predicate StatusOk(l: Ledger.Ledger, jobs: map<JobId, Job>, files: Files) {
    forall j | j in jobs && IsTerminal(jobs[j].state) && j in l.running && j !in l.reusing :: StatusIs(l, jobs[j], files, j)
  }

  predicate JobInLedger(l: Ledger.Ledger, j: JobId, job: Job) {
    && (j in l.terminated ==> j in l.running)
    && (j in l.killed ==> j in l.terminated)
    && (j in l.running ==> j in l.taken && l.running[j].timeout == job.spec.timeout)
    && (j in l.reaped ==> j in l.running)
    && (j in l.settled ==> IsTerminal(job.state))
    && (job.state.Queued? ==> j !in l.running)
    && (IsActive(job.state) ==> j in l.running && (job.state.Terminating? <==> j in l.terminated))
  }

  ghost predicate LedgerOk(l: Ledger.Ledger, jobs: map<JobId, Job>) {
    && (forall j | j in jobs :: JobInLedger(l, j, jobs[j]))
    && l.running.Keys <= jobs.Keys && l.terminated.Keys <= jobs.Keys && l.killed <= jobs.Keys && l.settled <= jobs.Keys && l.reaped.Keys <= jobs.Keys
  }

  /** The log obeys the protocol and nothing in it lies in the future. */
  ghost predicate LogOk(log: Log, now: Time) {
    Ledger.Good(log) && forall j | j in Ledger.Of(log).running :: Ledger.Of(log).running[j].at <= now
  }

  /** Everything except that finished processes have been settled. */
  ghost predicate Core(mon: Mon) {
    var l := Ledger.Of(mon.os.log);
    && TableOk(mon.jobs, mon.procs, mon.pending)
    && PipesOk(mon.procs, mon.os.files)
    && ChildrenOk(mon.procs, mon.os.children)
    && IndexOk(mon.procs, mon.byPid, mon.os.children)
    && IdsOk(l, mon.procs, mon.byPid, mon.os.children, mon.os.groups)
    && OutputOk(mon.jobs, l.running.Keys, mon.os.files)
    && StatusOk(l, mon.jobs, mon.os.files)
    && LedgerOk(l, mon.jobs)
    && LogOk(mon.os.log, mon.os.now)
  }

  ghost predicate NoneComplete(procs: map<JobId, Proc>) {
    forall j | j in procs :: !Complete(procs[j])
  }

  ghost predicate MonInv(mon: Mon) {
    Core(mon) && NoneComplete(mon.procs)
  }

  /** What the invariant says about one live process. */
  lemma Live(mon: Mon, j: JobId)
    requires Core(mon) && j in mon.procs
    ensures j in mon.jobs && IsActive(mon.jobs[j].state) && JobOk(mon.jobs[j])
    ensures forall k :: EndOk(mon.os.files, mon.procs[j].At(k), Pipe(j, k, mon.procs[j].pid))
  {
  }

  /** What the invariant says about one job. */
  lemma Known(mon: Mon, j: JobId)
    requires Core(mon) && j in mon.jobs
    ensures JobOk(mon.jobs[j]) && mon.jobs[j].id == j && JobInLedger(Ledger.Of(mon.os.log), j, mon.jobs[j])
    ensures j in mon.procs <==> IsActive(mon.jobs[j].state)
  {
  }

  // ----- operations that send no signal and start nothing -----

  /** Jobs either stay as they are or settle; each settled one is announced once. */
  ghost predicate Quiet(a: Mon, b: Mon) {
    && b.jobs.Keys == a.jobs.Keys
    && b.procs.Keys <= a.procs.Keys
    && (forall j | j in a.jobs && !(j in a.procs && j !in b.procs) :: b.jobs[j] == a.jobs[j])
    && (forall j | j in a.procs && j in a.jobs && j !in b.procs ::
          && IsTerminal(b.jobs[j].state) && b.jobs[j].id == a.jobs[j].id && b.jobs[j].spec == a.jobs[j].spec
          && b.jobs[j].cause == a.jobs[j].cause && b.jobs[j].pid == a.jobs[j].pid)
    && a.pending <= b.pending
    && (forall j :: j in b.pending <==> j in a.pending || (j in a.procs && j !in b.procs))
    && a.os.now == b.os.now && a.os.timer == b.os.timer && a.os.arms == b.os.arms && a.os.groups == b.os.groups
    && (var l, l' := Ledger.Of(a.os.log), Ledger.Of(b.os.log);
        l' == l.(settled := l.settled + (a.procs.Keys - b.procs.Keys), reaped := l'.reaped) && (forall j | j in l.reaped :: j in l'.reaped && l'.reaped[j] == l.reaped[j]))
  }

  lemma QuietTransitive(a: Mon, b: Mon, c: Mon)
    requires Quiet(a, b) && Quiet(b, c)
    ensures Quiet(a, c)
  {
    var l := Ledger.Of(a.os.log);
    assert l.settled + (a.procs.Keys - b.procs.Keys) + (b.procs.Keys - c.procs.Keys) == l.settled + (a.procs.Keys - c.procs.Keys);
  }

  lemma UnchangedIsQuiet(a: Mon, b: Mon)
    requires b.jobs == a.jobs && b.pending == a.pending && b.procs.Keys == a.procs.Keys
    requires b.os.now == a.os.now && b.os.timer == a.os.timer && b.os.arms == a.os.arms && b.os.groups == a.os.groups
    requires b.os.log == a.os.log || exists j, status :: b.os.log == Then(a.os.log, Reaped(j, status)) && j !in Ledger.Of(a.os.log).reaped
    ensures Quiet(a, b)
  {
    var l := Ledger.Of(a.os.log);
    assert l.settled + (a.procs.Keys - b.procs.Keys) == l.settled;
  }

  // ----- reading pipes -----

  /** Only the ends of one process may differ. */
  ghost predicate OnlyEnds(a: map<JobId, Proc>, b: map<JobId, Proc>, j: JobId) {
    && a.Keys == b.Keys
    && (forall i | i in a && i != j :: b[i] == a[i])
    && (j in a ==> b[j].exited == a[j].exited && b[j].pid == a[j].pid && b[j].status == a[j].status)
  }

  /** The books of every pipe of another job, and of the job's other pipes, are untouched. */
  ghost predicate OnlyPipe(a: Files, b: Files, p: Pipe) {
    && (forall q | q in a.delivered && q != p :: q in b.delivered && b.delivered[q] == a.delivered[q])
    && a.ended <= b.ended
  }

  lemma EndsKeepTable(jobs: map<JobId, Job>, a: map<JobId, Proc>, b: map<JobId, Proc>, pending: seq<JobId>, children: map<Pid, JobId>, j: JobId)
    requires TableOk(jobs, a, pending) && ChildrenOk(a, children) && OnlyEnds(a, b, j)
    ensures TableOk(jobs, b, pending) && ChildrenOk(b, children)
  {
    hide JobOk;
  }

  lemma EndsKeepIds(l: Ledger.Ledger, a: map<JobId, Proc>, b: map<JobId, Proc>, byPid: map<Pid, JobId>, children: map<Pid, JobId>, groups: map<Pid, JobId>, j: JobId)
    requires IndexOk(a, byPid, children) && IdsOk(l, a, byPid, children, groups) && OnlyEnds(a, b, j)
    ensures IndexOk(b, byPid, children) && IdsOk(l, b, byPid, children, groups)
  {
    forall i | i in b
      ensures IdOk(l, b[i], byPid, children, groups, i)
    {
      assert IdOk(l, a[i], byPid, children, groups, i);
    }
  }

  lemma ReadKeepsOutput(jobs: map<JobId, Job>, started: set<JobId>, a: Files, b: Files, p: Pipe)
    requires OutputOk(jobs, started, a) && OnlyPipe(a, b, p) && p.job in jobs && !IsTerminal(jobs[p.job].state)
    ensures OutputOk(jobs, started, b)
  {
  }

  lemma ReadKeepsStatus(l: Ledger.Ledger, jobs: map<JobId, Job>, a: Files, b: Files, p: Pipe)
    requires StatusOk(l, jobs, a) && OnlyPipe(a, b, p) && p.job in jobs && !IsTerminal(jobs[p.job].state)
    ensures StatusOk(l, jobs, b)
  {
    hide ResultIs;
  }

  lemma ReadKeepsPipes(a: map<JobId, Proc>, b: map<JobId, Proc>, f: Files, g: Files, j: JobId, k: Kind)
    requires PipesOk(a, f) && j in a && b.Keys == a.Keys && !a[j].At(k).eof
    requires b == a[j := a[j].Set(k, b[j].At(k))]
    requires OnlyPipe(f, g, Pipe(j, k, a[j].pid)) && EndOk(g, b[j].At(k), Pipe(j, k, a[j].pid))
    requires if b[j].At(k).eof then g.open == f.open - {a[j].At(k).fd}
             else g.open == f.open && b[j].At(k).fd == a[j].At(k).fd
    ensures PipesOk(b, g)
  {
    var p := Pipe(j, k, a[j].pid);
    assert EndOk(f, a[j].At(k), p);
    forall i, l | i in b
      ensures EndOk(g, b[i].At(l), Pipe(i, l, b[i].pid))
    {
      if i != j || l != k {
        assert EndOk(f, a[i].At(l), Pipe(i, l, a[i].pid));
        assert b[i].At(l) == a[i].At(l);
      }
    }
    forall fd | fd in g.open
      ensures fd >= 0 && g.open[fd].job in b && b[g.open[fd].job].At(g.open[fd].kind).fd == fd
    {
      var q := f.open[fd];
      assert b[q.job].At(q.kind) == a[q.job].At(q.kind) || (q.job == j && q.kind == k);
    }
  }

  /** One `read` updates the daemon's copy and the kernel's books alike. */
  lemma ReadShape(f: Files, e: End, p: Pipe, a: ReadAnswer)
    requires EndOk(f, e, p) && !e.eof
    ensures var g := ReadFile(f, e.fd, a); var h := if a.EndOfFile? then g.(open := g.open - {e.fd}) else g;
      g.open == f.open && OnlyPipe(f, h, p) && EndOk(h, NextEnd(e, a), p)
  {
  }

  lemma DrainOnceShape(mon: Mon, j: JobId, k: Kind)
    requires j in mon.procs && !mon.procs[j].At(k).eof
    requires EndOk(mon.os.files, mon.procs[j].At(k), Pipe(j, k, mon.procs[j].pid))
    ensures var b := DrainOnce(mon, j, k); var e := b.procs[j].At(k); var p := Pipe(j, k, mon.procs[j].pid);
      && b == mon.(procs := b.procs, os := mon.os.(inputs := b.os.inputs, files := b.os.files))
      && b.procs == mon.procs[j := mon.procs[j].Set(k, e)] && OnlyEnds(mon.procs, b.procs, j)
      && OnlyPipe(mon.os.files, b.os.files, p) && EndOk(b.os.files, e, p)
      && (e.eof <==> NextRead(mon.os).EndOfFile?)
      && if e.eof then b.os.files.open == mon.os.files.open - {mon.procs[j].At(k).fd}
         else b.os.files.open == mon.os.files.open && e.fd == mon.procs[j].At(k).fd
  {
    var e, p, a := mon.procs[j].At(k), Pipe(j, k, mon.procs[j].pid), NextRead(mon.os);
    ReadShape(mon.os.files, e, p, a);
    SetThenAt(mon.procs[j], k, NextEnd(e, a));
    hide ReadFile, EndOk, OnlyPipe;
  }

  lemma SetThenAt(p: Proc, k: Kind, e: End)
    ensures var q := p.Set(k, e); q.At(k) == e && q.pid == p.pid && q.exited == p.exited && q.status == p.status
  {
  }

  lemma DrainOnceKeeps(mon: Mon, j: JobId, k: Kind)
    requires Core(mon) && j in mon.procs && !mon.procs[j].At(k).eof
    ensures var b := DrainOnce(mon, j, k);
      && Core(b) && Quiet(mon, b) && OnlyEnds(mon.procs, b.procs, j)
      && (b.procs[j].At(k).eof <==> NextRead(mon.os).EndOfFile?)
  {
    hide TableOk, PipesOk, ChildrenOk, IndexOk, IdsOk, OutputOk, StatusOk, LedgerOk, LogOk, Quiet, EndOk, OnlyEnds, OnlyPipe, DrainOnce;
    var p := Pipe(j, k, mon.procs[j].pid);
    var b := DrainOnce(mon, j, k);
    Live(mon, j);
    assert EndOk(mon.os.files, mon.procs[j].At(k), p);
    DrainOnceShape(mon, j, k);
    EndsKeepTable(mon.jobs, mon.procs, b.procs, mon.pending, mon.os.children, j);
    EndsKeepIds(Ledger.Of(mon.os.log), mon.procs, b.procs, mon.byPid, mon.os.children, mon.os.groups, j);
    ReadKeepsOutput(mon.jobs, Ledger.Of(mon.os.log).running.Keys, mon.os.files, b.os.files, p);
    ReadKeepsStatus(Ledger.Of(mon.os.log), mon.jobs, mon.os.files, b.os.files, p);
    ReadKeepsPipes(mon.procs, b.procs, mon.os.files, b.os.files, j, k);
    UnchangedIsQuiet(mon, b);
  }

  lemma {:induction false} DrainKeeps(mon: Mon, j: JobId, k: Kind)
    requires Core(mon) && j in mon.procs && !mon.procs[j].At(k).eof
    ensures var b := Drain(mon, j, k); Core(b) && Quiet(mon, b) && OnlyEnds(mon.procs, b.procs, j)
    decreases |mon.os.inputs|
  {
    hide Core, Quiet;
    var next := DrainOnce(mon, j, k);
    DrainOnceKeeps(mon, j, k);
    if NextRead(mon.os).Data? || NextRead(mon.os).ReadInterrupted? {
      DrainKeeps(next, j, k);
      QuietTransitive(mon, next, Drain(next, j, k));
    }
  }

  lemma EofIsClosed(mon: Mon, j: JobId, k: Kind)
    requires Core(mon) && j in mon.procs
    ensures mon.procs[j].At(k).eof <==> mon.procs[j].At(k).fd == -1
  {
    Live(mon, j);
    assert EndOk(mon.os.files, mon.procs[j].At(k), Pipe(j, k, mon.procs[j].pid));
  }

  lemma DrainOpenKeeps(mon: Mon, j: JobId, k: Kind)
    requires Core(mon) && j in mon.procs
    ensures var b := DrainOpen(mon, j, k); Core(b) && Quiet(mon, b) && OnlyEnds(mon.procs, b.procs, j)
  {
    EofIsClosed(mon, j, k);
    hide Core, Quiet;
    if mon.procs[j].At(k).fd == -1 {
      UnchangedIsQuiet(mon, mon);
    } else {
      DrainKeeps(mon, j, k);
    }
  }

  // ----- exits -----

  lemma MarkKeepsPipes(procs: map<JobId, Proc>, files: Files, j: JobId, status: WaitStatus)
    requires PipesOk(procs, files) && j in procs
    ensures PipesOk(procs[j := procs[j].(exited := true, status := status)], files)
  {
    var b := procs[j := procs[j].(exited := true, status := status)];
    forall i, k | i in b
      ensures EndOk(files, b[i].At(k), Pipe(i, k, b[i].pid))
    {
      assert EndOk(files, procs[i].At(k), Pipe(i, k, procs[i].pid));
    }
  }

  lemma MarkKeepsTable(jobs: map<JobId, Job>, procs: map<JobId, Proc>, pending: seq<JobId>, children: map<Pid, JobId>, j: JobId, status: WaitStatus)
    requires TableOk(jobs, procs, pending) && ChildrenOk(procs, children) && j in procs
    ensures var b := procs[j := procs[j].(exited := true, status := status)];
      TableOk(jobs, b, pending) && ChildrenOk(b, children - {procs[j].pid})
  {
    hide JobOk;
  }

  lemma MarkKeepsId(l: Ledger.Ledger, p: Proc, byPid: map<Pid, JobId>, children: map<Pid, JobId>, groups: map<Pid, JobId>, i: JobId, pid: Pid, status: WaitStatus)
    requires IdOk(l, p, byPid, children, groups, i) && pid in children
    requires i !in l.reusing && !p.exited ==> p.pid != pid
    requires children[pid] == i ==> p.pid == pid && !p.exited
    ensures IdOk(l.(reaped := l.reaped[children[pid] := status]), p, byPid, children - {pid}, groups, i)
  {
  }

  lemma MarkedIdOk(l: Ledger.Ledger, p: Proc, byPid: map<Pid, JobId>, children: map<Pid, JobId>, groups: map<Pid, JobId>, j: JobId, status: WaitStatus)
    requires IdOk(l, p, byPid, children, groups, j) && p.pid in children && !p.exited
    ensures IdOk(l.(reaped := l.reaped[children[p.pid] := status]), p.(exited := true, status := status), byPid, children - {p.pid}, groups, j)
  {
  }

  /** An exit status was handed out, and the live process with that id was marked.  The status is that of
      another job's child if the two share the id and the process's own exit went unrecorded before. */
  lemma MarkKeepsIds(l: Ledger.Ledger, procs: map<JobId, Proc>, byPid: map<Pid, JobId>, children: map<Pid, JobId>, groups: map<Pid, JobId>, j: JobId, status: WaitStatus)
    requires IndexOk(procs, byPid, children) && IdsOk(l, procs, byPid, children, groups) && ChildrenOk(procs, children)
    requires j in procs && procs[j].pid in children && !procs[j].exited
    ensures var pid := procs[j].pid; var b := procs[j := procs[j].(exited := true, status := status)]; var c := children - {pid};
      IndexOk(b, byPid, c) && IdsOk(l.(reaped := l.reaped[children[pid] := status]), b, byPid, c, groups)
  {
    hide IdOk;
    var pid := procs[j].pid;
    var b, c, l' := procs[j := procs[j].(exited := true, status := status)], children - {pid}, l.(reaped := l.reaped[children[pid] := status]);
    assert IdOk(l, procs[children[pid]], byPid, children, groups, children[pid]);
    IdIsRunning(l, procs[children[pid]], byPid, children, groups, children[pid]);
    MarkedIdOk(l, procs[j], byPid, children, groups, j, status);
    forall i | i in procs && i != j
      ensures IdOk(l', procs[i], byPid, c, groups, i)
    {
      assert IdOk(l, procs[i], byPid, children, groups, i);
      MarkKeepsId(l, procs[i], byPid, children, groups, i, pid, status);
    }
    MarkKeepsReusers(l, procs, byPid, children, j, status);
    hide ReusersOk;
  }

  lemma IdIsRunning(l: Ledger.Ledger, p: Proc, byPid: map<Pid, JobId>, children: map<Pid, JobId>, groups: map<Pid, JobId>, j: JobId)
    requires IdOk(l, p, byPid, children, groups, j)
    ensures j in l.running
  {
  }

  lemma MarkKeepsReusers(l: Ledger.Ledger, procs: map<JobId, Proc>, byPid: map<Pid, JobId>, children: map<Pid, JobId>, j: JobId, status: WaitStatus)
    requires ReusersOk(l, procs, byPid, children) && j in procs && procs[j].pid in children
    ensures ReusersOk(l.(reaped := l.reaped[children[procs[j].pid] := status]), procs[j := procs[j].(exited := true, status := status)], byPid, children - {procs[j].pid})
  {
    var b := procs[j := procs[j].(exited := true, status := status)];
    forall i | i in procs
      ensures Shares(procs, i) ==> Shares(b, i)
    {
      if Shares(procs, i) {
        var k :| k in procs && k != i && procs[k].pid == procs[i].pid;
        assert b[k].pid == b[i].pid;
      }
    }
  }

  /** An exit status was handed out for a process id that the index does not have. */
  lemma IgnoredKeepsIds(l: Ledger.Ledger, procs: map<JobId, Proc>, byPid: map<Pid, JobId>, children: map<Pid, JobId>, groups: map<Pid, JobId>, pid: Pid, status: WaitStatus)
    requires IndexOk(procs, byPid, children) && IdsOk(l, procs, byPid, children, groups) && ChildrenOk(procs, children)
    requires pid in children && pid !in byPid
    ensures var c := children - {pid};
      ChildrenOk(procs, c) && IndexOk(procs, byPid, c) && IdsOk(l.(reaped := l.reaped[children[pid] := status]), procs, byPid, c, groups)
  {
    var c, l' := children - {pid}, l.(reaped := l.reaped[children[pid] := status]);
    assert IdOk(l, procs[children[pid]], byPid, children, groups, children[pid]);
    forall i | i in procs
      ensures IdOk(l', procs[i], byPid, c, groups, i)
    {
      assert IdOk(l, procs[i], byPid, children, groups, i);
    }
  }

  lemma HandOutIsAllowed(mon: Mon, pid: Pid, status: WaitStatus)
    requires Core(mon) && pid in mon.os.children
    ensures var j := mon.os.children[pid];
      && j in mon.procs && mon.procs[j].pid == pid && !mon.procs[j].exited && j in mon.jobs && j in Ledger.Of(mon.os.log).running
      && j !in Ledger.Of(mon.os.log).reaped
      && Ledger.Allowed(Ledger.Of(mon.os.log), Reaped(j, status)) && LogOk(Then(mon.os.log, Reaped(j, status)), mon.os.now)
  {
    var j := mon.os.children[pid];
    assert IdOk(Ledger.Of(mon.os.log), mon.procs[j], mon.byPid, mon.os.children, mon.os.groups, j);
    assert j in mon.jobs;
  }

  lemma ReapedKeepsLedger(l: Ledger.Ledger, jobs: map<JobId, Job>, files: Files, j: JobId, status: WaitStatus)
    requires LedgerOk(l, jobs) && StatusOk(l, jobs, files) && j in l.running && j !in l.reaped
    ensures LedgerOk(l.(reaped := l.reaped[j := status]), jobs) && StatusOk(l.(reaped := l.reaped[j := status]), jobs, files)
  {
    forall i | i in jobs
      ensures JobInLedger(l.(reaped := l.reaped[j := status]), i, jobs[i])
    {
      assert JobInLedger(l, i, jobs[i]);
    }
  }

  /** The kernel's side of a wait that returned a child. */
  predicate HandedOut(a: Os, b: Os, pid: Pid, status: WaitStatus) {
    && pid in a.children
    && b == a.(children := a.children - {pid}, log := Then(a.log, Reaped(a.children[pid], status)), polls := b.polls, reaps := b.reaps, late := b.late, sigchld := b.sigchld)
  }

  lemma ExitKeeps(a: Mon, b: Mon, j: JobId, status: WaitStatus)
    requires Core(a) && j in a.procs && !a.procs[j].exited && HandedOut(a.os, b.os, a.procs[j].pid, status) && b == SetExited(a.(os := b.os), j, status)
    ensures Core(b) && Quiet(a, b)
  {
    hide TableOk, PipesOk, ChildrenOk, IndexOk, IdsOk, OutputOk, StatusOk, LedgerOk, LogOk, Quiet;
    var l, pid := Ledger.Of(a.os.log), a.procs[j].pid;
    HandOutIsAllowed(a, pid, status);
    MarkKeepsPipes(a.procs, a.os.files, j, status);
    MarkKeepsTable(a.jobs, a.procs, a.pending, a.os.children, j, status);
    MarkKeepsIds(l, a.procs, a.byPid, a.os.children, a.os.groups, j, status);
    ReapedKeepsLedger(l, a.jobs, a.os.files, a.os.children[pid], status);
    UnchangedIsQuiet(a, b);
  }

  lemma IgnoredExitKeeps(a: Mon, b: Mon, pid: Pid, status: WaitStatus)
    requires Core(a) && pid !in a.byPid && HandedOut(a.os, b.os, pid, status) && b == a.(os := b.os)
    ensures Core(b) && Quiet(a, b)
  {
    hide TableOk, PipesOk, ChildrenOk, IndexOk, IdsOk, OutputOk, StatusOk, LedgerOk, LogOk, Quiet;
    var l := Ledger.Of(a.os.log);
    HandOutIsAllowed(a, pid, status);
    IgnoredKeepsIds(l, a.procs, a.byPid, a.os.children, a.os.groups, pid, status);
    ReapedKeepsLedger(l, a.jobs, a.os.files, a.os.children[pid], status);
    UnchangedIsQuiet(a, b);
  }

  lemma {:induction false} PollKeeps(mon: Mon, j: JobId)
    requires Core(mon) && j in mon.procs
    ensures var r := PollExit(mon, j);
      && Core(r) && Quiet(mon, r) && j in r.procs
      && (forall i | i in mon.procs && i != j :: r.procs[i] == mon.procs[i])
      && (!r.procs[j].exited ==> r.procs[j] == mon.procs[j])
    decreases |mon.os.polls|
  {
    hide TableOk, PipesOk, ChildrenOk, IndexOk, IdsOk, OutputOk, StatusOk, LedgerOk, LogOk, Quiet;
    if mon.procs[j].exited {
      UnchangedIsQuiet(mon, mon);
    } else {
      var pid := mon.procs[j].pid;
      var next := mon.(os := Poll(mon.os, pid));
      match NextPoll(mon.os, pid)
      case Gone(status) => ExitKeeps(mon, SetExited(next, j, status), j, status);
      case PollInterrupted =>
        UnchangedIsQuiet(mon, next);
        PollKeeps(next, j);
        QuietTransitive(mon, next, PollExit(next, j));
      case _ => UnchangedIsQuiet(mon, next);
    }
  }

  // ----- settling -----

  lemma ResultIsOk(job: Job, p: Proc)
    requires JobOk(job) && IsActive(job.state)
    ensures var r := Result(job, p);
      && JobOk(r) && CanTransition(job.state, r.state) && IsTerminal(r.state)
      && r.id == job.id && r.spec == job.spec && r.cause == job.cause && r.pid == job.pid
      && r.stdout == p.out.bytes && r.stderr == p.err.bytes
  {
  }

  lemma SettleKeepsTable(jobs: map<JobId, Job>, procs: map<JobId, Proc>, pending: seq<JobId>, children: map<Pid, JobId>, j: JobId)
    requires TableOk(jobs, procs, pending) && ChildrenOk(procs, children) && j in procs && procs[j].exited
    ensures TableOk(jobs[j := Result(jobs[j], procs[j])], procs - {j}, pending + [j]) && ChildrenOk(procs - {j}, children)
  {
    hide JobOk, Result;
    ResultIsOk(jobs[j], procs[j]);
  }

  lemma SettleKeepsIds(l: Ledger.Ledger, procs: map<JobId, Proc>, byPid: map<Pid, JobId>, children: map<Pid, JobId>, groups: map<Pid, JobId>, j: JobId)
    requires IndexOk(procs, byPid, children) && IdsOk(l, procs, byPid, children, groups) && j in procs && procs[j].exited
    ensures var pids := byPid - {procs[j].pid};
      IndexOk(procs - {j}, pids, children) && IdsOk(l.(settled := l.settled + {j}), procs - {j}, pids, children, groups)
  {
    var pids, l' := byPid - {procs[j].pid}, l.(settled := l.settled + {j});
    forall i | i in procs && i != j
      ensures IdOk(l', procs[i], pids, children, groups, i)
    {
      assert IdOk(l, procs[i], byPid, children, groups, i);
    }
  }

  lemma SettleKeepsPipes(procs: map<JobId, Proc>, files: Files, j: JobId)
    requires PipesOk(procs, files) && j in procs && Complete(procs[j])
    ensures PipesOk(procs - {j}, files)
  {
    forall fd | fd in files.open
      ensures files.open[fd].job != j
    {
      var p := files.open[fd];
      assert EndOk(files, procs[p.job].At(p.kind), Pipe(p.job, p.kind, procs[p.job].pid));
    }
  }

  lemma SettleKeepsOutput(mon: Mon, j: JobId)
    requires Core(mon) && j in mon.procs && Complete(mon.procs[j])
    ensures OutputOk(mon.jobs[j := Result(mon.jobs[j], mon.procs[j])], Ledger.Of(mon.os.log).running.Keys, mon.os.files)
  {
    ResultIsOk(mon.jobs[j], mon.procs[j]);
    assert EndOk(mon.os.files, mon.procs[j].At(Stdout), Pipe(j, Stdout, mon.procs[j].pid));
    assert EndOk(mon.os.files, mon.procs[j].At(Stderr), Pipe(j, Stderr, mon.procs[j].pid));
    hide ChildrenOk, LogOk, PipesOk;
  }

  lemma ResultIsExit(job: Job, p: Proc)
    requires JobOk(job) && IsActive(job.state)
    ensures ResultIs(Result(job, p), p.status, p.startup.bytes)
  {
  }

  lemma SettleKeepsStatus(mon: Mon, j: JobId)
    requires Core(mon) && j in mon.procs && Complete(mon.procs[j])
    ensures var l := Ledger.Of(mon.os.log);
      StatusOk(l.(settled := l.settled + {j}), mon.jobs[j := Result(mon.jobs[j], mon.procs[j])], mon.os.files)
  {
    Live(mon, j);
    ResultIsOk(mon.jobs[j], mon.procs[j]);
    ResultIsExit(mon.jobs[j], mon.procs[j]);
    assert EndOk(mon.os.files, mon.procs[j].At(StartupError), Pipe(j, StartupError, mon.procs[j].pid));
    assert IdOk(Ledger.Of(mon.os.log), mon.procs[j], mon.byPid, mon.os.children, mon.os.groups, j);
    assert mon.jobs[j].pid == Some(mon.procs[j].pid);
    hide ChildrenOk, LogOk, PipesOk, OutputOk, IdsOk, IndexOk, LedgerOk, TableOk, Result, ResultIs;
  }

  lemma SettleKeepsLedger(l: Ledger.Ledger, jobs: map<JobId, Job>, j: JobId, job: Job)
    requires LedgerOk(l, jobs) && j in jobs && IsActive(jobs[j].state)
    requires IsTerminal(job.state) && job.spec == jobs[j].spec
    ensures LedgerOk(l.(settled := l.settled + {j}), jobs[j := job])
    ensures Ledger.Allowed(l, Settled(j))
  {
    assert JobInLedger(l, j, jobs[j]);
  }

  lemma SettleIsQuiet(a: Mon, j: JobId)
    requires j in a.procs && j in a.jobs && Complete(a.procs[j]) && JobOk(a.jobs[j]) && IsActive(a.jobs[j].state)
    ensures Quiet(a, TryFinalize(a, j))
  {
    ResultIsOk(a.jobs[j], a.procs[j]);
    assert a.procs.Keys - TryFinalize(a, j).procs.Keys == {j};
  }

  lemma SettleKeeps(a: Mon, j: JobId)
    requires Core(a) && forall i | i in a.procs && i != j :: !Complete(a.procs[i])
    ensures MonInv(TryFinalize(a, j)) && Quiet(a, TryFinalize(a, j))
  {
    hide TableOk, PipesOk, ChildrenOk, IndexOk, IdsOk, OutputOk, StatusOk, LedgerOk, Quiet, Result;
    if j in a.procs && Complete(a.procs[j]) {
      Live(a, j);
      ResultIsOk(a.jobs[j], a.procs[j]);
      SettleKeepsLedger(Ledger.Of(a.os.log), a.jobs, j, Result(a.jobs[j], a.procs[j]));
      SettleKeepsTable(a.jobs, a.procs, a.pending, a.os.children, j);
      SettleKeepsIds(Ledger.Of(a.os.log), a.procs, a.byPid, a.os.children, a.os.groups, j);
      SettleKeepsPipes(a.procs, a.os.files, j);
      SettleKeepsOutput(a, j);
      SettleKeepsStatus(a, j);
      SettleIsQuiet(a, j);
    } else {
      UnchangedIsQuiet(a, a);
    }
  }

  // ----- whole operations -----

  lemma FinishKeeps(mon: Mon, j: JobId)
    requires MonInv(mon) && j in mon.procs
    ensures MonInv(FinishExited(mon, j)) && Quiet(mon, FinishExited(mon, j))
  {
    hide Core, Quiet;
    var m0 := PollExit(mon, j);
    PollKeeps(mon, j);
    if m0.procs[j].exited {
      var m1 := DrainOpen(m0, j, Stdout);
      DrainOpenKeeps(m0, j, Stdout);
      var m2 := DrainOpen(m1, j, Stderr);
      DrainOpenKeeps(m1, j, Stderr);
      var m3 := DrainOpen(m2, j, StartupError);
      DrainOpenKeeps(m2, j, StartupError);
      SettleKeeps(m3, j);
      QuietTransitive(mon, m0, m1);
      QuietTransitive(mon, m1, m2);
      QuietTransitive(mon, m2, m3);
      QuietTransitive(mon, m3, TryFinalize(m3, j));
    }
  }

  lemma {:induction false} PollIsAnswered(mon: Mon, j: JobId)
    requires j in mon.procs && !Orphaned(mon, j)
    ensures !Orphaned(PollExit(mon, j), j)
    decreases |mon.os.polls|
  {
    if !mon.procs[j].exited && NextPoll(mon.os, mon.procs[j].pid).PollInterrupted? {
      PollIsAnswered(mon.(os := Poll(mon.os, mon.procs[j].pid)), j);
    }
  }

  /** Whoever is still live after the check has an exit on record or a child that can be waited for. */
  lemma FinishLeavesChild(mon: Mon, j: JobId)
    requires MonInv(mon) && j in mon.procs && !Orphaned(mon, j)
    ensures !Orphaned(FinishExited(mon, j), j)
  {
    hide Core, Quiet;
    PollIsAnswered(mon, j);
    PollKeeps(mon, j);
    var m0 := PollExit(mon, j);
    if m0.procs[j].exited {
      DrainOpenKeeps(m0, j, Stdout);
      var m1 := DrainOpen(m0, j, Stdout);
      DrainOpenKeeps(m1, j, Stderr);
      DrainOpenKeeps(DrainOpen(m1, j, Stderr), j, StartupError);
    }
  }

  /** A lost child cannot be waited for: nothing happens. */
  lemma OrphanKeeps(mon: Mon, j: JobId)
    requires MonInv(mon) && Orphaned(mon, j)
    ensures var r := PollExit(mon, j); MonInv(r) && Quiet(mon, r) && r == mon.(os := mon.os.(polls := r.os.polls))
  {
    hide Core, Quiet;
    PollKeeps(mon, j);
  }

  lemma PipeEventKeeps(mon: Mon, fd: Fd)
    requires MonInv(mon)
    ensures MonInv(PipeEvent(mon, fd)) && Quiet(mon, PipeEvent(mon, fd))
  {
    if fd in mon.os.files.open {
      var p := mon.os.files.open[fd];
      EofIsClosed(mon, p.job, p.kind);
      assert mon.procs[p.job].At(p.kind).fd == fd;
      hide Core, Quiet;
      DrainKeeps(mon, p.job, p.kind);
      SettleKeeps(Drain(mon, p.job, p.kind), p.job);
      QuietTransitive(mon, Drain(mon, p.job, p.kind), PipeEvent(mon, fd));
    } else {
      UnchangedIsQuiet(mon, mon);
    }
  }

  lemma Indexed(mon: Mon, pid: Pid)
    requires Core(mon) && pid in mon.byPid && pid in mon.os.children
    ensures var j := mon.byPid[pid]; j in mon.procs && mon.procs[j].pid == pid && mon.os.children[pid] == j && !mon.procs[j].exited
  {
  }

  lemma ReapOnceKeeps(mon: Mon)
    requires MonInv(mon)
    ensures MonInv(ReapOnce(mon)) && Quiet(mon, ReapOnce(mon))
  {
    hide TableOk, PipesOk, ChildrenOk, IndexOk, IdsOk, OutputOk, StatusOk, LedgerOk, LogOk, Quiet;
    var a := NextReap(mon.os);
    var next := mon.(os := Reap(mon.os));
    if a.Child? && a.pid in mon.byPid {
      Indexed(mon, a.pid);
      var j := mon.byPid[a.pid];
      hide Core;
      var marked := SetExited(next, j, a.status);
      ExitKeeps(mon, marked, j, a.status);
      SettleKeeps(marked, j);
      QuietTransitive(mon, marked, TryFinalize(marked, j));
    } else if a.Child? {
      IgnoredExitKeeps(mon, next, a.pid, a.status);
    } else {
      UnchangedIsQuiet(mon, next);
    }
  }

  lemma {:induction false} ReapKeeps(mon: Mon)
    requires MonInv(mon)
    ensures MonInv(ReapAll(mon)) && Quiet(mon, ReapAll(mon))
    decreases |mon.os.reaps|
  {
    hide MonInv, Quiet;
    ReapOnceKeeps(mon);
    if !NextReap(mon.os).NoneReady? {
      ReapKeeps(ReapOnce(mon));
      QuietTransitive(mon, ReapOnce(mon), ReapAll(ReapOnce(mon)));
    }
  }

  lemma CollectKeeps(mon: Mon)
    requires MonInv(mon)
    ensures var r := ReapAll(mon.(os := ReadSignals(mon.os))); MonInv(r) && Quiet(mon, r)
  {
    hide TableOk, PipesOk, ChildrenOk, IndexOk, IdsOk, OutputOk, StatusOk, LedgerOk, LogOk, NoneComplete, Quiet;
    var empty := mon.(os := ReadSignals(mon.os));
    UnchangedIsQuiet(mon, empty);
    ReapKeeps(empty);
    QuietTransitive(mon, empty, ReapAll(empty));
  }

  // ----- signals -----

  /** Whose group has the process id of `j`. */
  predicate GroupOk(l: Ledger.Ledger, children: map<Pid, JobId>, groups: map<Pid, JobId>, pid: Pid, j: JobId) {
    && j in l.running
    && (j !in l.reaped ==> pid in children && pid in groups && groups[pid] == j)
    && (pid in groups ==>
          && groups[pid] in l.running && l.running[groups[pid]].pid == l.running[j].pid && j <= groups[pid]
          && (groups[pid] == j <==> j !in l.reused))
  }

  lemma KillOnceIsAimed(l: Ledger.Ledger, os: Os, pid: Pid, j: JobId, a: KillAnswer)
    requires GroupOk(l, os.children, os.groups, pid, j)
    ensures GroupOk(l, os.children, Groups(os, pid), pid, j) && Ledger.Aimed(l, j, a, Target(Groups(os, pid), pid))
  {
  }

  /** Interrupted calls leave no trace in the ledger; the last one decides. */
  lemma {:induction false} KillGroupLog(os: Os, pid: Pid, j: JobId, signal: Signal, reason: Reason)
    requires Ledger.Good(os.log)
    requires Ledger.Allowed(Ledger.Of(os.log), Signalled(j, signal, reason, NoGroup, Foreign, os.now))
    requires GroupOk(Ledger.Of(os.log), os.children, os.groups, pid, j)
    ensures var (r, a) := KillGroup(os, pid, j, signal, reason);
      && Ledger.Good(r.log) && os.now <= r.now && (r.groups == os.groups || (pid !in os.children && r.groups == os.groups - {pid}))
      && r == os.(ticks := r.ticks, now := r.now, kills := r.kills, extinct := r.extinct, groups := r.groups, log := r.log)
      && r.log.Then? && r.log.last == Signalled(j, signal, reason, a, Target(r.groups, pid), r.now)
      && Ledger.Of(r.log) == Ledger.Enter(Ledger.Of(os.log), r.log.last)
    decreases |os.kills|
  {
    hide GroupOk, Ledger.Aimed;
    KillOnceIsAimed(Ledger.Of(os.log), os, pid, j, NextKill(os));
    if NextKill(os).KillInterrupted? {
      KillGroupLog(KillOnce(os, pid, j, signal, reason), pid, j, signal, reason);
    }
  }

  lemma GroupOf(mon: Mon, j: JobId)
    requires Core(mon) && j in mon.procs
    ensures GroupOk(Ledger.Of(mon.os.log), mon.os.children, mon.os.groups, mon.procs[j].pid, j)
  {
    assert IdOk(Ledger.Of(mon.os.log), mon.procs[j], mon.byPid, mon.os.children, mon.os.groups, j);
  }

  /** Signals are nothing to the ids; at most a group without a child to be waited for dies out. */
  lemma SignalKeepsIds(l: Ledger.Ledger, l': Ledger.Ledger, procs: map<JobId, Proc>, byPid: map<Pid, JobId>, children: map<Pid, JobId>, groups: map<Pid, JobId>, groups': map<Pid, JobId>, pid: Pid)
    requires IdsOk(l, procs, byPid, children, groups)
    requires groups' == groups || (pid !in children && groups' == groups - {pid})
    requires l'.running == l.running && l'.settled == l.settled && l'.reaped == l.reaped && l'.reused == l.reused && l'.reusing == l.reusing
    ensures IdsOk(l', procs, byPid, children, groups')
  {
    forall i | i in procs
      ensures IdOk(l', procs[i], byPid, children, groups', i)
    {
      assert IdOk(l, procs[i], byPid, children, groups, i);
    }
  }

  /** A timeout may be acted on once the clock has reached start plus timeout. */
  predicate Permits(l: Ledger.Ledger, now: Time, j: JobId, cause: Cause) {
    cause.CauseTimedOut? ==>
      j in l.running && l.running[j].timeout.Some? && l.running[j].at + ToNs(l.running[j].timeout.value) <= now
  }

  /** SIGKILL once, and a second after SIGTERM unless no grace deadline could be set. */
  predicate PermitsKill(l: Ledger.Ledger, now: Time, j: JobId, reason: Reason) {
    && j !in l.killed
    && (reason.OnGrace? || reason.OnFallback?)
    && (reason.OnGrace? ==> j in l.terminated && l.terminated[j] + ToNs(GRACE_MS) <= now)
    && (reason.OnFallback? ==> j in l.refused)
  }

  /** What a signal call changes: the clock, the answers, the log. */
  ghost predicate SignalShape(a: Mon, b: Mon) {
    && a.os.now <= b.os.now && LogOk(b.os.log, b.os.now)
    && b == a.(jobs := b.jobs, os := a.os.(ticks := b.os.ticks, now := b.os.now, kills := b.os.kills, extinct := b.os.extinct, groups := b.os.groups, log := b.os.log))
  }

  ghost predicate TermShape(a: Mon, b: Mon, answer: Ending, j: JobId, cause: Cause) {
    var l, l' := Ledger.Of(a.os.log), Ledger.Of(b.os.log);
    && SignalShape(a, b) && j in a.jobs
    && l' == l.(expired := if cause.CauseTimedOut? then l.expired + {j} else l.expired,
                terminated := if answer.Delivered? then l.terminated[j := b.os.now] else l.terminated)
    && b.jobs == if answer.Delivered? then a.jobs[j := a.jobs[j].(state := Terminating, cause := Some(cause))] else a.jobs
  }

  ghost predicate KillShape(a: Mon, b: Mon, j: JobId) {
    var l, l' := Ledger.Of(a.os.log), Ledger.Of(b.os.log);
    SignalShape(a, b) && b.jobs == a.jobs && l' == l.(killed := l.killed + {j})
  }

  lemma TermKeepsTable(jobs: map<JobId, Job>, procs: map<JobId, Proc>, pending: seq<JobId>, j: JobId, cause: Cause)
    requires TableOk(jobs, procs, pending) && j in jobs && jobs[j].state.Running?
    requires cause.CauseTimedOut? ==> jobs[j].spec.timeout.Some?
    ensures TableOk(jobs[j := jobs[j].(state := Terminating, cause := Some(cause))], procs, pending)
  {
  }

  lemma TermKeepsLedger(l: Ledger.Ledger, jobs: map<JobId, Job>, j: JobId, cause: Cause, at: Time, expired: set<JobId>)
    requires LedgerOk(l, jobs) && j in jobs && jobs[j].state.Running?
    ensures LedgerOk(l.(expired := expired, terminated := l.terminated[j := at]),
                     jobs[j := jobs[j].(state := Terminating, cause := Some(cause))])
    ensures LedgerOk(l.(expired := expired), jobs)
  {
    assert JobInLedger(l, j, jobs[j]);
    forall i | i in jobs
      ensures JobInLedger(l.(expired := expired), i, jobs[i])
    {
      assert JobInLedger(l, i, jobs[i]);
    }
  }

  lemma TermKeepsOutput(jobs: map<JobId, Job>, started: set<JobId>, files: Files, j: JobId, job: Job)
    requires OutputOk(jobs, started, files) && !IsTerminal(job.state)
    ensures OutputOk(jobs[j := job], started, files)
  {
  }

  lemma TermKeepsStatus(l: Ledger.Ledger, l': Ledger.Ledger, jobs: map<JobId, Job>, files: Files, j: JobId, job: Job)
    requires StatusOk(l, jobs, files) && !IsTerminal(job.state)
    requires l'.running == l.running && l'.reaped == l.reaped && l'.reusing == l.reusing
    ensures StatusOk(l', jobs[j := job], files) && StatusOk(l', jobs, files)
  {
    hide ResultIs;
  }

  lemma SendTermShape(mon: Mon, j: JobId, cause: Cause)
    requires LogOk(mon.os.log, mon.os.now) && j in mon.procs && j in mon.jobs
    requires Ledger.Allowed(Ledger.Of(mon.os.log), Signalled(j, SigTerm, ReasonOf(cause), NoGroup, Foreign, mon.os.now))
    requires GroupOk(Ledger.Of(mon.os.log), mon.os.children, mon.os.groups, mon.procs[j].pid, j)
    ensures var (r, a) := SendTerm(mon, j, cause); var pid := mon.procs[j].pid;
      && TermShape(mon, r, a, j, cause)
      && (r.os.groups == mon.os.groups || (pid !in mon.os.children && r.os.groups == mon.os.groups - {pid}))
  {
    hide KillGroup, GroupOk, Ledger.Allowed, Ledger.Aimed;
    KillGroupLog(mon.os, mon.procs[j].pid, j, SigTerm, ReasonOf(cause));
  }

  lemma SendTermKeeps(mon: Mon, j: JobId, cause: Cause)
    requires MonInv(mon) && j in mon.procs && j in mon.jobs && mon.jobs[j].state.Running?
    requires Permits(Ledger.Of(mon.os.log), mon.os.now, j, cause)
    ensures var (r, a) := SendTerm(mon, j, cause); MonInv(r) && TermShape(mon, r, a, j, cause)
  {
    hide TableOk, PipesOk, ChildrenOk, IndexOk, IdsOk, OutputOk, StatusOk, LedgerOk, NoneComplete, SendTerm, GroupOk, Ledger.Aimed;
    var l := Ledger.Of(mon.os.log);
    Known(mon, j);
    GroupOf(mon, j);
    NotSentIsAimed(l, j);
    SendTermShape(mon, j, cause);
    var (r, a) := SendTerm(mon, j, cause);
    TermKeepsTable(mon.jobs, mon.procs, mon.pending, j, cause);
    TermKeepsLedger(l, mon.jobs, j, cause, r.os.now, Ledger.Of(r.os.log).expired);
    TermKeepsOutput(mon.jobs, l.running.Keys, mon.os.files, j, mon.jobs[j].(state := Terminating, cause := Some(cause)));
    TermKeepsStatus(l, Ledger.Of(r.os.log), mon.jobs, mon.os.files, j, mon.jobs[j].(state := Terminating, cause := Some(cause)));
    SignalKeepsIds(l, Ledger.Of(r.os.log), mon.procs, mon.byPid, mon.os.children, mon.os.groups, r.os.groups, mon.procs[j].pid);
  }

  lemma NotSentIsAimed(l: Ledger.Ledger, j: JobId)
    requires j in l.running
    ensures Ledger.Aimed(l, j, NoGroup, Foreign)
  {
  }

  lemma KillKeepsLedger(l: Ledger.Ledger, jobs: map<JobId, Job>, j: JobId)
    requires LedgerOk(l, jobs) && j in jobs && jobs[j].state.Terminating?
    ensures LedgerOk(l.(killed := l.killed + {j}), jobs)
  {
    assert JobInLedger(l, j, jobs[j]);
    forall i | i in jobs
      ensures JobInLedger(l.(killed := l.killed + {j}), i, jobs[i])
    {
      assert JobInLedger(l, i, jobs[i]);
    }
  }

  lemma SendKillKeeps(mon: Mon, j: JobId, reason: Reason)
    requires MonInv(mon) && j in mon.procs && j in mon.jobs && mon.jobs[j].state.Terminating?
    requires PermitsKill(Ledger.Of(mon.os.log), mon.os.now, j, reason)
    ensures var r := SendKill(mon, j, reason).0; MonInv(r) && KillShape(mon, r, j)
  {
    hide TableOk, PipesOk, ChildrenOk, IndexOk, IdsOk, OutputOk, StatusOk, LedgerOk, NoneComplete, KillGroup, GroupOk, Ledger.Aimed;
    var l := Ledger.Of(mon.os.log);
    Known(mon, j);
    LiveIsRunning(mon, j);
    GroupOf(mon, j);
    NotSentIsAimed(l, j);
    KillGroupLog(mon.os, mon.procs[j].pid, j, SigKill, reason);
    KillKeepsLedger(l, mon.jobs, j);
    var r := SendKill(mon, j, reason).0;
    TermKeepsStatus(l, Ledger.Of(r.os.log), mon.jobs, mon.os.files, j, mon.jobs[j]);
    SignalKeepsIds(l, Ledger.Of(r.os.log), mon.procs, mon.byPid, mon.os.children, mon.os.groups, r.os.groups, mon.procs[j].pid);
  }

  lemma LiveIsRunning(mon: Mon, j: JobId)
    requires Core(mon) && j in mon.procs
    ensures j in Ledger.Of(mon.os.log).running
  {
    assert IdOk(Ledger.Of(mon.os.log), mon.procs[j], mon.byPid, mon.os.children, mon.os.groups, j);
  }

  // ----- starting -----

  lemma {:induction false} WatchAllFrame(os: Os, n: nat)
    ensures var r := WatchAll(os, n).0; r == os.(watches := r.watches)
    decreases n
  {
    if n != 0 && NextWatch(os) {
      WatchAllFrame(Watch(os), n - 1);
    }
  }

  lemma SpawnKeepsPipes(procs: map<JobId, Proc>, os: Os, j: JobId, a: Launch)
    requires PipesOk(procs, os.files) && j !in procs && CanSpawn(os, a)
    ensures PipesOk(procs[j := NewProc(a)], OpenPipes(os.files, j, a))
  {
    var b, files := procs[j := NewProc(a)], OpenPipes(os.files, j, a);
    forall i, k | i in b
      ensures EndOk(files, b[i].At(k), Pipe(i, k, b[i].pid))
    {
      if i != j {
        assert EndOk(os.files, procs[i].At(k), Pipe(i, k, procs[i].pid));
      }
    }
  }

  lemma SpawnKeepsChildren(procs: map<JobId, Proc>, os: Os, j: JobId, a: Launch)
    requires ChildrenOk(procs, os.children) && NoneComplete(procs) && j !in procs && CanSpawn(os, a)
    ensures ChildrenOk(procs[j := NewProc(a)], os.children[a.pid := j]) && NoneComplete(procs[j := NewProc(a)])
  {
  }

  lemma UpKeepsId(l: Ledger.Ledger, p: Proc, byPid: map<Pid, JobId>, children: map<Pid, JobId>, groups: map<Pid, JobId>, i: JobId, j: JobId, r: Record)
    requires IdOk(l, p, byPid, children, groups, i) && i != j && r.Started? && r.job == j && MayStart(l, j)
    requires r.pid !in children
    ensures IdOk(Ledger.Enter(l, r), p, byPid[r.pid := j], children[r.pid := j], groups[r.pid := j], i)
    ensures p.pid == r.pid ==> i in Ledger.Enter(l, r).reused && j in Ledger.Enter(l, r).reusing
    ensures i !in l.reusing && !p.exited ==> p.pid != r.pid
  {
    assert i in Ledger.Namesakes(l, r.pid) <==> p.pid == r.pid;
  }

  lemma NewIdOk(l: Ledger.Ledger, byPid: map<Pid, JobId>, children: map<Pid, JobId>, groups: map<Pid, JobId>, j: JobId, a: Launch, r: Record)
    requires a.Launched? && r.Started? && r.job == j && r.pid == a.pid && MayStart(l, j)
    ensures IdOk(Ledger.Enter(l, r), NewProc(a), byPid[r.pid := j], children[r.pid := j], groups[r.pid := j], j)
    ensures j !in Ledger.Enter(l, r).reused && (j in Ledger.Enter(l, r).reusing ==> Ledger.Namesakes(l, a.pid) != {})
  {
  }

  /** A child with a new entry in the index: from now on a live job with the same id is one whose id was reused. */
  lemma UpKeepsIds(l: Ledger.Ledger, procs: map<JobId, Proc>, byPid: map<Pid, JobId>, children: map<Pid, JobId>, groups: map<Pid, JobId>, j: JobId, a: Launch, r: Record)
    requires IndexOk(procs, byPid, children) && IdsOk(l, procs, byPid, children, groups) && j !in procs
    requires a.Launched? && a.pid !in children && a.pid !in byPid && r.Started? && r.job == j && r.pid == a.pid && MayStart(l, j)
    ensures var b := procs[j := NewProc(a)]; var l' := Ledger.Enter(l, r);
      && IndexOk(b, byPid[a.pid := j], children[a.pid := j])
      && IdsOk(l', b, byPid[a.pid := j], children[a.pid := j], groups[a.pid := j])
  {
    hide IdOk, Ledger.Namesakes, ReusersOk;
    var b, l' := procs[j := NewProc(a)], Ledger.Enter(l, r);
    NewIdOk(l, byPid, children, groups, j, a, r);
    forall i | i in procs
      ensures i != j && IdOk(l', procs[i], byPid[a.pid := j], children[a.pid := j], groups[a.pid := j], i)
      ensures procs[i].pid == a.pid ==> i in l'.reused && j in l'.reusing
      ensures i !in l.reusing && !procs[i].exited ==> procs[i].pid != a.pid
    {
      assert IdOk(l, procs[i], byPid, children, groups, i);
      UpKeepsId(l, procs[i], byPid, children, groups, i, j, r);
    }
    UpKeepsReusers(l, procs, byPid, children, groups, j, a, r);
  }

  lemma UpKeepsReusers(l: Ledger.Ledger, procs: map<JobId, Proc>, byPid: map<Pid, JobId>, children: map<Pid, JobId>, groups: map<Pid, JobId>, j: JobId, a: Launch, r: Record)
    requires IdsOk(l, procs, byPid, children, groups) && j !in procs && a.Launched? && a.pid !in children
    requires r.Started? && r.job == j && r.pid == a.pid && MayStart(l, j)
    ensures ReusersOk(Ledger.Enter(l, r), procs[j := NewProc(a)], byPid[a.pid := j], children[a.pid := j])
    ensures Ledger.Enter(l, r).reused <= Ledger.Enter(l, r).running.Keys
  {
    var b, l' := procs[j := NewProc(a)], Ledger.Enter(l, r);
    NewIdOk(l, byPid, children, groups, j, a, r);
    if j in l'.reusing {
      var i :| i in Ledger.Namesakes(l, a.pid);
      assert IdOk(l, procs[i], byPid, children, groups, i);
      assert i in b && i != j && b[i].pid == b[j].pid;
    }
    forall i | i in procs && IsChild(children[a.pid := j], procs[i].pid, i)
      ensures i !in l'.reused && (i in l'.reusing ==> procs[i].pid !in byPid[a.pid := j] || Shares(b, i))
    {
      assert IdOk(l, procs[i], byPid, children, groups, i);
      assert i !in Ledger.Namesakes(l, a.pid);
      SharesStill(procs, b, i, j);
    }
  }

  lemma SharesStill(a: map<JobId, Proc>, b: map<JobId, Proc>, i: JobId, j: JobId)
    requires i in a && j !in a && j in b && b == a[j := b[j]]
    ensures Shares(a, i) ==> Shares(b, i)
  {
    if Shares(a, i) {
      var k :| k in a && k != i && a[k].pid == a[i].pid;
      assert b[k].pid == b[i].pid;
    }
  }

  /** A rolled-back start erases the entry of its id, which at that moment belongs to no child. */
  lemma AbandonKeepsIds(l: Ledger.Ledger, procs: map<JobId, Proc>, byPid: map<Pid, JobId>, children: map<Pid, JobId>, groups: map<Pid, JobId>, j: JobId, pids: set<Pid>)
    requires IndexOk(procs, byPid, children) && IdsOk(l, procs, byPid, children, groups) && j !in procs && pids !! children.Keys
    ensures IndexOk(procs, byPid - pids, children) && IdsOk(l.(settled := l.settled + {j}), procs, byPid - pids, children, groups - pids)
  {
    var l' := l.(settled := l.settled + {j});
    forall i | i in procs
      ensures IdOk(l', procs[i], byPid - pids, children, groups - pids, i)
    {
      assert IdOk(l, procs[i], byPid, children, groups, i);
    }
  }

  /** The books of every other job's pipes are untouched. */
  ghost predicate LosesNothing(a: Files, b: Files, j: JobId) {
    forall p: Pipe | p.job != j ::
      && (p in a.delivered ==> p in b.delivered && b.delivered[p] == a.delivered[p])
      && (p in a.ended ==> p in b.ended)
  }

  /** Closing the pipes and reaping the child undoes the spawn in the kernel's tables. */
  lemma SpawnUndone(os: Os, j: JobId, a: Launch, watches: seq<bool>)
    requires CanSpawn(os, a)
    ensures var r := KillAndReap(Close(Close(Close(Spawn(os, j, a).(watches := watches), a.out), a.err), a.startup), a.pid);
      && r.children == os.children && r.files.open == os.files.open && LosesNothing(os.files, r.files, j)
      && r.log == os.log && os.now <= r.now && r.timer == os.timer && r.arms == os.arms && r.groups == os.groups - {a.pid}
  {
    var up := Spawn(os, j, a);
    assert up.files.open - {a.out} - {a.err} - {a.startup} == os.files.open;
    assert up.children - {a.pid} == os.children;
    assert up.groups - {a.pid} == os.groups - {a.pid};
  }

  /** Either the job runs, or it failed and nothing else changed. */
  ghost predicate StartShape(a: Mon, b: Mon, j: JobId) {
    var l, l' := Ledger.Of(a.os.log), Ledger.Of(b.os.log);
    && a.os.now <= b.os.now && a.os.timer == b.os.timer && a.os.arms == b.os.arms && LogOk(b.os.log, b.os.now)
    && b.pending == a.pending && j in a.jobs && j in b.jobs && b.jobs == a.jobs[j := b.jobs[j]]
    && LosesNothing(a.os.files, b.os.files, j)
    && var job, job' := a.jobs[j], b.jobs[j];
       && if job'.state.Running? then
            && j in b.procs && b.procs == a.procs[j := b.procs[j]]
            && job' == job.(state := Running, pid := Some(b.procs[j].pid))
            && l' == Ledger.Enter(l, Started(j, b.procs[j].pid, job.spec.timeout, b.os.now))
          else
            && b.procs == a.procs && b.os.children == a.os.children && b.os.files.open == a.os.files.open
            && job' == job.(state := Failed, failed := true, pid := job'.pid)
            && l' == l.(settled := l.settled + {j})
  }

  /** What the rules for `Started` and `Settled` ask of a job about to start. */
  predicate MayStart(l: Ledger.Ledger, j: JobId) {
    && j in l.taken && j !in l.running && j !in l.settled && j !in l.reaped && j !in l.reused && j !in l.reusing
    && forall i | i in l.running :: i < j
  }

  lemma RefusedShape(mon: Mon, j: JobId, a: Launch)
    requires a.LaunchFailed? && j in mon.jobs && LogOk(mon.os.log, mon.os.now) && MayStart(Ledger.Of(mon.os.log), j)
    ensures StartShape(mon, FailStart(mon.(os := Spawn(mon.os, j, a)), j), j)
  {
  }

  lemma AbandonedShape(mon: Mon, j: JobId, a: Launch, watches: seq<bool>)
    requires j in mon.jobs && LogOk(mon.os.log, mon.os.now) && MayStart(Ledger.Of(mon.os.log), j) && CanSpawn(mon.os, a)
    ensures var f := Forked(mon, j, a); var b := FailStart(Abandon(f.(os := f.os.(watches := watches)), a), j);
      StartShape(mon, b, j) && j in b.jobs && b.jobs[j].state.Failed? && b.byPid == mon.byPid - {a.pid} && b.os.groups == mon.os.groups - {a.pid}
  {
    hide Spawn, CanSpawn;
    SpawnUndone(mon.os, j, a, watches);
  }

  lemma UpShape(mon: Mon, j: JobId, a: Launch, watches: seq<bool>)
    requires j in mon.jobs && LogOk(mon.os.log, mon.os.now) && MayStart(Ledger.Of(mon.os.log), j) && CanSpawn(mon.os, a)
    ensures var f := Forked(mon, j, a); var b := Up(f.(os := f.os.(watches := watches)), j, a);
      && StartShape(mon, b, j) && j in b.procs && b.procs[j] == NewProc(a) && b.byPid == mon.byPid[a.pid := j]
      && j in b.jobs && b.jobs[j].state.Running?
      && b.os.files == OpenPipes(mon.os.files, j, a) && b.os.children == mon.os.children[a.pid := j] && b.os.groups == mon.os.groups[a.pid := j]
  {
  }

  ghost predicate CanStart(mon: Mon, j: JobId) {
    && j in mon.jobs && mon.jobs[j].state.Queued? && j in Ledger.Of(mon.os.log).taken
    && forall i | i in Ledger.Of(mon.os.log).running :: i < j
  }

  lemma FailedStartKeepsPipes(procs: map<JobId, Proc>, a: Files, b: Files, j: JobId)
    requires PipesOk(procs, a) && j !in procs && b.open == a.open && LosesNothing(a, b, j)
    ensures PipesOk(procs, b)
  {
    forall i, k | i in procs
      ensures EndOk(b, procs[i].At(k), Pipe(i, k, procs[i].pid))
    {
      assert EndOk(a, procs[i].At(k), Pipe(i, k, procs[i].pid));
    }
  }

  lemma StartKeepsTable(a: Mon, b: Mon, j: JobId)
    requires TableOk(a.jobs, a.procs, a.pending) && CanStart(a, j) && StartShape(a, b, j)
    ensures TableOk(b.jobs, b.procs, b.pending)
  {
    hide LosesNothing, LogOk, JobOk, NoResult, ValidSpec, Distinct, Ledger.Of;
    StartedJobOk(a.jobs[j], b.jobs[j]);
  }

  lemma StartedJobOk(a: Job, b: Job)
    requires JobOk(a) && a.state.Queued?
    requires (exists p :: b == a.(state := Running, pid := Some(p))) || b == a.(state := Failed, failed := true, pid := b.pid)
    ensures JobOk(b)
  {
  }

  lemma StartKeepsLedger(a: Mon, b: Mon, j: JobId)
    requires LedgerOk(Ledger.Of(a.os.log), a.jobs) && CanStart(a, j) && StartShape(a, b, j)
    ensures LedgerOk(Ledger.Of(b.os.log), b.jobs)
  {
    var l, l' := Ledger.Of(a.os.log), Ledger.Of(b.os.log);
    forall i | i in b.jobs
      ensures JobInLedger(l', i, b.jobs[i])
    {
      assert JobInLedger(l, i, a.jobs[i]);
    }
  }

  lemma StartKeepsOutput(a: Mon, b: Mon, j: JobId)
    requires OutputOk(a.jobs, Ledger.Of(a.os.log).running.Keys, a.os.files) && CanStart(a, j) && StartShape(a, b, j)
    requires j !in Ledger.Of(a.os.log).running && a.jobs[j].stdout == [] && a.jobs[j].stderr == []
    ensures OutputOk(b.jobs, Ledger.Of(b.os.log).running.Keys, b.os.files)
  {
  }

  lemma StartKeepsStatus(a: Mon, b: Mon, j: JobId)
    requires StatusOk(Ledger.Of(a.os.log), a.jobs, a.os.files) && CanStart(a, j) && StartShape(a, b, j)
    requires j !in Ledger.Of(a.os.log).running && j !in Ledger.Of(a.os.log).reusing
    ensures StatusOk(Ledger.Of(b.os.log), b.jobs, b.os.files)
  {
    hide ResultIs, LogOk, Ledger.Namesakes;
  }

  /** How a start went: the launch failed, the child was given up, or it runs. */
  ghost predicate StartCase(mon: Mon, b: Mon, j: JobId, a: Launch) {
    && StartShape(mon, b, j)
    && if b.jobs[j].state.Running? then
         && CanSpawn(mon.os, a) && a.pid !in mon.byPid && b.procs[j] == NewProc(a) && b.byPid == mon.byPid[a.pid := j]
         && b.os.files == OpenPipes(mon.os.files, j, a) && b.os.children == mon.os.children[a.pid := j] && b.os.groups == mon.os.groups[a.pid := j]
       else
         exists pids: set<Pid> :: pids !! mon.os.children.Keys && b.byPid == mon.byPid - pids && b.os.groups == mon.os.groups - pids
  }

  lemma StartHasCase(mon: Mon, j: JobId)
    requires j in mon.jobs && LogOk(mon.os.log, mon.os.now) && MayStart(Ledger.Of(mon.os.log), j)
    ensures StartCase(mon, Start(mon, j), j, NextLaunch(mon.os))
  {
    var a := NextLaunch(mon.os);
    hide LogOk, MayStart, CanSpawn, FailStart, Abandon, Forked, Monitored, StartCase;
    if a.LaunchFailed? {
      FailedLaunch(mon, j, a);
    } else if a.pid in mon.byPid {
      CollidedLaunch(mon, j, a);
    } else {
      MonitoredLaunch(mon, j, a);
    }
  }

  lemma FailedLaunch(mon: Mon, j: JobId, a: Launch)
    requires a.LaunchFailed? && j in mon.jobs && LogOk(mon.os.log, mon.os.now) && MayStart(Ledger.Of(mon.os.log), j)
    ensures StartCase(mon, FailStart(mon.(os := Spawn(mon.os, j, a)), j), j, a)
  {
    RefusedShape(mon, j, a);
    NotRunning(mon, FailStart(mon.(os := Spawn(mon.os, j, a)), j), j, {});
  }

  lemma CollidedLaunch(mon: Mon, j: JobId, a: Launch)
    requires j in mon.jobs && LogOk(mon.os.log, mon.os.now) && MayStart(Ledger.Of(mon.os.log), j) && a.Launched? && CanSpawn(mon.os, a)
    ensures StartCase(mon, FailStart(Abandon(Forked(mon, j, a), a), j), j, a)
  {
    hide LogOk, MayStart, CanSpawn, FailStart, Abandon, StartCase, StartShape, Spawn;
    var f := Forked(mon, j, a);
    AbandonedShape(mon, j, a, f.os.watches);
    assert f.(os := f.os.(watches := f.os.watches)) == f;
    AbandonedCase(mon, FailStart(Abandon(f, a), j), j, a);
  }

  lemma AbandonedCase(mon: Mon, b: Mon, j: JobId, a: Launch)
    requires StartShape(mon, b, j) && j in b.jobs && b.jobs[j].state.Failed? && CanSpawn(mon.os, a)
    requires b.byPid == mon.byPid - {a.pid} && b.os.groups == mon.os.groups - {a.pid}
    ensures StartCase(mon, b, j, a)
  {
    NotRunning(mon, b, j, {a.pid});
  }

  lemma MonitoredLaunch(mon: Mon, j: JobId, a: Launch)
    requires j in mon.jobs && LogOk(mon.os.log, mon.os.now) && MayStart(Ledger.Of(mon.os.log), j) && a.Launched? && CanSpawn(mon.os, a) && a.pid !in mon.byPid
    ensures StartCase(mon, Monitored(Forked(mon, j, a), j, a), j, a)
  {
    hide LogOk, MayStart, CanSpawn, FailStart, Abandon, Up, StartCase, StartShape, WatchAll, Spawn;
    var f := Forked(mon, j, a);
    WatchAllFrame(f.os, 3);
    var watches := WatchAll(f.os, 3).0.watches;
    if WatchAll(f.os, 3).1 {
      UpShape(mon, j, a, watches);
      Runs(mon, Up(f.(os := f.os.(watches := watches)), j, a), j, a);
    } else {
      AbandonedShape(mon, j, a, watches);
      AbandonedCase(mon, FailStart(Abandon(f.(os := f.os.(watches := watches)), a), j), j, a);
    }
  }

  lemma Runs(mon: Mon, b: Mon, j: JobId, a: Launch)
    requires j in b.jobs && j in b.procs && StartShape(mon, b, j) && CanSpawn(mon.os, a) && a.pid !in mon.byPid && b.procs[j] == NewProc(a) && b.byPid == mon.byPid[a.pid := j]
    requires b.jobs[j].state.Running?
    requires b.os.files == OpenPipes(mon.os.files, j, a) && b.os.children == mon.os.children[a.pid := j] && b.os.groups == mon.os.groups[a.pid := j]
    ensures StartCase(mon, b, j, a)
  {
  }

  lemma NotRunning(mon: Mon, b: Mon, j: JobId, pids: set<Pid>)
    requires StartShape(mon, b, j) && j in b.jobs && b.jobs[j].state.Failed?
    requires pids !! mon.os.children.Keys && b.byPid == mon.byPid - pids && b.os.groups == mon.os.groups - pids
    ensures forall a :: StartCase(mon, b, j, a)
  {
  }

  lemma StartKeeps(mon: Mon, j: JobId)
    requires MonInv(mon) && CanStart(mon, j)
    ensures MonInv(Start(mon, j)) && StartShape(mon, Start(mon, j), j)
  {
    Known(mon, j);
    NeverStarted(mon, j);
    hide TableOk, PipesOk, ChildrenOk, IndexOk, IdsOk, OutputOk, StatusOk, LedgerOk, NoneComplete, StartShape, Start;
    StartHasCase(mon, j);
    StartKeepsAll(mon, Start(mon, j), j, NextLaunch(mon.os));
  }

  lemma NeverStarted(mon: Mon, j: JobId)
    requires Core(mon) && CanStart(mon, j)
    ensures MayStart(Ledger.Of(mon.os.log), j) && j !in mon.procs
  {
    Known(mon, j);
  }

  lemma StartKeepsAll(mon: Mon, b: Mon, j: JobId, a: Launch)
    requires MonInv(mon) && CanStart(mon, j) && StartCase(mon, b, j, a) && j !in mon.procs && JobOk(mon.jobs[j])
    requires MayStart(Ledger.Of(mon.os.log), j)
    ensures MonInv(b)
  {
    hide TableOk, PipesOk, ChildrenOk, IndexOk, IdsOk, OutputOk, StatusOk, LedgerOk, NoneComplete, LosesNothing, OpenPipes;
    StartKeepsLedger(mon, b, j);
    StartKeepsTable(mon, b, j);
    StartKeepsOutput(mon, b, j);
    StartKeepsStatus(mon, b, j);
    var l := Ledger.Of(mon.os.log);
    if b.jobs[j].state.Running? {
      SpawnKeepsPipes(mon.procs, mon.os, j, a);
      SpawnKeepsChildren(mon.procs, mon.os, j, a);
      UpKeepsIds(l, mon.procs, mon.byPid, mon.os.children, mon.os.groups, j, a, Started(j, a.pid, mon.jobs[j].spec.timeout, b.os.now));
    } else {
      var pids: set<Pid> :| pids !! mon.os.children.Keys && b.byPid == mon.byPid - pids && b.os.groups == mon.os.groups - pids;
      AbandonKeepsIds(l, mon.procs, mon.byPid, mon.os.children, mon.os.groups, j, pids);
      FailedStartKeepsPipes(mon.procs, mon.os.files, b.os.files, j);
    }
  }
}
