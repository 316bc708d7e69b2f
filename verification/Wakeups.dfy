/** When the daemon can still hear of anything.

    Terminal notifications are handled after timer and monitor events only (src/runnerd_main.cpp), and a
    CANCEL can settle the last process without one.  The freed slot is then refilled only if some other
    event comes, and this module says exactly when none can come but clients' requests. */
module Wakeups {
  import opened Jobs
  import opened Kernel
  import opened MonitorSpec
  import opened MonitorInvariant
  import opened Deadlines
  import opened Machine
  import opened MachineInvariant
  import opened Histories
  import Ledger
  import Runs
  import Growth
  import PidReuse
  import opened Daemon

  /** Something other than a client may wake the daemon: an open pipe, a child that may exit, a timer that
      is set, or a SIGCHLD waiting to be read. */
  predicate WakeUp(os: Os) {
    os.files.open != map[] || os.children != map[] || os.timer.Armed? || os.sigchld
  }

  /** The process can still be heard of. */
  predicate Stirs(p: Proc, children: map<Pid, JobId>) {
    !p.out.eof || !p.err.eof || !p.startup.eof || p.pid in children
  }

  lemma StirringIff(m: Machine)
    requires Inv(m)
    ensures m.mon.os.files.open != map[] || m.mon.os.children != map[] <==>
      exists j :: j in m.mon.procs && Stirs(m.mon.procs[j], m.mon.os.children)
  {
    var mon := m.mon;
    hide TableOk, PipesOk, ChildrenOk, IndexOk, IdsOk, OutputOk, StatusOk, LedgerOk, LogOk, NoneComplete, QueueOk, SlotsOk, TimersOk, BooksOk, Stirs;
    OpenIsHeard(mon.procs, mon.os.files, mon.os.children);
    HeardIsOpen(mon.procs, mon.os.files, mon.os.children);
  }

  lemma OpenIsHeard(procs: map<JobId, Proc>, files: Files, children: map<Pid, JobId>)
    requires PipesOk(procs, files) && ChildrenOk(procs, children)
    ensures files.open != map[] || children != map[] ==> exists j :: j in procs && Stirs(procs[j], children)
  {
    if fd :| fd in files.open {
      var p := files.open[fd];
      assert EndOk(files, procs[p.job].At(p.kind), Pipe(p.job, p.kind, procs[p.job].pid));
      assert Stirs(procs[p.job], children);
    } else if pid :| pid in children {
      assert Stirs(procs[children[pid]], children);
    }
    HasKey(files.open);
    HasKey(children);
  }

  lemma HasKey<V>(m: map<int, V>)
    ensures m == map[] || exists k :: k in m
  {
    if forall k :: k !in m {
      assert m == map[];
    }
  }

  lemma HeardIsOpen(procs: map<JobId, Proc>, files: Files, children: map<Pid, JobId>)
    requires PipesOk(procs, files)
    ensures (exists j :: j in procs && Stirs(procs[j], children)) ==> files.open != map[] || children != map[]
  {
    if j :| j in procs && Stirs(procs[j], children) && procs[j].pid !in children {
      assert EndOk(files, procs[j].At(Stdout), Pipe(j, Stdout, procs[j].pid));
      assert EndOk(files, procs[j].At(Stderr), Pipe(j, Stderr, procs[j].pid));
      assert EndOk(files, procs[j].At(StartupError), Pipe(j, StartupError, procs[j].pid));
    }
  }

  /** In every run: while no live job was started with the id of an unsettled one, the daemon can be woken exactly if a process
      is live, the timer is set or a SIGCHLD is pending; and the timer is set if there is a deadline. */
  lemma WakeUpIff(max: nat, os: Os, events: seq<Event>)
    requires max > 0 && Fresh(os)
    ensures var m := Run(max, os, events);
      WakeUp(m.mon.os) <==> m.mon.os.timer.Armed? || m.mon.os.sigchld || exists j :: j in m.mon.procs && Stirs(m.mon.procs[j], m.mon.os.children)
    ensures var m := Run(max, os, events); var h := Runs.History(max, os, events);
      (forall j | j in m.mon.procs :: !Reusing(h, j)) ==>
        (WakeUp(m.mon.os) <==> m.mon.os.timer.Armed? || m.mon.os.sigchld || m.mon.procs != map[])
    ensures var m := Run(max, os, events); m.alive && !m.degraded && m.timers != map[] ==> m.mon.os.timer.Armed?
  {
    hide Run, Inv, Reused, Reusing, Stirs;
    RunKeeps(max, os, events);
    var m, h := Run(max, os, events), Runs.History(max, os, events);
    StirringIff(m);
    if m.timers != map[] {
      var j :| j in m.timers;
    }
    if forall j | j in m.mon.procs :: !Reusing(h, j) {
      forall j | j in m.mon.procs
        ensures Stirs(m.mon.procs[j], m.mon.os.children)
      {
        PidReuse.ExitsAreFound(max, os, events, j);
        Runs.FinishedProcessesAreSettled(max, os, events);
        IncompleteStirs(m.mon.procs[j], m.mon.os.children, j);
      }
    }
  }

  lemma IncompleteStirs(p: Proc, children: map<Pid, JobId>, j: JobId)
    requires !Complete(p) && (!p.exited ==> IsChild(children, p.pid, j))
    ensures Stirs(p, children)
  {
  }

  // ----- no client can help -----

  predicate FromClient(e: Event) {
    e.Submit? || e.Cancel?
  }

  /** All slots are taken and nothing but a client can wake the daemon. */
  ghost predicate Asleep(m: Machine) {
    Inv(m) && m.alive && |m.slots| == m.max && !WakeUp(m.mon.os)
  }

  /** Nobody has been taken from the queue, and who waited still does unless cancelled. */
  ghost predicate StillWaits(a: Machine, b: Machine, events: seq<Event>) {
    && b.slots == a.slots && b.mon.pending == a.mon.pending && b.max == a.max
    && Ledger.Of(b.mon.os.log).taken == Ledger.Of(a.mon.os.log).taken
    && forall j | j in a.waiting && Cancel(j) !in events :: j in b.waiting
  }

  lemma SubmitStep(m: Machine, spec: JobSpec)
    requires |m.slots| == m.max && !WakeUp(m.mon.os)
    ensures var r := DoSubmit(m, spec); r.alive == m.alive && !WakeUp(r.mon.os) && StillWaits(m, r, [Submit(spec)])
  {
    assert !CanPump(Enqueue(m, spec));
  }

  lemma WithdrawStep(m: Machine, j: JobId)
    requires !WakeUp(m.mon.os) && j in m.mon.jobs && m.mon.jobs[j].state.Queued? && Increasing(m.waiting)
    ensures var r := DoCancel(m, j); r.alive == m.alive && !WakeUp(r.mon.os) && StillWaits(m, r, [Cancel(j)])
  {
    RemoveSpec(m.waiting, j);
    assert Cancel(j) in [Cancel(j)];
  }

  lemma OrphanStep(m: Machine, j: JobId)
    requires !WakeUp(m.mon.os) && Orphaned(m.mon, j) && j in m.mon.jobs && m.mon.jobs[j].state.Running?
    ensures var r := DoCancel(m, j); r.alive == m.alive && !WakeUp(r.mon.os) && StillWaits(m, r, [Cancel(j)])
  {
    hide FinishExited, SendTerm, ScheduleForceKill;
    assert PollExit(m.mon, j) == m.mon.(os := Poll(m.mon.os, m.mon.procs[j].pid));
  }

  lemma ClientStep(m: Machine, e: Event)
    requires Asleep(m) && FromClient(e)
    ensures var r := Step(m, e); r.alive && !WakeUp(r.mon.os) && StillWaits(m, r, [e])
  {
    hide Inv, WakeUp, DoSubmit, Terminate;
    match e
    case Submit(spec) => SubmitStep(m, spec);
    case Cancel(j) =>
      if j in m.mon.jobs && m.mon.jobs[j].state.Queued? {
        QueuedIsWaiting(m, j);
        WithdrawStep(m, j);
      } else if j in m.mon.jobs && m.mon.jobs[j].state.Running? {
        SleeperIsOrphan(m, j);
        OrphanStep(m, j);
      }
    case _ =>
  }

  lemma SleeperIsOrphan(m: Machine, j: JobId)
    requires Asleep(m) && j in m.mon.jobs && m.mon.jobs[j].state.Running?
    ensures Orphaned(m.mon, j)
  {
    hide TableOk, PipesOk, ChildrenOk, IndexOk, IdsOk, OutputOk, StatusOk, LedgerOk, LogOk, QueueOk, SlotsOk, TimersOk, BooksOk;
    Known(m.mon, j);
    StirringIff(m);
    assert !Stirs(m.mon.procs[j], m.mon.os.children) && !Complete(m.mon.procs[j]);
  }

  /** However long clients go on, a daemon that is asleep takes no job from the queue. */
  lemma {:induction false} NoClientCanHelp(m: Machine, events: seq<Event>)
    requires Asleep(m) && Healthy(m) && forall e | e in events :: FromClient(e)
    ensures var r := PidReuse.Resume(m, events); Asleep(r) && StillWaits(m, r, events)
  {
    hide Inv, Step, WakeUp, Healthy, Ledger.Of;
    if events != [] {
      var init, e := events[..|events| - 1], events[|events| - 1];
      assert forall x | x in init :: x in events;
      NoClientCanHelp(m, init);
      PidReuse.ResumeKeeps(m, init);
      var mid := PidReuse.Resume(m, init);
      ClientStep(mid, e);
      StepKeeps(mid, e);
      assert events == init + [e];
    }
  }

  // ----- how a CANCEL puts the daemon to sleep -----

  /** What an attempt to stop `j` may do to the others and to the sources of wake-ups: it leaves all other jobs
      alone, closes pipes of `j` only, and waits for a child only if that leaves a SIGCHLD pending, which a
      job already marked as exited does not need. */
  ghost predicate StopsOnly(a: Mon, b: Mon, j: JobId) {
    && a.jobs.Keys == b.jobs.Keys && (forall i | i in a.jobs && i != j :: b.jobs[i] == a.jobs[i])
    && (forall i | i != j :: (i in b.procs <==> i in a.procs) && (i in a.procs ==> b.procs[i] == a.procs[i]))
    && (forall pid | pid in b.os.children :: pid in a.os.children)
    && (a.os.sigchld ==> b.os.sigchld)
    && (!b.os.sigchld ==> b.os.children == a.os.children)
    && (j in a.procs && a.procs[j].exited ==>
          b.os.sigchld == a.os.sigchld && b.os.children == a.os.children && (j in b.procs ==> b.procs[j].exited))
    && (!b.os.sigchld && j in a.procs && !a.procs[j].exited ==> j in b.procs && !b.procs[j].exited)
    && (j !in a.procs ==> j !in b.procs && b.os.sigchld == a.os.sigchld && b.os.children == a.os.children)
    && (forall fd | fd in b.os.files.open :: fd in a.os.files.open && b.os.files.open[fd] == a.os.files.open[fd])
    && (forall fd | fd in a.os.files.open && a.os.files.open[fd].job != j :: fd in b.os.files.open)
  }

  lemma StopsTransitive(a: Mon, b: Mon, c: Mon, j: JobId)
    requires StopsOnly(a, b, j) && StopsOnly(b, c, j)
    ensures StopsOnly(a, c, j)
  {
  }

  lemma {:induction false} PollStops(mon: Mon, j: JobId)
    requires j in mon.procs
    ensures StopsOnly(mon, PollExit(mon, j), j)
    decreases |mon.os.polls|
  {
    if !mon.procs[j].exited && NextPoll(mon.os, mon.procs[j].pid).PollInterrupted? {
      PollStops(mon.(os := Poll(mon.os, mon.procs[j].pid)), j);
    }
  }

  lemma DrainOnceStops(mon: Mon, j: JobId, k: Kind)
    requires Core(mon) && j in mon.procs && !mon.procs[j].At(k).eof
    ensures StopsOnly(mon, DrainOnce(mon, j, k), j)
  {
    hide Core, DrainOnce, EndOk, OnlyPipe;
    OwnPipe(mon, j, k);
    DrainOnceShape(mon, j, k);
  }

  lemma OwnPipe(mon: Mon, j: JobId, k: Kind)
    requires Core(mon) && j in mon.procs && !mon.procs[j].At(k).eof
    ensures EndOk(mon.os.files, mon.procs[j].At(k), Pipe(j, k, mon.procs[j].pid))
    ensures var fd := mon.procs[j].At(k).fd; fd in mon.os.files.open && mon.os.files.open[fd].job == j
  {
    hide Core;
    Live(mon, j);
    assert EndOk(mon.os.files, mon.procs[j].At(k), Pipe(j, k, mon.procs[j].pid));
  }

  lemma {:induction false} DrainStops(mon: Mon, j: JobId, k: Kind)
    requires Core(mon) && j in mon.procs && !mon.procs[j].At(k).eof
    ensures StopsOnly(mon, Drain(mon, j, k), j)
    decreases |mon.os.inputs|
  {
    hide Core, StopsOnly, DrainOnce, Quiet;
    var next := DrainOnce(mon, j, k);
    DrainOnceStops(mon, j, k);
    DrainOnceKeeps(mon, j, k);
    Shrinks(mon, j, k);
    if NextRead(mon.os).Data? || NextRead(mon.os).ReadInterrupted? {
      DrainStops(next, j, k);
      StopsTransitive(mon, next, Drain(next, j, k), j);
    }
  }

  lemma Shrinks(mon: Mon, j: JobId, k: Kind)
    requires j in mon.procs
    ensures mon.os.inputs != [] ==> |DrainOnce(mon, j, k).os.inputs| < |mon.os.inputs|
  {
  }

  lemma DrainOpenStops(mon: Mon, j: JobId, k: Kind)
    requires Core(mon) && j in mon.procs
    ensures StopsOnly(mon, DrainOpen(mon, j, k), j)
  {
    hide Core, Drain;
    EofIsClosed(mon, j, k);
    if mon.procs[j].At(k).fd != -1 {
      DrainStops(mon, j, k);
    }
  }

  lemma SettleStops(mon: Mon, j: JobId)
    requires j in mon.procs ==> mon.procs[j].exited
    ensures StopsOnly(mon, TryFinalize(mon, j), j)
  {
    hide Result;
  }

  lemma FinishStops(mon: Mon, j: JobId)
    requires MonInv(mon) && j in mon.procs
    ensures StopsOnly(mon, FinishExited(mon, j), j)
  {
    hide Core, NoneComplete, StopsOnly, PollExit, DrainOpen, Quiet, TryFinalize;
    PollStops(mon, j);
    PollKeeps(mon, j);
    var m0 := PollExit(mon, j);
    if m0.procs[j].exited {
      var m1 := DrainOpen(m0, j, Stdout);
      var m2 := DrainOpen(m1, j, Stderr);
      var m3 := DrainOpen(m2, j, StartupError);
      DrainOpenStops(m0, j, Stdout);
      DrainOpenKeeps(m0, j, Stdout);
      DrainOpenStops(m1, j, Stderr);
      DrainOpenKeeps(m1, j, Stderr);
      DrainOpenStops(m2, j, StartupError);
      DrainOpenKeeps(m2, j, StartupError);
      SettleStops(m3, j);
      StopsTransitive(mon, m0, m1, j);
      StopsTransitive(mon, m1, m2, j);
      StopsTransitive(mon, m2, m3, j);
      StopsTransitive(mon, m3, TryFinalize(m3, j), j);
    }
  }

  /** The parts of the state that signals and deadlines do not touch. */
  predicate SameBooks(a: Mon, b: Mon, j: JobId) {
    && a.jobs.Keys == b.jobs.Keys && (forall i | i in a.jobs && i != j :: b.jobs[i] == a.jobs[i])
    && b.procs == a.procs && b.os.children == a.os.children && b.os.sigchld == a.os.sigchld && b.os.files == a.os.files
  }

  lemma BooksStop(a: Mon, b: Mon, j: JobId)
    requires SameBooks(a, b, j)
    ensures StopsOnly(a, b, j) && (Orphaned(a, j) <==> Orphaned(b, j))
  {
  }

  lemma {:induction false} KillGroupBooks(os: Os, pid: Pid, j: JobId, signal: Signal, reason: Reason)
    ensures var r := KillGroup(os, pid, j, signal, reason).0;
      r.children == os.children && r.sigchld == os.sigchld && r.files == os.files && r.timer == os.timer
    decreases |os.kills|
  {
    if NextKill(os).KillInterrupted? {
      KillGroupBooks(KillOnce(os, pid, j, signal, reason), pid, j, signal, reason);
    }
  }

  lemma ForceKillStops(m: Machine, j: JobId, reason: Reason)
    requires Inv(m) && j in m.mon.procs && !Orphaned(m.mon, j)
    ensures var mon := ForceKill(m.mon, j, reason).0;
      StopsOnly(m.mon, mon, j) && !Orphaned(mon, j) && mon.os.timer == m.mon.os.timer
  {
    hide Core, NoneComplete, QueueOk, SlotsOk, TimersOk, BooksOk, FinishExited, KillGroup, StopsOnly, Quiet;
    FinishStops(m.mon, j);
    FinishLeavesChild(m.mon, j);
    var mid := FinishExited(m.mon, j);
    FinishKeeps(m.mon, j);
    QuietTimer(m.mon, mid);
    if j in mid.procs {
      KillGroupBooks(mid.os, mid.procs[j].pid, j, SigKill, reason);
      var mon := SendKill(mid, j, reason).0;
      BooksStop(mid, mon, j);
      StopsTransitive(m.mon, mid, mon, j);
    }
  }

  lemma QuietTimer(a: Mon, b: Mon)
    requires Quiet(a, b)
    ensures b.os.timer == a.os.timer
  {
  }

  lemma ScheduleBooks(m: Machine, j: JobId, ms: int)
    ensures var (r, ok) := Schedule(m, j, ms);
      && SameBooks(m.mon, r.mon, j) && (if ok then r.mon.os.timer.Armed? else r.mon.os.timer == m.mon.os.timer)
  {
    if m.generation != 0 {
      assert m.timers[j := Tick(m.mon.os).now + ToNs(ms)] != map[] by {
        assert j in m.timers[j := Tick(m.mon.os).now + ToNs(ms)];
      }
    }
  }

  /** What stopping a job does to the timer: nothing, unless the job stays and has a grace deadline. */
  predicate TimerAfter(a: Mon, b: Mon, j: JobId) {
    b.os.timer == a.os.timer || (b.os.timer.Armed? && j in b.procs)
  }

  lemma EscalateStops(m: Machine, j: JobId)
    requires Inv(Unschedule(m, j)) && j in m.mon.jobs && m.mon.jobs[j].state.Terminating? && j in m.slots && j in m.mon.procs && !Orphaned(m.mon, j)
    requires DeadlineOk(Ledger.Of(m.mon.os.log), m.mon.jobs[j], m.mon.os.now + ToNs(GRACE_MS)) && m.mon.jobs[j].id == j
    ensures var mon := ScheduleForceKill(m, j).0.mon;
      StopsOnly(m.mon, mon, j) && !Orphaned(mon, j) && TimerAfter(m.mon, mon, j)
  {
    hide Inv, Schedule, ForceKill, StopsOnly, DeadlineOk;
    var u := Unschedule(m, j);
    ScheduleBooks(u, j, GRACE_MS);
    var (s, ok) := Schedule(u, j, GRACE_MS);
    BooksStop(m.mon, s.mon, j);
    if !ok {
      assert Unschedule(u, j) == u;
      RunningOf(u, j);
      ScheduleKeeps(u, j, GRACE_MS);
      ForceKillStops(Unschedule(s, j), j, OnFallback);
      StopsTransitive(m.mon, s.mon, ForceKill(s.mon, j, OnFallback).0, j);
    }
  }

  lemma TerminateStops(m: Machine, j: JobId, cause: Cause)
    requires Inv(m) && j in m.mon.jobs && m.mon.jobs[j].state.Running? && !Orphaned(m.mon, j)
    requires Permits(Ledger.Of(m.mon.os.log), m.mon.os.now, j, cause)
    ensures var mon := Terminate(m, j, cause).0.mon;
      StopsOnly(m.mon, mon, j) && !Orphaned(mon, j) && TimerAfter(m.mon, mon, j)
  {
    hide Core, NoneComplete, QueueOk, SlotsOk, TimersOk, BooksOk, FinishExited, KillGroup, StopsOnly, Quiet, ScheduleForceKill, CanEscalate, PollExit, Permits;
    Known(m.mon, j);
    FinishStops(m.mon, j);
    FinishLeavesChild(m.mon, j);
    var mid := FinishExited(m.mon, j);
    FinishKeeps(m.mon, j);
    QuietTimer(m.mon, mid);
    if j in mid.procs && j in mid.jobs {
      KillGroupBooks(mid.os, mid.procs[j].pid, j, SigTerm, ReasonOf(cause));
      var (mon, a) := SendTerm(mid, j, cause);
      BooksStop(mid, mon, j);
      StopsTransitive(m.mon, mid, mon, j);
      if a.Delivered? {
        EscalationIsSound(m, j, cause);
        Escalates(m.(mon := mon), j);
        StopsTransitive(m.mon, mon, ScheduleForceKill(m.(mon := mon), j).0.mon, j);
      }
    }
  }

  lemma Escalates(m: Machine, j: JobId)
    requires CanEscalate(m, j) && j in m.mon.procs
    ensures var mon := ScheduleForceKill(m, j).0.mon;
      StopsOnly(m.mon, mon, j) && !Orphaned(mon, j) && TimerAfter(m.mon, mon, j)
  {
    EscalateStops(m, j);
  }

  /** The daemon could still be woken, but only by the pipes of `j`, whose exit is recorded. */
  predicate LastHope(m: Machine, j: JobId) {
    && j in m.mon.jobs && m.mon.jobs[j].state.Running? && j in m.mon.procs && m.mon.procs[j].exited
    && m.mon.os.children == map[] && m.mon.os.timer.Disarmed? && !m.mon.os.sigchld
    && forall fd | fd in m.mon.os.files.open :: m.mon.os.files.open[fd].job == j
  }

  /** CANCEL puts the daemon to sleep exactly if the job is its last hope and settles in the call, its pipes
      having ended. */
  lemma CancelSleepsIff(m: Machine, j: JobId)
    requires Inv(m) && WakeUp(m.mon.os)
    ensures var r := DoCancel(m, j); !WakeUp(r.mon.os) <==> LastHope(m, j) && j !in r.mon.procs
  {
    hide Inv, Terminate;
    if j in m.mon.jobs && m.mon.jobs[j].state.Running? {
      if Orphaned(m.mon, j) {
        OrphanStaysAwake(m, j);
      } else {
        StopSleepsIff(m, j);
      }
    }
  }

  lemma OrphanStaysAwake(m: Machine, j: JobId)
    requires WakeUp(m.mon.os) && Orphaned(m.mon, j)
    ensures WakeUp(Terminate(m, j, CauseCancelled).0.mon.os) && j in Terminate(m, j, CauseCancelled).0.mon.procs
  {
    hide FinishExited, SendTerm, ScheduleForceKill;
    assert PollExit(m.mon, j) == m.mon.(os := Poll(m.mon.os, m.mon.procs[j].pid));
  }

  lemma StopSleepsIff(m: Machine, j: JobId)
    requires Inv(m) && WakeUp(m.mon.os) && j in m.mon.jobs && m.mon.jobs[j].state.Running? && !Orphaned(m.mon, j)
    ensures var mon := Terminate(m, j, CauseCancelled).0.mon; !WakeUp(mon.os) <==> LastHope(m, j) && j !in mon.procs
  {
    hide Inv, Terminate, Affects, Requested, SameTimers, Covered;
    LiveOf(m, j);
    TerminateStops(m, j, CauseCancelled);
    TerminateKeeps(m, j, CauseCancelled);
    var r := Terminate(m, j, CauseCancelled).0;
    if j in r.mon.procs {
      LiveStirs(r, j);
    } else if LastHope(m, j) {
      forall fd | fd in r.mon.os.files.open
        ensures false
      {
        OpenIsLive(r, fd);
      }
      HasKey(r.mon.os.files.open);
    }
  }

  lemma LiveOf(m: Machine, j: JobId)
    requires Inv(m) && j in m.mon.jobs && m.mon.jobs[j].state.Running?
    ensures j in m.mon.procs
  {
    Known(m.mon, j);
  }

  lemma LiveStirs(m: Machine, j: JobId)
    requires Inv(m) && j in m.mon.procs && !Orphaned(m.mon, j)
    ensures WakeUp(m.mon.os)
  {
    StirringIff(m);
    assert !Complete(m.mon.procs[j]);
    hide TableOk, PipesOk, ChildrenOk, IndexOk, IdsOk, OutputOk, StatusOk, LedgerOk, LogOk, QueueOk, SlotsOk, TimersOk, BooksOk;
    assert Stirs(m.mon.procs[j], m.mon.os.children);
  }

  lemma OpenIsLive(m: Machine, fd: Fd)
    requires Inv(m) && fd in m.mon.os.files.open
    ensures m.mon.os.files.open[fd].job in m.mon.procs
  {
  }

  /** In every run: a daemon that has put itself to sleep while jobs wait never starts one of them, whatever clients
      ask; the state it sleeps in has its slots full. */
  lemma SleepIsForEver(max: nat, os: Os, events: seq<Event>, later: seq<Event>)
    requires max > 0 && Fresh(os) && forall e | e in later :: FromClient(e)
    requires var m := Run(max, os, events); m.alive && !m.degraded && m.waiting != [] && !WakeUp(m.mon.os)
    ensures var m := Run(max, os, events); var r := Run(max, os, events + later);
      && |m.slots| == max && r.alive && !WakeUp(r.mon.os) && StillWaits(m, r, later)
  {
    hide Run, Inv, WakeUp, Covered, StillWaits, PidReuse.Resume;
    RunKeeps(max, os, events);
    NoClientCanHelp(Run(max, os, events), later);
    RunThenResume(max, os, events, later);
  }

  lemma {:induction false} RunThenResume(max: nat, os: Os, events: seq<Event>, later: seq<Event>)
    ensures Run(max, os, events + later) == PidReuse.Resume(Run(max, os, events), later)
  {
    hide Step;
    if later == [] {
      assert events + later == events;
    } else {
      RunThenResume(max, os, events, later[..|later| - 1]);
      assert (events + later)[..|events + later| - 1] == events + later[..|later| - 1];
    }
  }

  /** While no live job was started with the id of an unsettled one and the timer could always be armed, the last hope is the only live process,
      and there is no deadline. */
  lemma LastHopeIsAlone(max: nat, os: Os, events: seq<Event>, j: JobId)
    requires max > 0 && Fresh(os) && Run(max, os, events).alive && !Run(max, os, events).degraded && LastHope(Run(max, os, events), j)
    requires var h := Runs.History(max, os, events); forall i | i in Run(max, os, events).mon.procs :: !Reusing(h, i)
    ensures var m := Run(max, os, events); m.mon.procs.Keys == {j} && m.timers == map[]
  {
    hide Run, Inv, Reused, Reusing;
    RunKeeps(max, os, events);
    WakeUpIff(max, os, events);
    Runs.FinishedProcessesAreSettled(max, os, events);
    var m := Run(max, os, events);
    forall i | i in m.mon.procs
      ensures i == j
    {
      PidReuse.ExitsAreFound(max, os, events, i);
      OpenPipeOf(m, i);
    }
  }

  lemma OpenPipeOf(m: Machine, i: JobId)
    requires Inv(m) && i in m.mon.procs
    ensures (m.mon.procs[i].out.eof && m.mon.procs[i].err.eof && m.mon.procs[i].startup.eof) ||
      exists fd :: fd in m.mon.os.files.open && m.mon.os.files.open[fd].job == i
  {
    hide Core, QueueOk, SlotsOk, TimersOk, BooksOk;
    if !m.mon.procs[i].At(Stdout).eof {
      OwnPipe(m.mon, i, Stdout);
    } else if !m.mon.procs[i].At(Stderr).eof {
      OwnPipe(m.mon, i, Stderr);
    } else if !m.mon.procs[i].At(StartupError).eof {
      OwnPipe(m.mon, i, StartupError);
    }
  }

  // ----- before the call -----

  /** One pipe ends if it is still open; the other ends are left alone. */
  lemma OpenEnds(mon: Mon, j: JobId, k: Kind)
    requires j in mon.procs && (mon.procs[j].At(k).fd == -1 <==> mon.procs[j].At(k).eof)
    requires mon.os.inputs != [] && forall x | x in mon.os.inputs :: x.EndOfFile?
    ensures var r := DrainOpen(mon, j, k);
      && r.procs[j].At(k).eof && (forall l | l != k :: r.procs[j].At(l) == mon.procs[j].At(l)) && r.procs[j].exited == mon.procs[j].exited
      && (r.os.inputs == mon.os.inputs || r.os.inputs == mon.os.inputs[1..]) && r.jobs == mon.jobs
  {
    if mon.procs[j].At(k).fd != -1 {
      assert mon.os.inputs[0] in mon.os.inputs;
      assert NextRead(mon.os).EndOfFile?;
      assert Drain(mon, j, k) == DrainOnce(mon, j, k);
    }
  }

  /** If all pipes of an exited job end, it settles. */
  lemma AllEndsSettle(mon: Mon, j: JobId)
    requires j in mon.procs && j in mon.jobs && mon.procs[j].exited && mon.os.inputs == [EndOfFile, EndOfFile, EndOfFile]
    requires forall k :: mon.procs[j].At(k).fd == -1 <==> mon.procs[j].At(k).eof
    ensures j !in FinishExited(mon, j).procs
  {
    hide DrainOpen, Result;
    OpenEnds(mon, j, Stdout);
    var m1 := DrainOpen(mon, j, Stdout);
    OpenEnds(m1, j, Stderr);
    var m2 := DrainOpen(m1, j, Stderr);
    OpenEnds(m2, j, StartupError);
    var m3 := DrainOpen(m2, j, StartupError);
    assert m3.procs[j].At(Stdout).eof && m3.procs[j].At(Stderr).eof && m3.procs[j].At(StartupError).eof;
  }

  lemma ClosedIsEnded(m: Machine, j: JobId)
    requires Inv(m) && j in m.mon.procs
    ensures forall k :: m.mon.procs[j].At(k).fd == -1 <==> m.mon.procs[j].At(k).eof
  {
    forall k
      ensures m.mon.procs[j].At(k).fd == -1 <==> m.mon.procs[j].At(k).eof
    {
      EofIsClosed(m.mon, j, k);
    }
  }

  /** Seen from before the call: CANCEL may put a waking daemon to sleep, if the kernel answers so, exactly if the
      job is the last hope. */
  lemma MaySleepIff(m: Machine, j: JobId)
    requires Inv(m) && Healthy(m) && WakeUp(m.mon.os)
    ensures LastHope(m, j) <==> exists s: Os :: !WakeUp(DoCancel(PidReuse.Answering(m, s), j).mon.os)
  {
    hide Inv, Healthy, DoCancel, FinishExited;
    forall s: Os
      ensures !WakeUp(DoCancel(PidReuse.Answering(m, s), j).mon.os) ==> LastHope(m, j)
    {
      PidReuse.AnsweringKeeps(m, s);
      CancelSleepsIff(PidReuse.Answering(m, s), j);
    }
    if LastHope(m, j) {
      var s := m.mon.os.(inputs := [EndOfFile, EndOfFile, EndOfFile]);
      var n := PidReuse.Answering(m, s);
      PidReuse.AnsweringKeeps(m, s);
      CancelSleepsIff(n, j);
      ClosedIsEnded(n, j);
      AllEndsSettle(n.mon, j);
      SettledInCancel(n, j);
      assert !WakeUp(DoCancel(PidReuse.Answering(m, s), j).mon.os);
    }
  }

  lemma SettledInCancel(m: Machine, j: JobId)
    requires j in m.mon.jobs && m.mon.jobs[j].state.Running? && j in m.mon.procs && m.mon.procs[j].exited && j !in FinishExited(m.mon, j).procs
    ensures j !in DoCancel(m, j).mon.procs
  {
    hide FinishExited;
  }

  // ----- nothing else puts the daemon to sleep -----

  lemma StartKeepsAwake(mon: Mon, j: JobId)
    requires j in mon.jobs && WakeUp(mon.os)
    ensures WakeUp(Start(mon, j).os)
  {
    var a := NextLaunch(mon.os);
    if a.LaunchFailed? {
      assert FailStart(mon.(os := Spawn(mon.os, j, a)), j).os.files == mon.os.files;
    } else {
      hide CanSpawn, WatchAll;
      var f := Forked(mon, j, a);
      assert a.pid in f.os.children;
      WatchAllFrame(f.os, 3);
    }
  }

  lemma PumpOnceKeepsAwake(m: Machine)
    requires CanPump(m) && WakeUp(m.mon.os)
    ensures WakeUp(PumpOnce(m).0.mon.os)
  {
    hide Start, Schedule;
    var j := m.waiting[0];
    var t := Take(m);
    StartKeepsAwake(t.mon, j);
    var u := t.(mon := Start(t.mon, j));
    if u.mon.jobs[j].spec.timeout.Some? {
      ScheduleBooks(u, j, u.mon.jobs[j].spec.timeout.value);
    }
  }

  lemma {:induction false} PumpKeepsAwake(m: Machine)
    requires WakeUp(m.mon.os)
    ensures WakeUp(Pump(m).0.mon.os)
    decreases |m.waiting|
  {
    hide PumpOnce, WakeUp;
    if CanPump(m) {
      PumpOnceKeepsAwake(m);
      Growth.PumpOnceShrinks(m);
      PumpKeepsAwake(PumpOnce(m).0);
    }
  }

  lemma SubmitKeepsAwake(m: Machine, spec: JobSpec)
    requires WakeUp(m.mon.os)
    ensures WakeUp(DoSubmit(m, spec).mon.os)
  {
    hide Pump;
    PumpKeepsAwake(Enqueue(m, spec));
  }

  /** An event that is not a CANCEL leaves a living daemon that was awake and has jobs waiting awake, unless every live
      process is one whose child was lost. */
  lemma OnlyCancelSleeps(max: nat, os: Os, events: seq<Event>, e: Event)
    requires max > 0 && Fresh(os) && !e.Cancel?
    requires var m := Run(max, os, events); var r := Run(max, os, events + [e]);
      WakeUp(m.mon.os) && r.alive && !r.degraded && r.waiting != [] && !WakeUp(r.mon.os)
    ensures var r := Run(max, os, events + [e]); r.mon.procs != map[] && forall j | j in r.mon.procs :: Orphaned(r.mon, j)
  {
    hide Run, Inv, Healthy, WakeUp, Covered;
    var m, r := Run(max, os, events), Run(max, os, events + [e]);
    RunSteps(max, os, events, e);
    RunKeeps(max, os, events);
    RunKeeps(max, os, events + [e]);
    NoPendingAfter(m, e);
    SlotsAreLive(r, max);
    forall j | j in r.mon.procs
      ensures Orphaned(r.mon, j)
    {
      if !Orphaned(r.mon, j) {
        LiveStirs(r, j);
      }
    }
  }

  lemma NoPendingAfter(m: Machine, e: Event)
    requires Inv(m) && Healthy(m) && !e.Cancel? && WakeUp(m.mon.os)
    ensures var r := Step(m, e); r.alive && !WakeUp(r.mon.os) ==> r.mon.pending == []
  {
    hide Inv, Healthy, Quiet, PipeEvent, Collect, DoSubmit, WakeUp, MonInv, Due, Later, ArmFor, Tick, Overdue, Covered, Expire;
    if m.alive {
      match e
      case Submit(spec) => SubmitKeepsAwake(m, spec);
      case PipeReady(fd) =>
        if fd in m.mon.os.files.open {
          MonitorIsSound(m);
          PipeEventKeeps(m.mon, fd);
          QuietKeeps(m, PipeEvent(m.mon, fd));
          DeliverKeeps(m.(mon := PipeEvent(m.mon, fd)));
        }
      case ChildSignal =>
        MonitorIsSound(m);
        CollectIsQuiet(m.mon);
        QuietKeeps(m, Collect(m.mon));
        DeliverKeeps(m.(mon := Collect(m.mon)));
      case TimerReady => TimerEmptiesPending(m);
      case _ =>
    }
  }

  lemma TimerEmptiesPending(m: Machine)
    requires Inv(m)
    ensures DoTimer(m).alive ==> DoTimer(m).mon.pending == []
  {
    hide Inv, Due, Later, ArmFor, Tick, Overdue, Covered, Expire, Deliver;
    var os := Tick(m.mon.os);
    var later, due := Later(m.timers, os.now), Due(m.timers, os.now);
    RearmKeeps(m, os, later, due);
    var t := m.(timers := later, mon := m.mon.(os := ArmFor(os, later)));
    ExpireKeeps(t, due);
    DeliverKeeps(Expire(t, due));
  }

  lemma SlotsAreLive(m: Machine, max: nat)
    requires Inv(m) && Healthy(m) && m.alive && !m.degraded && m.waiting != [] && m.mon.pending == [] && max > 0 && m.max == max
    ensures m.mon.procs != map[]
  {
    hide MonInv, QueueOk, TimersOk, BooksOk, Covered;
    var j :| j in m.slots;
    assert j in m.mon.procs;
  }
}
