/** How jobs change over a run, and that no job is forgotten on the way. */
module Progress {
  import opened Jobs
  import opened Kernel
  import opened MonitorSpec
  import opened MonitorInvariant
  import opened Deadlines
  import opened Machine
  import opened MachineInvariant
  import Ledger

  /** The deadline of `j` was there before, and the job is in the state it was in. */
  predicate OldDeadline(a: Machine, b: Machine, j: JobId)
    requires j in b.timers && j in b.mon.jobs
  {
    j in a.timers && b.timers[j] == a.timers[j] && j in a.mon.jobs && a.mon.jobs[j].state == b.mon.jobs[j].state
  }

  /** The deadline of `j` was set in between, when the job came to RUNNING or TERMINATING: the timeout in
      milliseconds, or one second, from a moment in between. */
  predicate NewDeadline(a: Machine, b: Machine, j: JobId)
    requires j in b.timers && j in b.mon.jobs
  {
    var job := b.mon.jobs[j];
    && (j in a.mon.jobs ==> a.mon.jobs[j].state != job.state)
    && match job.state
       case Running => job.spec.timeout.Some? &&
         a.mon.os.now + job.spec.timeout.value * 1_000_000 <= b.timers[j] <= b.mon.os.now + job.spec.timeout.value * 1_000_000
       case Terminating => a.mon.os.now + 1_000_000_000 <= b.timers[j] <= b.mon.os.now + 1_000_000_000
       case _ => true
  }

  ghost predicate Moves(a: Machine, b: Machine) {
    && a.mon.os.now <= b.mon.os.now
    && forall j | j in b.timers && j in b.mon.jobs && IsActive(b.mon.jobs[j].state) :: OldDeadline(a, b, j) || NewDeadline(a, b, j)
  }

  lemma MovesTransitive(a: Machine, b: Machine, c: Machine)
    requires Moves(a, b) && Moves(b, c) && Evolves(a.mon.jobs, b.mon.jobs) && Evolves(b.mon.jobs, c.mon.jobs)
    ensures Moves(a, c)
  {
    forall j | j in c.timers && j in c.mon.jobs && IsActive(c.mon.jobs[j].state)
      ensures OldDeadline(a, c, j) || NewDeadline(a, c, j)
    {
      assert OldDeadline(b, c, j) || NewDeadline(b, c, j);
      if OldDeadline(b, c, j) {
        assert OldDeadline(a, b, j) || NewDeadline(a, b, j);
        if NewDeadline(a, b, j) {
          assert b.mon.jobs[j].spec == c.mon.jobs[j].spec by { assert Evolved(b.mon.jobs[j], c.mon.jobs[j]); }
        }
      } else if j in a.mon.jobs {
        assert Evolved(a.mon.jobs[j], b.mon.jobs[j]) && Evolved(b.mon.jobs[j], c.mon.jobs[j]);
      }
    }
  }

  /** Jobs evolve, deadlines are set when they should be, and if every job was watched it still is. */
  ghost predicate Advances(a: Machine, b: Machine) {
    Evolves(a.mon.jobs, b.mon.jobs) && Moves(a, b) && (Watched(a, {}) ==> Watched(b, {}))
  }

  lemma AdvancesTransitive(a: Machine, b: Machine, c: Machine)
    requires Advances(a, b) && Advances(b, c)
    ensures Advances(a, c)
  {
    hide Watched, Evolves, Moves;
    EvolvesTransitive(a.mon.jobs, b.mon.jobs, c.mon.jobs);
    MovesTransitive(a, b, c);
  }

  lemma StartEvolves(a: Mon, b: Mon, j: JobId)
    requires j in a.jobs && a.jobs[j].state.Queued? && a.jobs[j].cause.None? && j in b.jobs && b.jobs == a.jobs[j := b.jobs[j]]
    requires b.jobs[j].id == a.jobs[j].id && b.jobs[j].spec == a.jobs[j].spec
    ensures Evolves(a.jobs, b.jobs)
  {
  }

  /** Setting a deadline brings the job itself under watch, or the daemon is degraded. */
  lemma ScheduleWatches(m: Machine, j: JobId, ms: int)
    requires Watched(m, {j})
    ensures var (r, ok) := Schedule(m, j, ms);
      r.mon.jobs == m.mon.jobs && (j in r.mon.jobs && r.mon.jobs[j].state.Running? ==> Watched(if ok then r else r.(degraded := true), {}))
  {
    hide TimerFor, Watched;
    var (r, ok) := Schedule(m, j, ms);
    WatchMore(m, r, j);
  }

  lemma WatchMore(m: Machine, r: Machine, j: JobId)
    requires Watched(m, {j}) && r.mon.jobs == m.mon.jobs && m.timers.Keys <= r.timers.Keys && r.degraded == m.degraded
    requires var l, l' := Ledger.Of(m.mon.os.log), Ledger.Of(r.mon.os.log); l'.killed == l.killed && l'.expired == l.expired
    ensures j in r.mon.jobs && r.mon.jobs[j].state.Running? ==> Watched(r.(degraded := true), {})
    ensures j in r.mon.jobs && r.mon.jobs[j].state.Running? && j in r.timers ==> Watched(r, {})
  {
    forall i | i in r.mon.jobs && i != j
      ensures WatchedJob(r.timers, Ledger.Of(r.mon.os.log), r.degraded, i, r.mon.jobs[i])
    {
      assert WatchedJob(m.timers, Ledger.Of(m.mon.os.log), m.degraded, i, m.mon.jobs[i]);
    }
  }

  lemma LaunchWatches(m: Machine, mon: Mon)
    requires CanPump(m) && StartShape(Take(m).mon, mon, m.waiting[0]) && Watched(m, {})
    ensures var j := m.waiting[0]; var t := Take(m).(mon := mon);
      && Watched(t, {j})
      && (IsTerminal(mon.jobs[j].state) ==> Watched(Release(t, j), {}))
      && (mon.jobs[j].spec.timeout.None? && mon.jobs[j].state.Running? ==> Watched(t, {}))
  {
    hide LosesNothing, LogOk;
    var j := m.waiting[0];
    forall i | i in mon.jobs && i != j
      ensures WatchedJob(m.timers, Ledger.Of(mon.os.log), m.degraded, i, mon.jobs[i])
    {
      assert WatchedJob(m.timers, Ledger.Of(m.mon.os.log), m.degraded, i, m.mon.jobs[i]);
    }
  }

  lemma PumpOnceAdvances(m: Machine)
    requires Inv(m) && CanPump(m)
    ensures Advances(m, PumpOnce(m).0)
  {
    hide Inv, Schedule, Start, LosesNothing, LogOk, Evolves, Watched;
    var j := m.waiting[0];
    QueuedHasNoCause(m, j);
    LaunchKeeps(m);
    var mon := Start(Take(m).mon, j);
    StartEvolves(m.mon, mon, j);
    if Watched(m, {}) {
      LaunchWatches(m, mon);
    }
    PumpOnceMoves(m);
    if !IsTerminal(mon.jobs[j].state) && mon.jobs[j].spec.timeout.Some? {
      if Watched(m, {}) {
        ScheduleWatches(Take(m).(mon := mon), j, mon.jobs[j].spec.timeout.value);
      }
      ScheduleJobs(Take(m).(mon := mon), j, mon.jobs[j].spec.timeout.value);
    }
  }

  /** The deadline of the job just started is its timeout from a moment in between. */
  lemma PumpOnceMoves(m: Machine)
    requires Inv(m) && CanPump(m)
    ensures Moves(m, PumpOnce(m).0)
  {
    hide Inv, Start, LosesNothing, LogOk, Schedule, Ledger.Of;
    var j := m.waiting[0];
    QueuedHasNoCause(m, j);
    LaunchKeeps(m);
    var t := Take(m).(mon := Start(Take(m).mon, j));
    if !IsTerminal(t.mon.jobs[j].state) && t.mon.jobs[j].spec.timeout.Some? {
      PositiveTimeout(t, j);
      ScheduleMoves(t, j, t.mon.jobs[j].spec.timeout.value);
    }
  }

  lemma PositiveTimeout(m: Machine, j: JobId)
    requires Inv(m) && j in m.mon.jobs && m.mon.jobs[j].spec.timeout.Some?
    ensures m.mon.jobs[j].spec.timeout.value > 0
  {
    Known(m.mon, j);
  }

  lemma ScheduleMoves(m: Machine, j: JobId, ms: int)
    ensures var r := Schedule(m, j, ms).0;
      && SameTimers(m.timers, r.timers, j) && r.mon.jobs == m.mon.jobs && m.mon.os.now <= r.mon.os.now
      && (ms > 0 && j !in m.timers && j in r.timers ==> m.mon.os.now + ms * 1_000_000 <= r.timers[j] <= r.mon.os.now + ms * 1_000_000)
  {
    hide TimerFor;
  }

  lemma ScheduleJobs(m: Machine, j: JobId, ms: int)
    ensures Schedule(m, j, ms).0.mon.jobs == m.mon.jobs
  {
  }

  lemma QueuedHasNoCause(m: Machine, j: JobId)
    requires Inv(m) && j in m.mon.jobs
    ensures m.mon.jobs[j].state.Queued? ==> m.mon.jobs[j].cause.None?
    ensures m.mon.jobs[j].id == j
  {
    Known(m.mon, j);
  }

  lemma {:induction false} PumpAdvances(m: Machine)
    requires Inv(m)
    ensures Advances(m, Pump(m).0)
    decreases |m.waiting|
  {
    hide Inv, Advances;
    SelfAdvances(m);
    if CanPump(m) {
      PumpOnceKeeps(m);
      PumpOnceAdvances(m);
      var (r, ok) := PumpOnce(m);
      if ok {
        PumpAdvances(r);
        AdvancesTransitive(m, r, Pump(r).0);
      }
    }
  }

  lemma SelfAdvances(m: Machine)
    ensures Advances(m, m)
  {
  }

  lemma RetireWatches(m: Machine)
    requires m.mon.pending != [] && Watched(m, {}) && m.mon.pending[0] in m.mon.jobs && IsTerminal(m.mon.jobs[m.mon.pending[0]].state)
    ensures Watched(Retire(m), {})
  {
    var r, j := Retire(m), m.mon.pending[0];
    forall i | i in r.mon.jobs
      ensures WatchedJob(r.timers, Ledger.Of(r.mon.os.log), r.degraded, i, r.mon.jobs[i])
    {
      assert WatchedJob(m.timers, Ledger.Of(m.mon.os.log), m.degraded, i, m.mon.jobs[i]);
    }
  }

  lemma OldestIsTerminal(m: Machine)
    requires Inv(m) && m.mon.pending != []
    ensures m.mon.pending[0] in m.mon.jobs && IsTerminal(m.mon.jobs[m.mon.pending[0]].state)
  {
    hide MonInv;
    RetireMon(m.mon);
  }

  lemma RetireMoves(m: Machine)
    requires m.mon.pending != []
    ensures Moves(m, Retire(m)) && Retire(m).mon.jobs == m.mon.jobs
  {
  }

  lemma RetireAdvances(m: Machine)
    requires Inv(m) && m.mon.pending != []
    ensures Advances(m, Retire(m))
  {
    hide Inv, Moves, Watched, Retire;
    OldestIsTerminal(m);
    RetireMoves(m);
    if Watched(m, {}) {
      RetireWatches(m);
    }
  }

  lemma DeadAdvances(a: Machine, b: Machine)
    requires Advances(a, b)
    ensures Advances(a, b.(alive := false))
  {
  }

  lemma {:induction false} DeliverAdvances(m: Machine)
    requires Inv(m)
    ensures Advances(m, Deliver(m))
    decreases |m.mon.pending|
  {
    SelfAdvances(m);
    hide Inv, Advances, Retire, Pump;
    if m.mon.pending != [] {
      RetireKeeps(m);
      RetireAdvances(m);
      RetireShrinks(m);
      var (r, ok) := Pump(Retire(m));
      PumpKeeps(Retire(m));
      PumpAdvances(Retire(m));
      AdvancesTransitive(m, Retire(m), r);
      DeadAdvances(m, r);
      if ok {
        DeliverAdvances(r);
        AdvancesTransitive(m, r, Deliver(r));
      }
    }
  }

  lemma RetireShrinks(m: Machine)
    requires m.mon.pending != []
    ensures |Pump(Retire(m)).0.mon.pending| < |m.mon.pending|
  {
  }

  /** Dealing with one job leaves the watch over the others intact. */
  lemma AffectsKeepsWatch(a: Machine, b: Machine, j: JobId, aside: set<JobId>)
    requires Affects(a.mon, b.mon, j) && SameTimers(a.timers, b.timers, j) && a.degraded == b.degraded
    requires Watched(a, aside) && j in b.mon.jobs
    requires WatchedJob(b.timers, Ledger.Of(b.mon.os.log), b.degraded, j, b.mon.jobs[j])
    ensures Watched(b, aside - {j})
  {
  }

  lemma {:induction false} ExpireAdvances(m: Machine, due: seq<JobId>)
    requires Inv(m) && Overdue(m, due)
    ensures var r := Expire(m, due);
      Evolves(m.mon.jobs, r.mon.jobs) && Moves(m, r) && (r.alive && Watched(m, Members(due)) ==> Watched(r, {}))
    decreases |due|
  {
    hide Moves, Inv, ExpireOne, Evolves, Overdue, Watched, WatchedJob, SameTimers, Covered;
    if due != [] {
      var j := due[0];
      OverdueHead(m, due);
      var (r, ok) := ExpireOne(m, j);
      ExpireOneKeeps(m, j);
      if ok && Watched(m, Members(due)) {
        AffectsKeepsWatch(m, r, j, Members(due));
        WatchedLess(r, Members(due) - {j}, Members(due[1..]));
      }
      ExpireOneMoves(m, j);
      AffectsEvolves(m.mon, r.mon, j);
      OverdueRest(m, r, due);
      if ok {
        ExpireAdvances(r, due[1..]);
        EvolvesTransitive(m.mon.jobs, r.mon.jobs, Expire(r, due[1..]).mon.jobs);
        MovesTransitive(m, r, Expire(r, due[1..]));
      } else {
        DeadMoves(m, r);
      }
    } else {
      SelfAdvances(m);
      assert Members(due) == {};
    }
  }

  lemma AffectsEvolves(a: Mon, b: Mon, j: JobId)
    requires Affects(a, b, j)
    ensures Evolves(a.jobs, b.jobs)
  {
  }

  lemma DeadMoves(a: Machine, b: Machine)
    requires Moves(a, b)
    ensures Moves(a, b.(alive := false))
  {
  }

  /** Everybody else's deadline is untouched, and that of `j` is accounted for. */
  lemma OneMoves(a: Machine, b: Machine, j: JobId)
    requires Affects(a.mon, b.mon, j) && SameTimers(a.timers, b.timers, j)
    requires j in b.timers && j in b.mon.jobs && IsActive(b.mon.jobs[j].state) ==> OldDeadline(a, b, j) || NewDeadline(a, b, j)
    ensures Moves(a, b)
  {
    hide Evolves;
  }

  /** After a request to stop a RUNNING job its deadline is the old one, or one second from the SIGTERM. */
  lemma TerminateDeadline(m: Machine, j: JobId, cause: Cause)
    requires Inv(m) && j in m.mon.jobs && m.mon.jobs[j].state.Running?
    ensures var r := Terminate(m, j, cause).0;
      j in r.timers && j in r.mon.jobs && IsActive(r.mon.jobs[j].state) ==> OldDeadline(m, r, j) || NewDeadline(m, r, j)
  {
    hide Inv, FinishExited, PollExit, KillGroup, Schedule, ForceKill;
    if !Orphaned(m.mon, j) {
      SignalTakesTime(m, j, cause);
      var (mon, a) := RequestTerminate(m.mon, j, cause);
      var t := m.(mon := mon);
      if a.Delivered? {
        assert j in mon.jobs && mon.jobs[j].state.Terminating?;
        ScheduleMoves(Unschedule(t, j), j, GRACE_MS);
        GraceIsASecond();
      }
    } else {
      OrphanIsQuiet(m, j);
    }
  }

  lemma GraceIsASecond()
    ensures GRACE_MS > 0 && GRACE_MS * 1_000_000 == 1_000_000_000
  {
  }

  lemma SignalTakesTime(m: Machine, j: JobId, cause: Cause)
    requires Inv(m) && j in m.mon.jobs && m.mon.jobs[j].state.Running? && !Orphaned(m.mon, j)
    ensures var (mon, a) := RequestTerminate(m.mon, j, cause);
      && m.mon.os.now <= mon.os.now && j in mon.jobs
      && (a.Delivered? ==> mon.jobs[j].state.Terminating?)
      && (!a.Delivered? ==> mon.jobs[j].state == m.mon.jobs[j].state || IsTerminal(mon.jobs[j].state))
  {
    hide Core, NoneComplete, QueueOk, SlotsOk, TimersOk, BooksOk, FinishExited, KillGroup, Quiet;
    Known(m.mon, j);
    FinishKeeps(m.mon, j);
    var mid := FinishExited(m.mon, j);
    QuietAffects(m.mon, mid, j);
    if j in mid.procs {
      QuietKeepsJob(m.mon, mid, j);
      KillTakesTime(mid.os, mid.procs[j].pid, j, SigTerm, ReasonOf(cause));
    }
  }

  lemma {:induction false} KillTakesTime(os: Os, pid: Pid, j: JobId, signal: Signal, reason: Reason)
    ensures os.now <= KillGroup(os, pid, j, signal, reason).0.now
    decreases |os.kills|
  {
    if NextKill(os).KillInterrupted? {
      KillTakesTime(KillOnce(os, pid, j, signal, reason), pid, j, signal, reason);
    }
  }

  lemma ExpireOneMoves(m: Machine, j: JobId)
    requires Inv(m) && Overdue(m, [j])
    ensures Moves(m, ExpireOne(m, j).0)
  {
    hide Inv, Terminate, ForceKill, Affects, SameTimers, Covered, WatchedJob, OldDeadline, NewDeadline;
    assert j in [j];
    ExpireOneKeeps(m, j);
    if m.mon.jobs[j].state.Running? {
      TerminateDeadline(m, j, CauseTimedOut);
    }
    OneMoves(m, ExpireOne(m, j).0, j);
  }

  lemma WatchedLess(m: Machine, a: set<JobId>, b: set<JobId>)
    requires Watched(m, a) && a <= b
    ensures Watched(m, b)
  {
  }

  lemma EnqueueAdvances(m: Machine, spec: JobSpec)
    requires m.nextId !in m.mon.jobs
    ensures Advances(m, Enqueue(m, spec))
  {
  }

  lemma SubmitAdvances(m: Machine, spec: JobSpec)
    requires Inv(m)
    ensures Advances(m, DoSubmit(m, spec))
  {
    hide Inv, Advances;
    if ValidSpec(spec) && m.nextId != 0 {
      EnqueueKeeps(m, spec);
      EnqueueAdvances(m, spec);
      PumpAdvances(Enqueue(m, spec));
      AdvancesTransitive(m, Enqueue(m, spec), DoSubmit(m, spec));
    } else {
      SelfAdvances(m);
    }
  }

  lemma WithdrawAdvances(m: Machine, j: JobId)
    requires j in m.mon.jobs && m.mon.jobs[j].state.Queued? && m.mon.jobs[j].cause.None?
    ensures Advances(m, DoCancel(m, j))
  {
  }

  /** A termination request that did not go through leaves the job watched as before. */
  lemma RequestedWatches(a: Machine, b: Machine, j: JobId)
    requires Requested(a, b, j, CauseCancelled) && Affects(a.mon, b.mon, j) && SameTimers(a.timers, b.timers, j) && a.degraded == b.degraded
    requires j in a.mon.jobs && a.mon.jobs[j].state.Running? && Moves(a, b)
    ensures Advances(a, b)
  {
    hide Moves;
    if Watched(a, {}) {
      assert WatchedJob(a.timers, Ledger.Of(a.mon.os.log), a.degraded, j, a.mon.jobs[j]);
      assert Evolved(a.mon.jobs[j], b.mon.jobs[j]);
      AffectsKeepsWatch(a, b, j, {});
      assert {} - {j} == {};
    }
  }

  lemma CancelAdvances(m: Machine, j: JobId)
    requires Inv(m)
    ensures Advances(m, DoCancel(m, j))
  {
    SelfAdvances(m);
    if j in m.mon.jobs {
      QueuedHasNoCause(m, j);
      hide Inv, Advances, Affects, SameTimers, Requested, Terminate;
      if m.mon.jobs[j].state.Queued? {
        WithdrawAdvances(m, j);
      } else if m.mon.jobs[j].state.Running? {
        TerminateKeeps(m, j, CauseCancelled);
        TerminateDeadline(m, j, CauseCancelled);
        OneMoves(m, Terminate(m, j, CauseCancelled).0, j);
        RequestedWatches(m, Terminate(m, j, CauseCancelled).0, j);
      }
    }
  }

  lemma RearmWatches(m: Machine, os: Os, later: Deadlines, due: seq<JobId>)
    requires os == Tick(m.mon.os) && later == Later(m.timers, os.now) && due == Due(m.timers, os.now) && Watched(m, {})
    ensures Watched(m.(timers := later, mon := m.mon.(os := ArmFor(os, later))), Members(due))
  {
  }

  lemma RearmMoves(m: Machine, t: Machine)
    requires var os := Tick(m.mon.os); var later := Later(m.timers, os.now); t == m.(timers := later, mon := m.mon.(os := ArmFor(os, later)))
    ensures Moves(m, t) && t.mon.jobs == m.mon.jobs
  {
    hide TimerFor;
  }

  lemma TimerAdvances(m: Machine)
    requires Inv(m)
    ensures var r := DoTimer(m);
      Evolves(m.mon.jobs, r.mon.jobs) && Moves(m, r) && (r.alive && Watched(m, {}) ==> Watched(r, {}))
  {
    hide Moves, Inv, Due, Later, ArmFor, Overdue, Tick, Watched, Evolves, Covered;
    var os := Tick(m.mon.os);
    var later, due := Later(m.timers, os.now), Due(m.timers, os.now);
    RearmKeeps(m, os, later, due);
    var t := m.(timers := later, mon := m.mon.(os := ArmFor(os, later)));
    if Watched(m, {}) {
      RearmWatches(m, os, later, due);
    }
    SelfAdvances(m);
    RearmMoves(m, t);
    DeadMoves(m, t);
    if NextArm(os) {
      ExpireKeeps(t, due);
      ExpireAdvances(t, due);
      var r := Expire(t, due);
      MovesTransitive(m, t, r);
      if r.alive {
        DeliverAdvances(r);
        EvolvesTransitive(m.mon.jobs, r.mon.jobs, Deliver(r).mon.jobs);
        MovesTransitive(m, r, Deliver(r));
      }
    }
  }

  lemma QuietAdvances(m: Machine, mon: Mon)
    requires Inv(m) && MonInv(mon) && Quiet(m.mon, mon)
    ensures Advances(m, m.(mon := mon))
  {
    QuietMoves(m, mon);
    hide Moves, MonInv, QueueOk, SlotsOk, TimersOk, BooksOk, Quiet, Evolves;
    QuietAffects(m.mon, mon, 0);
    if Watched(m, {}) {
      QuietWatches(m, mon);
    }
  }

  lemma QuietMoves(m: Machine, mon: Mon)
    requires Quiet(m.mon, mon)
    ensures Moves(m, m.(mon := mon))
  {
  }

  lemma QuietWatches(m: Machine, mon: Mon)
    requires Quiet(m.mon, mon) && Watched(m, {})
    ensures Watched(m.(mon := mon), {})
  {
    forall j | j in mon.jobs
      ensures WatchedJob(m.timers, Ledger.Of(mon.os.log), m.degraded, j, mon.jobs[j])
    {
      assert WatchedJob(m.timers, Ledger.Of(m.mon.os.log), m.degraded, j, m.mon.jobs[j]);
    }
  }

  lemma QuietEventAdvances(m: Machine, mon: Mon)
    requires Inv(m) && MonInv(mon) && Quiet(m.mon, mon)
    ensures Advances(m, Deliver(m.(mon := mon)))
  {
    hide MonInv, QueueOk, SlotsOk, TimersOk, BooksOk, Quiet, Advances;
    QuietAdvances(m, mon);
    QuietKeeps(m, mon);
    DeliverAdvances(m.(mon := mon));
    AdvancesTransitive(m, m.(mon := mon), Deliver(m.(mon := mon)));
  }

  ghost predicate AllWatched(m: Machine) {
    m.alive ==> Watched(m, {})
  }

  lemma StepAdvances(m: Machine, e: Event)
    requires Inv(m) && AllWatched(m)
    ensures Evolves(m.mon.jobs, Step(m, e).mon.jobs) && Moves(m, Step(m, e)) && AllWatched(Step(m, e))
  {
    hide Moves, MonInv, Quiet, QueueOk, SlotsOk, TimersOk, BooksOk, PipeEvent, Collect, DoSubmit, DoCancel, DoTimer, Watched, Evolves;
    SelfAdvances(m);
    if m.alive {
      match e
      case Submit(spec) => SubmitAdvances(m, spec);
      case Cancel(j) => CancelAdvances(m, j);
      case PipeReady(fd) =>
        PipeEventKeeps(m.mon, fd);
        QuietEventAdvances(m, PipeEvent(m.mon, fd));
      case ChildSignal =>
        CollectIsQuiet(m.mon);
        QuietEventAdvances(m, Collect(m.mon));
      case TimerReady => TimerAdvances(m);
    }
  }

  lemma {:induction false} RunWatches(max: nat, os: Os, events: seq<Event>)
    requires max > 0 && Fresh(os)
    ensures AllWatched(Run(max, os, events))
  {
    if events != [] {
      hide AllWatched, Step, Inv, Healthy;
      var before := events[..|events| - 1];
      RunWatches(max, os, before);
      RunKeeps(max, os, before);
      StepAdvances(Run(max, os, before), events[|events| - 1]);
    }
  }

  /** From any moment of a run to any later one. */
  lemma {:induction false} RunEvolves(max: nat, os: Os, events: seq<Event>, n: nat)
    requires max > 0 && Fresh(os) && n <= |events|
    ensures Evolves(Run(max, os, events[..n]).mon.jobs, Run(max, os, events).mon.jobs)
    decreases |events|
  {
    if n == |events| {
      assert events[..n] == events;
      SelfAdvances(Run(max, os, events));
    } else {
      hide AllWatched, Step, Inv, Healthy, Evolves;
      var before := events[..|events| - 1];
      assert before[..n] == events[..n];
      RunEvolves(max, os, before, n);
      RunWatches(max, os, before);
      RunKeeps(max, os, before);
      StepAdvances(Run(max, os, before), events[|events| - 1]);
      EvolvesTransitive(Run(max, os, events[..n]).mon.jobs, Run(max, os, before).mon.jobs, Run(max, os, events).mon.jobs);
    }
  }

  // ----- when deadlines fall -----

  /** Between two moments of a run the daemon only moves this way. */
  lemma {:induction false} RunMoves(max: nat, os: Os, events: seq<Event>, n: nat)
    requires max > 0 && Fresh(os) && n <= |events|
    ensures Moves(Run(max, os, events[..n]), Run(max, os, events))
    decreases |events|
  {
    hide AllWatched, Step, Inv, Healthy, Evolves, Moves;
    if n == |events| {
      assert events[..n] == events;
      SelfMoves(Run(max, os, events));
    } else {
      var init := events[..|events| - 1];
      assert init[..n] == events[..n];
      RunMoves(max, os, init, n);
      RunEvolves(max, os, init, n);
      RunWatches(max, os, init);
      RunKeeps(max, os, init);
      StepAdvances(Run(max, os, init), events[|events| - 1]);
      MovesTransitive(Run(max, os, events[..n]), Run(max, os, init), Run(max, os, events));
    }
  }

  lemma SelfMoves(m: Machine)
    ensures Moves(m, m)
  {
  }

  /** The deadline of a RUNNING job is its timeout, in milliseconds, from a moment of the event in which it came to
      RUNNING; that of a TERMINATING job one second from a moment of the event in which it came to TERMINATING. */
  lemma DeadlinesAreExact(max: nat, os: Os, events: seq<Event>, n: nat, j: JobId)
    requires max > 0 && Fresh(os) && 0 < n <= |events|
    requires var m := Run(max, os, events); j in m.timers && j in m.mon.jobs && IsActive(m.mon.jobs[j].state)
    requires var a, b, m := Run(max, os, events[..n - 1]), Run(max, os, events[..n]), Run(max, os, events);
      j in b.mon.jobs && b.mon.jobs[j].state == m.mon.jobs[j].state && (j in a.mon.jobs ==> a.mon.jobs[j].state != b.mon.jobs[j].state)
    ensures var a, b, m := Run(max, os, events[..n - 1]), Run(max, os, events[..n]), Run(max, os, events); var job := m.mon.jobs[j];
      match job.state
      case Running => job.spec.timeout.Some? &&
        a.mon.os.now + job.spec.timeout.value * 1_000_000 <= m.timers[j] <= b.mon.os.now + job.spec.timeout.value * 1_000_000
      case Terminating => a.mon.os.now + 1_000_000_000 <= m.timers[j] <= b.mon.os.now + 1_000_000_000
      case _ => true
  {
    hide Run, Evolves;
    var before, upto := events[..n - 1], events[..n];
    assert upto[..n - 1] == before;
    RunMoves(max, os, upto, n - 1);
    RunMoves(max, os, events, n);
    RunEvolves(max, os, events, n);
    var a, b, m := Run(max, os, before), Run(max, os, upto), Run(max, os, events);
    SameSpec(b.mon.jobs, m.mon.jobs, j);
    assert OldDeadline(b, m, j);
    assert OldDeadline(a, b, j) || NewDeadline(a, b, j);
  }

  lemma SameSpec(a: map<JobId, Job>, b: map<JobId, Job>, j: JobId)
    requires Evolves(a, b) && j in a && j in b
    ensures a[j].spec == b[j].spec
  {
    assert Evolved(a[j], b[j]);
  }
}
