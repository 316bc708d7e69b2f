/** When the daemon ends, and what a refused timer leaves behind (src/runnerd_main.cpp).

    An exception that leaves a timer or monitor event ends the daemon.  The causes are counted in the log,
    where the kernel's answers stand, and the theorem says that there are no others. */
module Endings {
  import opened Jobs
  import opened Kernel
  import opened MonitorSpec
  import opened MonitorInvariant
  import opened Deadlines
  import opened Machine
  import opened MachineInvariant
  import opened Histories
  import opened LostChild
  import opened Daemon
  import Ledger
  import Growth
  import PidReuse
  import Runs

  /** Signals the kernel refused with an error the source does not handle. */
  function Denials(log: Log): nat {
    match log
    case Empty => 0
    case Then(earlier, last) => Denials(earlier) + if last.Signalled? && last.answer.Denied? then 1 else 0
  }

  /** Deadlines that could not be set for a job not yet sent SIGTERM: execution deadlines of jobs just started. */
  function Unarmed(log: Log): nat {
    match log
    case Empty => 0
    case Then(earlier, last) => Unarmed(earlier) + if last.Refused? && last.job !in Ledger.Of(earlier).terminated then 1 else 0
  }

  predicate Counts(a: Log, b: Log, denials: nat, unarmed: nat) {
    Denials(b) == Denials(a) + denials && Unarmed(b) == Unarmed(a) + unarmed
  }

  // ----- the process monitor -----

  lemma {:induction false} PollCounts(mon: Mon, j: JobId)
    requires j in mon.procs
    ensures Counts(mon.os.log, PollExit(mon, j).os.log, 0, 0)
    decreases |mon.os.polls|
  {
    if !mon.procs[j].exited && NextPoll(mon.os, mon.procs[j].pid).PollInterrupted? {
      PollCounts(mon.(os := Poll(mon.os, mon.procs[j].pid)), j);
    }
  }

  lemma FinishCounts(mon: Mon, j: JobId)
    requires j in mon.procs
    ensures Counts(mon.os.log, FinishExited(mon, j).os.log, 0, 0)
  {
    hide Drain, PollExit, Result;
    PollCounts(mon, j);
    var m0 := PollExit(mon, j);
    if m0.procs[j].exited {
      Growth.DrainOpenGrows(m0, j, Stdout);
      var m1 := DrainOpen(m0, j, Stdout);
      Growth.DrainOpenGrows(m1, j, Stderr);
      Growth.DrainOpenGrows(DrainOpen(m1, j, Stderr), j, StartupError);
    }
  }

  lemma PipeEventCounts(mon: Mon, fd: Fd)
    ensures Counts(mon.os.log, PipeEvent(mon, fd).os.log, 0, 0)
  {
    hide Drain, Result;
    if fd in mon.os.files.open && mon.os.files.open[fd].job in mon.procs {
      Growth.DrainGrows(mon, mon.os.files.open[fd].job, mon.os.files.open[fd].kind);
    }
  }

  lemma ReapOnceCounts(mon: Mon)
    ensures Counts(mon.os.log, ReapOnce(mon).os.log, 0, 0)
  {
    hide Result;
    assert Counts(mon.os.log, Reap(mon.os).log, 0, 0);
  }

  lemma {:induction false} ReapCounts(mon: Mon)
    ensures Counts(mon.os.log, ReapAll(mon).os.log, 0, 0)
    decreases |mon.os.reaps|
  {
    ReapOnceCounts(mon);
    hide ReapOnce;
    if !NextReap(mon.os).NoneReady? {
      Growth.ReapOnceShrinks(mon);
      ReapCounts(ReapOnce(mon));
    }
  }

  lemma {:induction false} KillCounts(os: Os, pid: Pid, j: JobId, signal: Signal, reason: Reason)
    ensures var (r, a) := KillGroup(os, pid, j, signal, reason); Counts(os.log, r.log, if a.Denied? then 1 else 0, 0)
    decreases |os.kills|
  {
    if NextKill(os).KillInterrupted? {
      KillCounts(KillOnce(os, pid, j, signal, reason), pid, j, signal, reason);
    }
  }

  lemma RequestCounts(mon: Mon, j: JobId, cause: Cause)
    ensures var (r, a) := RequestTerminate(mon, j, cause); Counts(mon.os.log, r.os.log, if a.Rejected? then 1 else 0, 0)
  {
    hide FinishExited, PollExit, KillGroup;
    if j in mon.procs {
      FinishCounts(mon, j);
      PollCounts(mon, j);
      var mid := FinishExited(mon, j);
      if j in mid.procs {
        KillCounts(mid.os, mid.procs[j].pid, j, SigTerm, ReasonOf(cause));
      }
    }
  }

  lemma ForceKillCounts(mon: Mon, j: JobId, reason: Reason)
    ensures var (r, a) := ForceKill(mon, j, reason); Counts(mon.os.log, r.os.log, if a.Rejected? then 1 else 0, 0)
  {
    hide FinishExited, PollExit, KillGroup;
    if j in mon.procs {
      FinishCounts(mon, j);
      PollCounts(mon, j);
      var mid := FinishExited(mon, j);
      if j in mid.procs {
        KillCounts(mid.os, mid.procs[j].pid, j, SigKill, reason);
      }
    }
  }

  lemma StartCounts(mon: Mon, j: JobId)
    requires j in mon.jobs
    ensures Counts(mon.os.log, Start(mon, j).os.log, 0, 0)
  {
    hide Start;
    Growth.StartLog(mon, j);
  }

  // ----- starting and settling -----

  lemma ScheduleCounts(m: Machine, j: JobId, ms: int)
    ensures var (r, ok) := Schedule(m, j, ms);
      Counts(m.mon.os.log, r.mon.os.log, 0, if !ok && j !in Ledger.Of(m.mon.os.log).terminated then 1 else 0)
  {
    hide ArmFor;
    Growth.ArmGrows(Tick(m.mon.os), TrySchedule(m, j, ms).0.timers);
  }

  /** A timer was refused for a job that was just started exactly if the scheduler loop was left by an exception. */
  ghost predicate PumpCount(a: Machine, b: Machine, ok: bool) {
    Counts(a.mon.os.log, b.mon.os.log, 0, if ok then 0 else 1) && b.degraded == (a.degraded || !ok) && b.alive == a.alive
  }

  lemma PumpOnceCounts(m: Machine)
    requires Inv(m) && CanPump(m)
    ensures var (r, ok) := PumpOnce(m); PumpCount(m, r, ok)
  {
    hide Inv, Start, StartShape, Schedule, Ledger.Of;
    var j := m.waiting[0];
    LaunchKeeps(m);
    StartCounts(Take(m).mon, j);
    var t := Take(m).(mon := Start(Take(m).mon, j));
    assert Counts(m.mon.os.log, t.mon.os.log, 0, 0);
    if IsTerminal(t.mon.jobs[j].state) {
      assert Counts(t.mon.os.log, Release(t, j).mon.os.log, 0, 0);
    } else if t.mon.jobs[j].spec.timeout.Some? {
      NotTerminated(t, j);
      ScheduleCounts(t, j, t.mon.jobs[j].spec.timeout.value);
      ScheduleFrame(t, j, t.mon.jobs[j].spec.timeout.value);
    }
  }

  lemma ScheduleFrame(m: Machine, j: JobId, ms: int)
    ensures SameQueue(m, Schedule(m, j, ms).0)
  {
  }

  lemma NotTerminated(m: Machine, j: JobId)
    requires Inv(m) && j in m.mon.jobs && m.mon.jobs[j].state.Running?
    ensures j !in Ledger.Of(m.mon.os.log).terminated
  {
    Known(m.mon, j);
  }

  lemma {:induction false} PumpCounts(m: Machine)
    requires Inv(m)
    ensures var (r, ok) := Pump(m); PumpCount(m, r, ok)
    decreases |m.waiting|
  {
    hide Inv, PumpOnce;
    if CanPump(m) {
      PumpOnceCounts(m);
      PumpOnceKeeps(m);
      Growth.PumpOnceShrinks(m);
      if PumpOnce(m).1 {
        PumpCounts(PumpOnce(m).0);
      }
    }
  }

  lemma RetireCounts(m: Machine)
    requires m.mon.pending != []
    ensures var r := Retire(m);
      Counts(m.mon.os.log, r.mon.os.log, 0, 0) && r.alive == m.alive && r.degraded == m.degraded && |r.mon.pending| < |m.mon.pending|
  {
  }

  lemma {:induction false} DeliverCounts(m: Machine)
    requires Inv(m) && m.alive
    ensures var r := Deliver(m);
      Counts(m.mon.os.log, r.mon.os.log, 0, if r.alive then 0 else 1) && r.degraded == (m.degraded || !r.alive)
    decreases |m.mon.pending|
  {
    if m.mon.pending != [] {
      RetireThenPump(m);
      hide Inv, Pump, Retire;
      var (r, ok) := Pump(Retire(m));
      if ok {
        DeliverCounts(r);
        AddCounts(m.mon.os.log, r.mon.os.log, Deliver(r).mon.os.log, if Deliver(r).alive then 0 else 1);
      }
    }
  }

  lemma AddCounts(a: Log, b: Log, c: Log, n: nat)
    requires Counts(a, b, 0, 0) && Counts(b, c, 0, n)
    ensures Counts(a, c, 0, n)
  {
  }

  lemma RetireThenPump(m: Machine)
    requires Inv(m) && m.mon.pending != []
    ensures var (r, ok) := Pump(Retire(m));
      && Inv(r) && Counts(m.mon.os.log, r.mon.os.log, 0, if ok then 0 else 1)
      && r.alive == m.alive && r.degraded == (m.degraded || !ok) && |r.mon.pending| < |m.mon.pending|
  {
    hide Inv, Pump, Retire;
    RetireKeeps(m);
    RetireCounts(m);
    PumpKeeps(Retire(m));
    PumpCounts(Retire(m));
    Growth.PumpKeepsPending(Retire(m));
  }

  // ----- stopping -----

  lemma EscalateCounts(m: Machine, j: JobId)
    requires CanEscalate(m, j) && j in Ledger.Of(m.mon.os.log).terminated
    ensures var (r, ok) := ScheduleForceKill(m, j); Counts(m.mon.os.log, r.mon.os.log, if ok then 0 else 1, 0)
  {
    hide CanEscalate, Schedule, ForceKill;
    FallbackIsSound(m, j);
    ScheduleCounts(Unschedule(m, j), j, GRACE_MS);
    var s := Schedule(Unschedule(m, j), j, GRACE_MS).0;
    ForceKillCounts(s.mon, j, OnFallback);
    KillRaises(s.mon, j, OnFallback);
  }

  lemma TerminateCounts(m: Machine, j: JobId, cause: Cause)
    requires Inv(m) && j in m.mon.jobs && m.mon.jobs[j].state.Running? && Permits(Ledger.Of(m.mon.os.log), m.mon.os.now, j, cause)
    ensures var (r, a, ok) := Terminate(m, j, cause);
      && Unarmed(r.mon.os.log) == Unarmed(m.mon.os.log) && Denials(r.mon.os.log) >= Denials(m.mon.os.log)
      && (ok <==> Denials(r.mon.os.log) == Denials(m.mon.os.log) && !Orphaned(m.mon, j))
  {
    hide Inv, RequestTerminate, ScheduleForceKill, Permits, CanEscalate;
    RequestCounts(m.mon, j, cause);
    TermRaises(m.mon, j, cause);
    var (mon, a) := RequestTerminate(m.mon, j, cause);
    if a.Delivered? {
      EscalationIsSound(m, j, cause);
      EscalationIsTerminated(m.(mon := mon), j);
      EscalateCounts(m.(mon := mon), j);
    }
  }

  lemma EscalationIsTerminated(m: Machine, j: JobId)
    requires CanEscalate(m, j)
    ensures j in Ledger.Of(m.mon.os.log).terminated
  {
    hide Core, NoneComplete, QueueOk, SlotsOk, TimersOk, BooksOk;
    assert MonInv(Unschedule(m, j).mon);
    Known(Unschedule(m, j).mon, j);
  }

  lemma ExpireOneCounts(m: Machine, j: JobId)
    requires Inv(m) && Overdue(m, [j])
    ensures var (r, ok) := ExpireOne(m, j);
      && Unarmed(r.mon.os.log) == Unarmed(m.mon.os.log) && Denials(r.mon.os.log) >= Denials(m.mon.os.log)
      && (ok <==> Denials(r.mon.os.log) == Denials(m.mon.os.log) && !IsLost(m, j))
  {
    hide Inv, Terminate, ForceKill, Permits, Overdue;
    if j in m.mon.jobs && m.mon.jobs[j].state.Running? {
      ExpiryIsSound(m, j);
      TerminateCounts(m, j, CauseTimedOut);
    } else if j in m.mon.jobs && m.mon.jobs[j].state.Terminating? {
      ForceKillCounts(m.mon, j, OnGrace);
      KillRaises(m.mon, j, OnGrace);
    }
  }

  /** Some expired job is lost when its turn comes. */
  ghost predicate LostTurn(m: Machine, due: seq<JobId>)
    decreases |due|
  {
    due != [] && (IsLost(m, due[0]) || LostTurn(ExpireOne(m, due[0]).0, due[1..]))
  }

  lemma {:induction false} ExpireCounts(m: Machine, due: seq<JobId>)
    requires Inv(m) && Overdue(m, due) && m.alive
    ensures var r := Expire(m, due);
      && Unarmed(r.mon.os.log) == Unarmed(m.mon.os.log) && Denials(r.mon.os.log) >= Denials(m.mon.os.log) && r.degraded == m.degraded
      && (r.alive ==> Denials(r.mon.os.log) == Denials(m.mon.os.log) && !LostTurn(m, due))
      && (!r.alive ==> Denials(r.mon.os.log) > Denials(m.mon.os.log) || LostTurn(m, due))
    decreases |due|
  {
    hide Inv, ExpireOne, Overdue, Affects, SameTimers, Covered, IsLost;
    if due != [] {
      OverdueHead(m, due);
      ExpireOneKeeps(m, due[0]);
      ExpireOneCounts(m, due[0]);
      var (r, ok) := ExpireOne(m, due[0]);
      OverdueRest(m, r, due);
      if ok {
        ExpireCounts(r, due[1..]);
      }
    }
  }

  // ----- events -----

  /** The deadlines that expire at a timer event, and the daemon about to handle them. */
  ghost function Expiring(m: Machine): (r: (Machine, seq<JobId>)) {
    var os := Tick(m.mon.os);
    var later := Later(m.timers, os.now);
    (m.(timers := later, mon := m.mon.(os := ArmFor(os, later))), Due(m.timers, os.now))
  }

  /** What ends the daemon: during a timer or monitor event the timer was refused for a job just started; or, in a
      timer event, the timer was refused for the event itself, a signal was refused, or a lost job's turn came. */
  ghost predicate IsFatal(m: Machine, e: Event, r: Machine) {
    match e
    case Submit(_) => false
    case Cancel(_) => false
    case PipeReady(_) => Unarmed(r.mon.os.log) > Unarmed(m.mon.os.log)
    case ChildSignal => Unarmed(r.mon.os.log) > Unarmed(m.mon.os.log)
    case TimerReady =>
      || Unarmed(r.mon.os.log) > Unarmed(m.mon.os.log)
      || !NextArm(m.mon.os)
      || Denials(r.mon.os.log) > Denials(m.mon.os.log)
      || LostTurn(Expiring(m).0, Expiring(m).1)
  }

  lemma TimerEndsIff(m: Machine)
    requires Inv(m) && m.alive
    ensures !DoTimer(m).alive <==> IsFatal(m, TimerReady, DoTimer(m))
    ensures Unarmed(DoTimer(m).mon.os.log) >= Unarmed(m.mon.os.log)
    ensures DoTimer(m).degraded == (m.degraded || Unarmed(DoTimer(m).mon.os.log) > Unarmed(m.mon.os.log))
  {
    hide Inv, Expire, Deliver, Due, Later, ArmFor, Overdue, Tick, LostTurn, Covered;
    var os := Tick(m.mon.os);
    var (t, due) := Expiring(m);
    RearmKeeps(m, os, Later(m.timers, os.now), due);
    ArmCounts(m, t);
    if NextArm(os) {
      ExpireKeeps(t, due);
      ExpireCounts(t, due);
      var r := Expire(t, due);
      if r.alive {
        DeliverCounts(r);
      }
    }
  }

  lemma ArmCounts(m: Machine, t: Machine)
    requires t == Expiring(m).0
    ensures t.mon.os.log == m.mon.os.log && (NextArm(Tick(m.mon.os)) <==> NextArm(m.mon.os)) && t.alive == m.alive && t.degraded == m.degraded
  {
  }

  lemma MonitorEndsIff(m: Machine, mon: Mon)
    requires Inv(m) && m.alive && MonInv(mon) && Quiet(m.mon, mon) && Counts(m.mon.os.log, mon.os.log, 0, 0)
    ensures var r := Deliver(m.(mon := mon));
      && (!r.alive <==> Unarmed(r.mon.os.log) > Unarmed(m.mon.os.log)) && Unarmed(r.mon.os.log) >= Unarmed(m.mon.os.log)
      && r.degraded == (m.degraded || Unarmed(r.mon.os.log) > Unarmed(m.mon.os.log))
  {
    hide Inv, Quiet, Deliver;
    QuietKeeps(m, mon);
    DeliverCounts(m.(mon := mon));
  }

  /** An event ends a living daemon for one of these reasons and for no other; and the timer was refused for a job just
      started exactly if the daemon is degraded. */
  lemma EndsIff(m: Machine, e: Event)
    requires Inv(m) && m.alive
    ensures var r := Step(m, e);
      && (!r.alive <==> IsFatal(m, e, r)) && Unarmed(r.mon.os.log) >= Unarmed(m.mon.os.log)
      && r.degraded == (m.degraded || Unarmed(r.mon.os.log) > Unarmed(m.mon.os.log))
  {
    hide Inv, Quiet, PipeEvent, ReapAll, DoSubmit, DoCancel, DoTimer, Deliver, LostTurn, Expiring, Collect;
    match e
    case Submit(spec) => SubmitCounts(m, spec);
    case Cancel(j) => CancelCounts(m, j);
    case PipeReady(fd) =>
      PipeEventIsSound(m, fd);
      PipeEventCounts(m.mon, fd);
      MonitorEndsIff(m, PipeEvent(m.mon, fd));
    case ChildSignal =>
      MonitorIsSound(m);
      CollectIsQuiet(m.mon);
      CollectCounts(m.mon);
      MonitorEndsIff(m, Collect(m.mon));
    case TimerReady => TimerEndsIff(m);
  }

  lemma PipeEventIsSound(m: Machine, fd: Fd)
    requires Inv(m)
    ensures MonInv(PipeEvent(m.mon, fd)) && Quiet(m.mon, PipeEvent(m.mon, fd))
  {
    hide MonInv, Quiet, PipeEvent;
    MonitorIsSound(m);
    PipeEventKeeps(m.mon, fd);
  }

  lemma CollectCounts(mon: Mon)
    ensures Counts(mon.os.log, Collect(mon).os.log, 0, 0)
  {
    ReapCounts(mon.(os := ReadSignals(mon.os)));
  }

  lemma SubmitCounts(m: Machine, spec: JobSpec)
    requires Inv(m)
    ensures var r := DoSubmit(m, spec);
      && r.alive == m.alive && Unarmed(r.mon.os.log) >= Unarmed(m.mon.os.log)
      && r.degraded == (m.degraded || Unarmed(r.mon.os.log) > Unarmed(m.mon.os.log))
  {
    hide Inv, Pump;
    if ValidSpec(spec) && m.nextId != 0 {
      EnqueueKeeps(m, spec);
      PumpCounts(Enqueue(m, spec));
    }
  }

  lemma CancelCounts(m: Machine, j: JobId)
    requires Inv(m)
    ensures var r := DoCancel(m, j);
      r.alive == m.alive && Unarmed(r.mon.os.log) == Unarmed(m.mon.os.log) && r.degraded == m.degraded
  {
    hide Inv, Terminate, Affects, Requested, SameTimers, Covered;
    if j in m.mon.jobs && m.mon.jobs[j].state.Running? {
      TerminateKeeps(m, j, CauseCancelled);
      TerminateCounts(m, j, CauseCancelled);
    }
  }

  // ----- whole runs -----

  /** No job was sent SIGTERM before its deadline was refused: it was an execution deadline. */
  ghost predicate RefusedAtStart(h: seq<Record>, k: nat) {
    k < |h| && h[k].Refused? && forall t | 0 <= t < k :: !IsTerm(h[t], h[k].job)
  }

  ghost predicate AnyRefusedAtStart(h: seq<Record>) {
    exists k: nat :: RefusedAtStart(h, k)
  }

  lemma {:induction false} TerminatedIsHistory(log: Log, j: JobId)
    ensures j in Ledger.Of(log).terminated <==> exists t :: 0 <= t < |Trace(log)| && IsTerm(Trace(log)[t], j)
  {
    if log.Then? {
      TerminatedIsHistory(log.earlier, j);
      var h, g := Trace(log), Trace(log.earlier);
      assert forall t | 0 <= t < |g| :: h[t] == g[t];
      assert h[|g|] == log.last;
    }
  }

  lemma {:induction false} UnarmedIsHistory(log: Log)
    ensures Unarmed(log) > 0 <==> AnyRefusedAtStart(Trace(log))
  {
    if log.Then? {
      hide AnyRefusedAtStart, IsTerm;
      UnarmedIsHistory(log.earlier);
      SnocRefusal(Trace(log.earlier), log.last);
      if log.last.Refused? {
        TerminatedIsHistory(log.earlier, log.last.job);
      }
    }
  }

  lemma SnocRefusal(g: seq<Record>, r: Record)
    ensures AnyRefusedAtStart(g + [r]) <==>
      AnyRefusedAtStart(g) || (r.Refused? && forall t | 0 <= t < |g| :: !IsTerm(g[t], r.job))
  {
    var h := g + [r];
    if k: nat :| RefusedAtStart(g, k) {
      assert RefusedAtStart(h, k);
    }
    if r.Refused? && forall t | 0 <= t < |g| :: !IsTerm(g[t], r.job) {
      assert RefusedAtStart(h, |g|);
    }
    if k: nat :| RefusedAtStart(h, k) {
      assert forall t | 0 <= t < k :: h[t] == g[t];
      assert k < |g| ==> RefusedAtStart(g, k);
    }
  }

  /** The daemon is degraded exactly if an execution deadline could not be set at some time. */
  lemma DegradedIff(max: nat, os: Os, events: seq<Event>)
    requires max > 0 && Fresh(os)
    ensures Run(max, os, events).degraded <==> AnyRefusedAtStart(Runs.History(max, os, events))
  {
    hide Run, AnyRefusedAtStart, Unarmed;
    DegradedIsCounted(max, os, events);
    UnarmedIsHistory(Run(max, os, events).mon.os.log);
  }

  lemma {:induction false} DegradedIsCounted(max: nat, os: Os, events: seq<Event>)
    requires max > 0 && Fresh(os)
    ensures Run(max, os, events).degraded <==> Unarmed(Run(max, os, events).mon.os.log) > 0
  {
    hide Inv, Step, IsFatal, Unarmed;
    if events == [] {
      NothingRefused(max, os);
    } else {
      var init := events[..|events| - 1];
      DegradedIsCounted(max, os, init);
      RunKeeps(max, os, init);
      if Run(max, os, init).alive {
        EndsIff(Run(max, os, init), events[|events| - 1]);
      } else {
        DeadStays(Run(max, os, init), events[|events| - 1]);
      }
    }
  }

  lemma NothingRefused(max: nat, os: Os)
    requires Fresh(os)
    ensures Unarmed(Init(max, os).mon.os.log) == 0
  {
  }

  lemma DeadStays(m: Machine, e: Event)
    requires !m.alive
    ensures Step(m, e) == m
  {
  }
}
