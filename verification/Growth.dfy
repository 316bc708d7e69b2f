/** The log only grows: whatever happened, the history so far stays as it is. */
module Growth {
  import opened Jobs
  import opened Kernel
  import opened MonitorSpec
  import opened Deadlines
  import opened Machine
  import opened Histories
  import Ledger

  /** `b` is `a` with more records at its end. */
  predicate Extends(a: Log, b: Log) {
    b == a || (b.Then? && Extends(a, b.earlier))
  }

  lemma {:induction false} ExtendsTransitive(a: Log, b: Log, c: Log)
    requires Extends(a, b) && Extends(b, c)
    ensures Extends(a, c)
  {
    if c != b {
      ExtendsTransitive(a, b, c.earlier);
    }
  }

  lemma {:induction false} ExtendsIsPrefix(a: Log, b: Log)
    requires Extends(a, b)
    ensures Trace(a) <= Trace(b)
  {
    if b != a {
      ExtendsIsPrefix(a, b.earlier);
    }
  }

  /** Whether a job was started with an id in use is settled when it starts. */
  lemma {:induction false} StartIsSettled(a: Log, b: Log, j: JobId)
    requires Extends(a, b) && Ledger.Good(b) && j in Ledger.Of(a).running
    ensures j in Ledger.Of(b).running && (j in Ledger.Of(b).reusing <==> j in Ledger.Of(a).reusing)
  {
    if b != a {
      StartIsSettled(a, b.earlier, j);
    }
  }

  // ----- the process monitor -----

  lemma {:induction false} DrainGrows(mon: Mon, j: JobId, k: Kind)
    requires j in mon.procs
    ensures Drain(mon, j, k).os.log == mon.os.log
    decreases |mon.os.inputs|
  {
    if NextRead(mon.os).Data? || NextRead(mon.os).ReadInterrupted? {
      DrainGrows(DrainOnce(mon, j, k), j, k);
    }
  }

  lemma {:induction false} PollGrows(mon: Mon, j: JobId)
    requires j in mon.procs
    ensures Extends(mon.os.log, PollExit(mon, j).os.log)
    decreases |mon.os.polls|
  {
    if !mon.procs[j].exited && NextPoll(mon.os, mon.procs[j].pid).PollInterrupted? {
      PollGrows(mon.(os := Poll(mon.os, mon.procs[j].pid)), j);
    }
  }

  lemma FinishGrows(mon: Mon, j: JobId)
    requires j in mon.procs
    ensures Extends(mon.os.log, FinishExited(mon, j).os.log)
  {
    hide Drain, PollExit, Result;
    PollGrows(mon, j);
    var m0 := PollExit(mon, j);
    if m0.procs[j].exited {
      DrainOpenGrows(m0, j, Stdout);
      var m1 := DrainOpen(m0, j, Stdout);
      DrainOpenGrows(m1, j, Stderr);
      var m2 := DrainOpen(m1, j, Stderr);
      DrainOpenGrows(m2, j, StartupError);
    }
  }

  lemma DrainOpenGrows(mon: Mon, j: JobId, k: Kind)
    requires j in mon.procs
    ensures DrainOpen(mon, j, k).os.log == mon.os.log
  {
    if mon.procs[j].At(k).fd != -1 {
      DrainGrows(mon, j, k);
    }
  }

  lemma PipeEventGrows(mon: Mon, fd: Fd)
    ensures Extends(mon.os.log, PipeEvent(mon, fd).os.log)
  {
    hide Drain, Result;
    if fd in mon.os.files.open && mon.os.files.open[fd].job in mon.procs {
      DrainGrows(mon, mon.os.files.open[fd].job, mon.os.files.open[fd].kind);
    }
  }

  lemma ReapOnceGrows(mon: Mon)
    ensures Extends(mon.os.log, ReapOnce(mon).os.log)
  {
    hide Result;
    var once := Reap(mon.os).log;
    assert Extends(mon.os.log, once);
    SelfExtends(once);
    ExtendsTransitive(mon.os.log, once, ReapOnce(mon).os.log);
  }

  lemma {:induction false} ReapGrows(mon: Mon)
    ensures Extends(mon.os.log, ReapAll(mon).os.log)
    decreases |mon.os.reaps|
  {
    ReapOnceGrows(mon);
    hide ReapOnce;
    if !NextReap(mon.os).NoneReady? {
      ReapOnceShrinks(mon);
      ReapGrows(ReapOnce(mon));
      ExtendsTransitive(mon.os.log, ReapOnce(mon).os.log, ReapAll(mon).os.log);
    }
  }

  lemma ReapOnceShrinks(mon: Mon)
    ensures !NextReap(mon.os).NoneReady? ==> |ReapOnce(mon).os.reaps| < |mon.os.reaps|
  {
  }

  lemma {:induction false} KillGrows(os: Os, pid: Pid, j: JobId, signal: Signal, reason: Reason)
    ensures Extends(os.log, KillGroup(os, pid, j, signal, reason).0.log)
    decreases |os.kills|
  {
    if NextKill(os).KillInterrupted? {
      var next := KillOnce(os, pid, j, signal, reason);
      KillGrows(next, pid, j, signal, reason);
      ExtendsTransitive(os.log, next.log, KillGroup(next, pid, j, signal, reason).0.log);
    }
  }

  lemma RequestGrows(mon: Mon, j: JobId, cause: Cause)
    ensures Extends(mon.os.log, RequestTerminate(mon, j, cause).0.os.log)
  {
    hide FinishExited, PollExit, KillGroup, Extends;
    if j in mon.procs {
      FinishGrows(mon, j);
      PollGrows(mon, j);
      var mid := FinishExited(mon, j);
      if j in mid.procs {
        KillGrows(mid.os, mid.procs[j].pid, j, SigTerm, ReasonOf(cause));
        ExtendsTransitive(mon.os.log, mid.os.log, KillGroup(mid.os, mid.procs[j].pid, j, SigTerm, ReasonOf(cause)).0.log);
      }
    } else {
      SelfExtends(mon.os.log);
    }
  }

  lemma SelfExtends(log: Log)
    ensures Extends(log, log) && forall r :: Extends(log, Then(log, r))
  {
  }

  lemma ForceKillGrows(mon: Mon, j: JobId, reason: Reason)
    ensures Extends(mon.os.log, ForceKill(mon, j, reason).0.os.log)
  {
    hide FinishExited, PollExit, KillGroup, Extends;
    if j in mon.procs {
      FinishGrows(mon, j);
      PollGrows(mon, j);
      var mid := FinishExited(mon, j);
      if j in mid.procs {
        KillGrows(mid.os, mid.procs[j].pid, j, SigKill, reason);
        ExtendsTransitive(mon.os.log, mid.os.log, KillGroup(mid.os, mid.procs[j].pid, j, SigKill, reason).0.log);
      }
    } else {
      SelfExtends(mon.os.log);
    }
  }

  lemma {:induction false} WatchGrows(os: Os, n: nat)
    ensures WatchAll(os, n).0.log == os.log
    decreases n
  {
    if n != 0 && NextWatch(os) {
      WatchGrows(Watch(os), n - 1);
    }
  }

  lemma FailLog(mon: Mon, j: JobId)
    requires j in mon.jobs
    ensures FailStart(mon, j).os.log == Then(mon.os.log, Settled(j))
  {
  }

  lemma AbandonLog(mon: Mon, j: JobId, a: Launch)
    requires j in mon.jobs && a.Launched?
    ensures Abandon(mon, a).os.log == mon.os.log && j in Abandon(mon, a).jobs
  {
  }

  lemma ForkLog(mon: Mon, j: JobId, a: Launch)
    requires j in mon.jobs
    ensures Spawn(mon.os, j, a).log == mon.os.log
    ensures a.Launched? ==> j in Forked(mon, j, a).jobs && Forked(mon, j, a).os.log == mon.os.log
  {
  }

  lemma MonitoredLog(mon: Mon, j: JobId, a: Launch)
    requires j in mon.jobs && a.Launched?
    ensures var log := Monitored(mon, j, a).os.log; log.Then? && log.earlier == mon.os.log && (log.last.Settled? || log.last.Started?)
  {
    hide WatchAll, FailStart, Abandon;
    WatchGrows(mon.os, 3);
    var (os, ok) := WatchAll(mon.os, 3);
    AbandonLog(mon.(os := os), j, a);
    FailLog(Abandon(mon.(os := os), a), j);
  }

  /** A start leaves one record. */
  lemma StartLog(mon: Mon, j: JobId)
    requires j in mon.jobs
    ensures var log := Start(mon, j).os.log; log.Then? && log.earlier == mon.os.log && (log.last.Settled? || log.last.Started?)
  {
    hide Monitored, FailStart, Abandon, Forked, Spawn, CanSpawn;
    var a := NextLaunch(mon.os);
    ForkLog(mon, j, a);
    if a.LaunchFailed? {
      FailLog(mon.(os := Spawn(mon.os, j, a)), j);
    } else if a.pid in mon.byPid {
      AbandonLog(Forked(mon, j, a), j, a);
      FailLog(Abandon(Forked(mon, j, a), a), j);
    } else {
      MonitoredLog(Forked(mon, j, a), j, a);
    }
  }

  lemma StartGrows(mon: Mon, j: JobId)
    requires j in mon.jobs
    ensures Extends(mon.os.log, Start(mon, j).os.log)
  {
    StartLog(mon, j);
    hide Start;
  }

  // ----- the daemon -----

  lemma ScheduleGrows(m: Machine, j: JobId, ms: int)
    ensures Extends(m.mon.os.log, Schedule(m, j, ms).0.mon.os.log)
  {
    hide ArmFor, Extends;
    ArmGrows(Tick(m.mon.os), TrySchedule(m, j, ms).0.timers);
    SelfExtends(m.mon.os.log);
  }

  lemma ArmGrows(os: Os, t: Deadlines)
    ensures ArmFor(os, t).log == os.log
  {
  }

  lemma PumpOnceGrows(m: Machine)
    requires CanPump(m)
    ensures Extends(m.mon.os.log, PumpOnce(m).0.mon.os.log)
  {
    hide Start, Schedule, Extends;
    var j, t := m.waiting[0], Take(m);
    SelfExtends(m.mon.os.log);
    StartGrows(t.mon, j);
    var u := t.(mon := Start(t.mon, j));
    ExtendsTransitive(m.mon.os.log, t.mon.os.log, u.mon.os.log);
    SelfExtends(u.mon.os.log);
    ExtendsTransitive(m.mon.os.log, u.mon.os.log, Release(u, j).mon.os.log);
    if u.mon.jobs[j].spec.timeout.Some? {
      ScheduleGrows(u, j, u.mon.jobs[j].spec.timeout.value);
      ExtendsTransitive(m.mon.os.log, u.mon.os.log, Schedule(u, j, u.mon.jobs[j].spec.timeout.value).0.mon.os.log);
    }
  }

  lemma {:induction false} PumpGrows(m: Machine)
    ensures Extends(m.mon.os.log, Pump(m).0.mon.os.log)
    decreases |m.waiting|
  {
    hide PumpOnce;
    if CanPump(m) {
      PumpOnceGrows(m);
      PumpOnceShrinks(m);
      PumpGrows(PumpOnce(m).0);
      ExtendsTransitive(m.mon.os.log, PumpOnce(m).0.mon.os.log, Pump(PumpOnce(m).0).0.mon.os.log);
    }
  }

  lemma PumpOnceShrinks(m: Machine)
    requires CanPump(m)
    ensures |PumpOnce(m).0.waiting| < |m.waiting|
  {
  }

  lemma {:induction false} DeliverGrows(m: Machine)
    ensures Extends(m.mon.os.log, Deliver(m).mon.os.log)
    decreases |m.mon.pending|
  {
    hide Pump;
    if m.mon.pending != [] {
      var t := Retire(m);
      PumpGrows(t);
      PumpKeepsPending(t);
      var (r, ok) := Pump(t);
      ExtendsTransitive(m.mon.os.log, t.mon.os.log, r.mon.os.log);
      if ok {
        DeliverGrows(r);
        ExtendsTransitive(m.mon.os.log, r.mon.os.log, Deliver(r).mon.os.log);
      }
    }
  }

  lemma PumpKeepsPending(m: Machine)
    ensures Pump(m).0.mon.pending == m.mon.pending
  {
  }

  lemma EscalateGrows(m: Machine, j: JobId)
    ensures Extends(m.mon.os.log, ScheduleForceKill(m, j).0.mon.os.log)
  {
    hide Schedule, ForceKill, Extends;
    ScheduleGrows(Unschedule(m, j), j, GRACE_MS);
    var s := Schedule(Unschedule(m, j), j, GRACE_MS).0;
    ForceKillGrows(s.mon, j, OnFallback);
    ExtendsTransitive(m.mon.os.log, s.mon.os.log, ForceKill(s.mon, j, OnFallback).0.os.log);
  }

  lemma TerminateGrows(m: Machine, j: JobId, cause: Cause)
    ensures Extends(m.mon.os.log, Terminate(m, j, cause).0.mon.os.log)
  {
    hide RequestTerminate, ScheduleForceKill, Extends;
    RequestGrows(m.mon, j, cause);
    var t := m.(mon := RequestTerminate(m.mon, j, cause).0);
    EscalateGrows(t, j);
    ExtendsTransitive(m.mon.os.log, t.mon.os.log, ScheduleForceKill(t, j).0.mon.os.log);
  }

  lemma CancelGrows(m: Machine, j: JobId)
    ensures Extends(m.mon.os.log, DoCancel(m, j).mon.os.log)
  {
    hide Terminate;
    TerminateGrows(m, j, CauseCancelled);
  }

  lemma SubmitGrows(m: Machine, spec: JobSpec)
    ensures Extends(m.mon.os.log, DoSubmit(m, spec).mon.os.log)
  {
    hide Pump;
    var e := Enqueue(m, spec);
    PumpGrows(e);
    ExtendsTransitive(m.mon.os.log, e.mon.os.log, Pump(e).0.mon.os.log);
  }

  lemma ExpireOneGrows(m: Machine, j: JobId)
    ensures Extends(m.mon.os.log, ExpireOne(m, j).0.mon.os.log)
  {
    hide Terminate, ForceKill, Extends;
    SelfExtends(m.mon.os.log);
    TerminateGrows(m, j, CauseTimedOut);
    ForceKillGrows(m.mon, j, OnGrace);
  }

  lemma {:induction false} ExpireGrows(m: Machine, due: seq<JobId>)
    ensures Extends(m.mon.os.log, Expire(m, due).mon.os.log)
    decreases |due|
  {
    hide ExpireOne;
    if due != [] {
      var (r, ok) := ExpireOne(m, due[0]);
      ExpireOneGrows(m, due[0]);
      if ok {
        ExpireGrows(r, due[1..]);
        ExtendsTransitive(m.mon.os.log, r.mon.os.log, Expire(r, due[1..]).mon.os.log);
      }
    }
  }

  lemma TimerGrows(m: Machine)
    ensures Extends(m.mon.os.log, DoTimer(m).mon.os.log)
  {
    hide Expire, Deliver, Extends, Due, Later;
    var os := Tick(m.mon.os);
    var later := Later(m.timers, os.now);
    var t := m.(timers := later, mon := m.mon.(os := ArmFor(os, later)));
    var due := Due(m.timers, os.now);
    SelfExtends(m.mon.os.log);
    ExpireGrows(t, due);
    var r := Expire(t, due);
    DeliverGrows(r);
    ExtendsTransitive(m.mon.os.log, r.mon.os.log, Deliver(r).mon.os.log);
  }

  lemma StepGrows(m: Machine, e: Event)
    ensures Extends(m.mon.os.log, Step(m, e).mon.os.log)
  {
    hide Deliver, PipeEvent, ReapAll, DoSubmit, DoCancel, DoTimer, Extends;
    SelfExtends(m.mon.os.log);
    match e
    case Submit(spec) => SubmitGrows(m, spec);
    case Cancel(j) => CancelGrows(m, j);
    case PipeReady(fd) =>
      PipeEventGrows(m.mon, fd);
      DeliverGrows(m.(mon := PipeEvent(m.mon, fd)));
      ExtendsTransitive(m.mon.os.log, PipeEvent(m.mon, fd).os.log, Deliver(m.(mon := PipeEvent(m.mon, fd))).mon.os.log);
    case ChildSignal =>
      ReapGrows(m.mon.(os := ReadSignals(m.mon.os)));
      DeliverGrows(m.(mon := Collect(m.mon)));
      ExtendsTransitive(m.mon.os.log, Collect(m.mon).os.log, Deliver(m.(mon := Collect(m.mon))).mon.os.log);
    case TimerReady => TimerGrows(m);
  }

  /** What happened once stays in the history of the run, at its place. */
  lemma {:induction false} HistoryGrows(max: nat, os: Os, events: seq<Event>, n: nat)
    requires n <= |events|
    ensures Extends(Run(max, os, events[..n]).mon.os.log, Run(max, os, events).mon.os.log)
    ensures Trace(Run(max, os, events[..n]).mon.os.log) <= Trace(Run(max, os, events).mon.os.log)
    decreases |events|
  {
    hide Step;
    if n == |events| {
      assert events[..n] == events;
    } else {
      var init := events[..|events| - 1];
      assert init[..n] == events[..n];
      HistoryGrows(max, os, init, n);
      StepGrows(Run(max, os, init), events[|events| - 1]);
      ExtendsTransitive(Run(max, os, events[..n]).mon.os.log, Run(max, os, init).mon.os.log, Run(max, os, events).mon.os.log);
    }
    ExtendsIsPrefix(Run(max, os, events[..n]).mon.os.log, Run(max, os, events).mon.os.log);
  }
}
