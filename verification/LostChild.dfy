/** What becomes of a job whose child was lost, and runs in which a child is lost or a signal goes astray. */
module LostChild {
  import opened Jobs
  import opened Kernel
  import opened MonitorSpec
  import opened MonitorInvariant
  import opened Deadlines
  import opened Machine
  import opened MachineInvariant
  import opened Wakeups
  import opened Daemon
  import Ledger
  import opened Wire
  import opened Requests
  import opened Histories
  import Runs
  import Astray
  import PidReuse
  import StuckRun

  // ----- a deadline of a lost job ends the daemon -----

  ghost predicate IsLost(m: Machine, j: JobId) {
    Orphaned(m.mon, j) && j in m.mon.jobs && IsActive(m.mon.jobs[j].state)
  }

  lemma OthersStayLost(a: Mon, b: Mon, i: JobId, j: JobId)
    requires StopsOnly(a, b, i) && i != j && Orphaned(a, j) && j in a.jobs
    ensures Orphaned(b, j) && j in b.jobs && b.jobs[j] == a.jobs[j]
  {
  }

  lemma ExpiryLeavesLost(m: Machine, i: JobId, j: JobId)
    requires Inv(m) && Overdue(m, [i]) && i != j && IsLost(m, j)
    ensures IsLost(ExpireOne(m, i).0, j)
  {
    assert i in [i];
    hide Inv, Terminate, ForceKill, StopsOnly, Affects, SameTimers, Covered;
    if i in m.mon.jobs && m.mon.jobs[i].state.Running? {
      ExpiryIsSound(m, i);
      if Orphaned(m.mon, i) {
        PidReuse.StoppingRaisesIff(m, i, CauseTimedOut, OnGrace);
        LostPoll(m, i, j);
      } else {
        TerminateStops(m, i, CauseTimedOut);
        OthersStayLost(m.mon, Terminate(m, i, CauseTimedOut).0.mon, i, j);
      }
    } else if i in m.mon.jobs && m.mon.jobs[i].state.Terminating? {
      if Orphaned(m.mon, i) {
        LostPoll(m, i, j);
      } else {
        LiveTerminating(m, i);
        ForceKillStops(m, i, OnGrace);
        OthersStayLost(m.mon, ForceKill(m.mon, i, OnGrace).0, i, j);
      }
    }
  }

  lemma LiveTerminating(m: Machine, i: JobId)
    requires Inv(m) && i in m.mon.jobs && m.mon.jobs[i].state.Terminating?
    ensures i in m.mon.procs
  {
    Known(m.mon, i);
  }

  lemma LostPoll(m: Machine, i: JobId, j: JobId)
    requires Orphaned(m.mon, i) && IsLost(m, j)
    ensures IsLost(Terminate(m, i, CauseTimedOut).0, j) && IsLost(m.(mon := ForceKill(m.mon, i, OnGrace).0), j)
  {
    hide FinishExited, KillGroup, ScheduleForceKill;
    assert PollExit(m.mon, i) == m.mon.(os := Poll(m.mon.os, m.mon.procs[i].pid));
  }

  lemma {:induction false} LostJobEndsDaemon(m: Machine, due: seq<JobId>, j: JobId)
    requires Inv(m) && Overdue(m, due) && j in due && IsLost(m, j)
    ensures !Expire(m, due).alive
    decreases |due|
  {
    hide Inv, ExpireOne, Overdue, Affects, SameTimers, Covered, IsLost;
    OverdueHead(m, due);
    ExpireOneKeeps(m, due[0]);
    var (r, ok) := ExpireOne(m, due[0]);
    if due[0] == j {
      LostJobRaises(m, j);
    } else if ok {
      ExpiryLeavesLost(m, due[0], j);
      OverdueRest(m, r, due);
      LostJobEndsDaemon(r, due[1..], j);
    }
  }

  lemma LostJobRaises(m: Machine, j: JobId)
    requires IsLost(m, j)
    ensures !ExpireOne(m, j).1
  {
    PidReuse.StoppingRaisesIff(m, j, CauseTimedOut, OnGrace);
    hide Terminate, ForceKill;
    Raises(m, j);
  }

  lemma Raises(m: Machine, j: JobId)
    ensures Terminate(m, j, CauseTimedOut).1.Missing? == RequestTerminate(m.mon, j, CauseTimedOut).1.Missing?
    ensures Terminate(m, j, CauseTimedOut).1.Missing? ==> !Terminate(m, j, CauseTimedOut).2
  {
    hide RequestTerminate, ScheduleForceKill;
  }

  /** If the deadline of a job whose child was lost has passed, the next timer event ends the daemon. */
  lemma LostDeadlineIsFatal(m: Machine, j: JobId)
    requires Inv(m) && m.alive && IsLost(m, j) && j in m.timers && m.timers[j] <= Tick(m.mon.os).now
    ensures !Step(m, TimerReady).alive
  {
    hide Inv, Due, Later, ArmFor, Overdue, Tick, Expire, IsLost;
    var os := Tick(m.mon.os);
    var later, due := Later(m.timers, os.now), Due(m.timers, os.now);
    RearmKeeps(m, os, later, due);
    var t := m.(timers := later, mon := m.mon.(os := ArmFor(os, later)));
    ArmLeavesLost(m, t, j, later);
    if NextArm(os) {
      LostJobEndsDaemon(t, due, j);
    }
  }

  lemma ArmLeavesLost(m: Machine, t: Machine, j: JobId, later: Deadlines)
    requires IsLost(m, j) && t == m.(timers := later, mon := m.mon.(os := ArmFor(Tick(m.mon.os), later)))
    ensures IsLost(t, j)
  {
  }

  // ----- a run -----

  const SPEC: JobSpec := StuckRun.SPEC

  /** Three launches, all with process id 7; SIGCHLD reports one exit at a time. */
  function Answers(inputs: seq<ReadAnswer>, extinct: seq<bool>): Os {
    Os([], [Launched(7, 10, 11, 12), Launched(7, 20, 21, 22), Launched(7, 30, 31, 32)], [], inputs, [],
       [Child(7, Exited(0)), NoneReady, Child(7, Exited(0))], [], [], [], extinct,
       0, Disarmed, map[], map[], false, Files(map[], map[], {}), Empty)
  }

  function Process(first: Fd, exited: bool): Proc {
    Proc(7, End(first, false, []), End(first + 1, false, []), End(first + 2, false, []), exited, Exited(0))
  }

  /** Job 1 has the id. */
  ghost predicate One(m: Machine, inputs: seq<ReadAnswer>, extinct: seq<bool>, exited: bool) {
    && m.max == 3 && m.alive && m.generation == 1 && m.slots == {1} && m.timers == map[] && m.waiting == [] && m.mon.pending == [] && m.nextId == 2
    && m.mon.jobs.Keys == {1} && m.mon.jobs[1].state.Running?
    && m.mon.procs == map[1 := Process(10, exited)] && m.mon.byPid == map[7 := 1] && m.mon.os.groups == map[7 := 1]
    && m.mon.os.children == (if exited then map[] else map[7 := 1])
    && m.mon.os.files.open == map[10 := Pipe(1, Stdout, 7), 11 := Pipe(1, Stderr, 7), 12 := Pipe(1, StartupError, 7)]
    && m.mon.os.watches == [] && m.mon.os.inputs == inputs && m.mon.os.kills == [] && m.mon.os.arms == [] && m.mon.os.extinct == extinct
    && m.mon.os.launches == [Launched(7, 20, 21, 22), Launched(7, 30, 31, 32)]
    && m.mon.os.reaps == if exited then [Child(7, Exited(0))] else [Child(7, Exited(0)), NoneReady, Child(7, Exited(0))]
  }

  lemma FirstStarts(inputs: seq<ReadAnswer>, extinct: seq<bool>)
    ensures One(Step(Init(3, Answers(inputs, extinct)), Submit(SPEC)), inputs, extinct, false)
  {
    hide Step;
    var m, a := Init(3, Answers(inputs, extinct)), Launched(7, 10, 11, 12);
    StuckRun.SubmitStarts(m, a);
    var r := Step(m, Submit(SPEC));
    assert r.mon.procs == map[1 := Process(10, false)];
  }

  lemma ChildExits(m: Machine, inputs: seq<ReadAnswer>, extinct: seq<bool>)
    requires One(m, inputs, extinct, false)
    ensures One(Step(m, ChildSignal), inputs, extinct, true)
  {
    var a := m.mon.(os := ReadSignals(m.mon.os));
    var b := ReapOnce(a);
    assert NextReap(a.os) == Child(7, Exited(0));
    assert b.procs == map[1 := Process(10, true)];
    assert b.os.reaps == [NoneReady, Child(7, Exited(0))] && b.os.children == map[];
    var c := ReapOnce(b);
    assert c.procs == b.procs && c.os == Reap(b.os);
    assert ReapAll(a) == ReapAll(b) == c;
    assert Step(m, ChildSignal) == m.(mon := c);
  }

  /** Job 2 was given up, and the entry of job 1 with it. */
  ghost predicate Two(m: Machine, inputs: seq<ReadAnswer>) {
    && m.max == 3 && m.alive && m.generation == 1 && m.slots == {1} && m.timers == map[] && m.waiting == [] && m.mon.pending == [] && m.nextId == 3
    && m.mon.jobs.Keys == {1, 2} && m.mon.jobs[1].state.Running? && m.mon.jobs[2].state.Failed?
    && m.mon.procs == map[1 := Process(10, true)] && m.mon.byPid == map[] && m.mon.os.groups == map[] && m.mon.os.children == map[]
    && m.mon.os.files.open == map[10 := Pipe(1, Stdout, 7), 11 := Pipe(1, Stderr, 7), 12 := Pipe(1, StartupError, 7)]
    && m.mon.os.watches == [] && m.mon.os.inputs == inputs && m.mon.os.kills == [] && m.mon.os.arms == []
    && m.mon.os.launches == [Launched(7, 30, 31, 32)] && m.mon.os.reaps == [Child(7, Exited(0))]
  }

  lemma StartCollides(mon: Mon)
    requires 2 in mon.jobs && mon.byPid == map[7 := 1] && mon.os.groups == map[7 := 1] && mon.os.children == map[]
    requires mon.os.files.open == map[10 := Pipe(1, Stdout, 7), 11 := Pipe(1, Stderr, 7), 12 := Pipe(1, StartupError, 7)]
    requires mon.os.launches == [Launched(7, 20, 21, 22), Launched(7, 30, 31, 32)]
    ensures var u := Start(mon, 2);
      && u.jobs == mon.jobs[2 := mon.jobs[2].(state := Failed, failed := true, pid := Some(7))] && u.procs == mon.procs && u.pending == mon.pending
      && u.byPid == map[] && u.os.groups == map[] && u.os.children == map[] && u.os.files.open == mon.os.files.open
      && u.os.launches == [Launched(7, 30, 31, 32)] && u.os.watches == mon.os.watches && u.os.inputs == mon.os.inputs
      && u.os.kills == mon.os.kills && u.os.arms == mon.os.arms && u.os.reaps == mon.os.reaps
  {
    var a := NextLaunch(mon.os);
    assert a == Launched(7, 20, 21, 22);
    var f := Forked(mon, 2, a);
    assert Start(mon, 2) == FailStart(Abandon(f, a), 2);
    assert f.os.files.open - {20} - {21} - {22} == mon.os.files.open;
  }

  lemma SecondCollides(m: Machine, inputs: seq<ReadAnswer>, extinct: seq<bool>)
    requires One(m, inputs, extinct, true)
    ensures Two(Step(m, Submit(SPEC)), inputs)
  {
    hide Start;
    var e := Enqueue(m, SPEC);
    assert e.waiting == [2] && e.waiting[1..] == [];
    var t := Take(e);
    StartCollides(t.mon);
    var (p, ok) := PumpOnce(e);
    assert p == Release(t.(mon := Start(t.mon, 2)), 2) && ok;
    assert p.slots == {1} && !CanPump(p);
    assert Pump(e) == Pump(p) == (p, true);
    assert ValidSpec(SPEC);
    assert Step(m, Submit(SPEC)) == p;
  }

  /** Job 3 runs under the id of job 1, which has not settled. */
  ghost predicate Three(m: Machine, inputs: seq<ReadAnswer>) {
    && m.max == 3 && m.alive && m.generation == 1 && m.slots == {1, 3} && m.timers == map[] && m.mon.pending == []
    && m.mon.jobs.Keys == {1, 2, 3} && m.mon.jobs[1].state.Running? && m.mon.jobs[3].state.Running?
    && m.mon.procs == map[1 := Process(10, true), 3 := Process(30, false)] && m.mon.byPid == map[7 := 3]
    && m.mon.os.groups == map[7 := 3] && m.mon.os.children == map[7 := 3]
    && m.mon.os.inputs == inputs && m.mon.os.kills == [] && m.mon.os.arms == [] && m.mon.os.launches == [] && m.mon.os.reaps == [Child(7, Exited(0))]
  }

  lemma ThirdStarts(m: Machine, inputs: seq<ReadAnswer>)
    requires Two(m, inputs)
    ensures Three(Step(m, Submit(SPEC)), inputs)
  {
    hide Step;
    StuckRun.SubmitStarts(m, Launched(7, 30, 31, 32));
    var r := Step(m, Submit(SPEC));
    assert r.mon.procs == map[1 := Process(10, true), 3 := Process(30, false)];
    assert r.slots == {1, 3};
  }

  const START: seq<Event> := [Submit(SPEC), ChildSignal, Submit(SPEC), Submit(SPEC)]

  /** Job 1 exits but one of its pipes stays open; its id goes to job 2, whose start fails and whose rollback
      erases the entry, and then to job 3, which starts. */
  lemma IdIsReused(inputs: seq<ReadAnswer>)
    ensures Fresh(Answers(inputs, [])) && Three(Run(3, Answers(inputs, []), START), inputs)
  {
    hide Run, Step, Init, One, Two, Three;
    var os := Answers(inputs, []);
    var e1, e2, e3 := [Submit(SPEC)], [Submit(SPEC), ChildSignal], [Submit(SPEC), ChildSignal, Submit(SPEC)];
    RunStarts(3, os);
    FirstStarts(inputs, []);
    RunSteps(3, os, [], Submit(SPEC));
    RunSteps(3, os, e1, ChildSignal);
    RunSteps(3, os, e2, Submit(SPEC));
    RunSteps(3, os, e3, Submit(SPEC));
    assert [] + [Submit(SPEC)] == e1 && e1 + [ChildSignal] == e2 && e2 + [Submit(SPEC)] == e3 && e3 + [Submit(SPEC)] == START;
    ChildExits(Run(3, os, e1), inputs, []);
    SecondCollides(Run(3, os, e2), inputs, []);
    ThirdStarts(Run(3, os, e3), inputs);
  }

  /** A CANCEL of job 1 then sends SIGTERM to the process group of job 3. */
  lemma WrongGroup()
    ensures var r := Run(3, Answers([], []), START + [Cancel(1)]);
      r.mon.os.log.Then? && exists at :: r.mon.os.log.last == Signalled(1, SigTerm, OnCancel, Sent, Own(3), at)
  {
    hide Run, Step;
    IdIsReused([]);
    RunSteps(3, Answers([], []), START, Cancel(1));
    CancelMisses(Run(3, Answers([], []), START));
  }

  lemma CancelMisses(m: Machine)
    requires Three(m, [])
    ensures var r := Step(m, Cancel(1));
      r.mon.os.log.Then? && exists at :: r.mon.os.log.last == Signalled(1, SigTerm, OnCancel, Sent, Own(3), at)
  {
    Astray.NothingToFinish(m.mon, 1);
    hide FinishExited;
    var mid := FinishExited(m.mon, 1);
    assert mid.os.groups == map[7 := 3] && mid.os.kills == [] && mid.os.arms == [];
    assert mid.procs == m.mon.procs && mid.jobs == m.mon.jobs;
    var (os, a) := KillGroup(mid.os, 7, 1, SigTerm, OnCancel);
    assert os == KillOnce(mid.os, 7, 1, SigTerm, OnCancel) && a == Sent;
    assert os.log.last == Signalled(1, SigTerm, OnCancel, Sent, Own(3), os.now);
    var (mon, ending) := RequestTerminate(m.mon, 1, CauseCancelled);
    assert mon.os == os && ending.Delivered?;
    var n := m.(mon := mon);
    GraceIsSet(n, 1);
  }

  /** The id need not come back to the daemon.  Job 1's child is waited for, its group dies out while a pipe stays open,
      and a CANCEL of job 1 sends SIGTERM to whatever group has the id by then, answers that the job is
      terminating, and will send SIGKILL there a second later. */
  lemma ForeignGroup()
    ensures var os := Answers([], [true]); var m := Run(3, os, [Submit(SPEC), ChildSignal]); var r := Run(3, os, [Submit(SPEC), ChildSignal, Cancel(1)]);
      && Fresh(os) && CancelReply(m, 1) == Reply(Ascii("OK terminating"))
      && r.mon.os.log.Then? && (exists at :: r.mon.os.log.last == Signalled(1, SigTerm, OnCancel, Sent, Foreign, at))
      && 1 in r.timers && !Reused(Runs.History(3, os, [Submit(SPEC), ChildSignal, Cancel(1)]), 1)
  {
    hide Run, Step, Init, One, CancelReply, Reused;
    var os := Answers([], [true]);
    var e1, e2 := [Submit(SPEC)], [Submit(SPEC), ChildSignal];
    RunStarts(3, os);
    FirstStarts([], [true]);
    RunSteps(3, os, [], Submit(SPEC));
    RunSteps(3, os, e1, ChildSignal);
    RunSteps(3, os, e2, Cancel(1));
    assert [] + [Submit(SPEC)] == e1 && e1 + [ChildSignal] == e2 && e2 + [Cancel(1)] == [Submit(SPEC), ChildSignal, Cancel(1)];
    ChildExits(Run(3, os, e1), [], [true]);
    CancelStrays(Run(3, os, e2));
    RunKeeps(3, os, [Submit(SPEC), ChildSignal, Cancel(1)]);
    NoneIsReused(Run(3, os, [Submit(SPEC), ChildSignal, Cancel(1)]));
  }

  lemma CancelStrays(m: Machine)
    requires One(m, [], [true], true)
    ensures var r := Step(m, Cancel(1));
      && CancelReply(m, 1) == Reply(Ascii("OK terminating")) && 1 in r.timers && r.mon.jobs.Keys == {1}
      && r.mon.os.log.Then? && exists at :: r.mon.os.log.last == Signalled(1, SigTerm, OnCancel, Sent, Foreign, at)
  {
    hide RequestTerminate, ScheduleForceKill;
    SigtermStrays(m.mon);
    GraceIsSet(m.(mon := RequestTerminate(m.mon, 1, CauseCancelled).0), 1);
  }

  lemma SigtermStrays(mon: Mon)
    requires 1 in mon.jobs && mon.procs == map[1 := Process(10, true)] && mon.os.children == map[]
    requires mon.os.inputs == [] && mon.os.kills == [] && mon.os.extinct == [true]
    ensures var (r, a) := RequestTerminate(mon, 1, CauseCancelled);
      && a.Delivered? && r.jobs.Keys == mon.jobs.Keys && r.os.arms == mon.os.arms
      && r.os.log.Then? && r.os.log.last == Signalled(1, SigTerm, OnCancel, Sent, Foreign, r.os.now)
  {
    Astray.NothingToFinish(mon, 1);
    hide FinishExited;
    var mid := FinishExited(mon, 1);
    var (os, a) := KillGroup(mid.os, 7, 1, SigTerm, OnCancel);
    assert os == KillOnce(mid.os, 7, 1, SigTerm, OnCancel) && a == Sent;
  }

  lemma GraceIsSet(m: Machine, j: JobId)
    requires m.generation == 1 && m.mon.os.arms == []
    ensures var (r, ok) := ScheduleForceKill(m, j); ok && j in r.timers && r.mon.os.log == m.mon.os.log && r.mon.jobs == m.mon.jobs
  {
    assert Schedule(Unschedule(m, j), j, GRACE_MS).1;
  }

  /** A single job has nobody to share its id with. */
  lemma NoneIsReused(m: Machine)
    requires Inv(m) && m.mon.jobs.Keys == {1}
    ensures !Reused(Trace(m.mon.os.log), 1)
  {
    if k: nat, i: nat :| ReusedAt(Trace(m.mon.os.log), 1, k, i) {
      GoodLog(m);
      StartedIsKnown(m, Trace(m.mon.os.log)[i].job, i);
      StartedOnce(m.mon.os.log, k, i);
    }
  }

  lemma GoodLog(m: Machine)
    requires Inv(m)
    ensures Ledger.Good(m.mon.os.log)
  {
  }

  lemma StartedIsKnown(m: Machine, j: JobId, i: nat)
    requires Inv(m) && i < |Trace(m.mon.os.log)| && Trace(m.mon.os.log)[i].Started? && Trace(m.mon.os.log)[i].job == j
    ensures j in m.mon.jobs
  {
    GoodLog(m);
    RunningIsHistory(m.mon.os.log, j, i);
  }

  lemma StartedOnce(log: Log, k: nat, i: nat)
    requires Ledger.Good(log) && k < i < |Trace(log)| && Trace(log)[k].Started? && Trace(log)[i].Started?
    ensures Trace(log)[k].job != Trace(log)[i].job
  {
    AtMostOnce(log, k, i);
  }

  /** If instead the pipes of job 1 end, job 1 settles and takes the entry of job 3 with it: when the child of job
      3 exits, nobody hears of it, and job 3 keeps its slot with a child that cannot be waited for. */
  lemma ChildIsLost()
    ensures var r := Run(3, Answers([EndOfFile, EndOfFile, EndOfFile], []), START + [PipeReady(10), PipeReady(11), PipeReady(12), ChildSignal]);
      r.alive && IsLost(r, 3) && 3 in r.slots
  {
    hide Run, Step, Inv, Healthy;
    var inputs := [EndOfFile, EndOfFile, EndOfFile];
    var os := Answers(inputs, []);
    IdIsReused(inputs);
    var e1, e2, e3 := START + [PipeReady(10)], START + [PipeReady(10), PipeReady(11)], START + [PipeReady(10), PipeReady(11), PipeReady(12)];
    RunSteps(3, os, START, PipeReady(10));
    RunSteps(3, os, e1, PipeReady(11));
    RunSteps(3, os, e2, PipeReady(12));
    RunSteps(3, os, e3, ChildSignal);
    assert e1 + [PipeReady(11)] == e2 && e2 + [PipeReady(12)] == e3;
    assert e3 + [ChildSignal] == START + [PipeReady(10), PipeReady(11), PipeReady(12), ChildSignal];
    RunKeeps(3, os, START);
    PidReuse.PipeEnds(Run(3, os, START), 1, Stdout);
    RunKeeps(3, os, e1);
    PidReuse.PipeEnds(Run(3, os, e1), 1, Stderr);
    RunKeeps(3, os, e2);
    PidReuse.PipeEnds(Run(3, os, e2), 1, StartupError);
    RunKeeps(3, os, e3);
    PidReuse.ExitIsIgnored(Run(3, os, e3), 3);
    RunKeeps(3, os, e3 + [ChildSignal]);
    LiveHoldsSlot(Run(3, os, e3 + [ChildSignal]), 3);
  }

  lemma LiveHoldsSlot(m: Machine, j: JobId)
    requires Inv(m) && j in m.mon.procs
    ensures j in m.mon.jobs && IsActive(m.mon.jobs[j].state) && j in m.slots
  {
    Live(m.mon, j);
  }
}
