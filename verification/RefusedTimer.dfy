/** Runs in which the timer is refused for a job that was just started. */
module RefusedTimer {
  import opened Jobs
  import opened Kernel
  import opened MonitorSpec
  import opened Deadlines
  import opened Machine
  import opened Requests
  import StuckRun

  /** A job with an execution timeout of five seconds. */
  const TIMED: JobSpec := JobSpec([['/' as int]], Some(5000))

  /** The head of the queue starts, and setting its deadline is refused. */
  ghost predicate CanBeRefused(m: Machine, j: JobId, a: Launch) {
    && m.waiting == [j] && j in m.mon.jobs && m.mon.jobs[j].spec == TIMED && |m.slots| < m.max && m.generation != 0
    && a.Launched? && m.mon.os.launches != [] && m.mon.os.launches[0] == a && CanSpawn(m.mon.os, a) && a.pid !in m.mon.byPid && m.mon.os.watches == []
    && m.mon.os.arms == [false]
  }

  lemma PumpRefused(m: Machine, j: JobId, a: Launch)
    requires CanBeRefused(m, j, a)
    ensures var (r, ok) := Pump(m);
      && !ok && r.degraded && r.alive == m.alive && r.waiting == [] && j in r.slots && j in r.timers
      && j in r.mon.jobs && r.mon.jobs[j].state.Running? && j in r.mon.procs && r.mon.os.timer == m.mon.os.timer
  {
    Starts(m, j, a);
    hide Start, Schedule, CanSpawn;
    DeadlineRefused(Take(m).(mon := Start(Take(m).mon, j)), j);
    assert !PumpOnce(m).1;
  }

  lemma Starts(m: Machine, j: JobId, a: Launch)
    requires CanBeRefused(m, j, a)
    ensures var u := Start(Take(m).mon, j);
      && j in u.jobs && u.jobs[j].state.Running? && u.jobs[j].spec == TIMED && j in u.procs
      && u.os.arms == [false] && u.os.timer == m.mon.os.timer
  {
    var t := Take(m);
    StuckRun.StartIsUp(t.mon, j, a);
    hide Start, Up, Forked, CanSpawn;
    StuckRun.UpRuns(t.mon, j, a);
    UpFrame(t.mon, j, a);
  }

  lemma UpFrame(mon: Mon, j: JobId, a: Launch)
    requires j in mon.jobs && a.Launched?
    ensures var u := Up(Forked(mon, j, a), j, a); u.os.arms == mon.os.arms && u.os.timer == mon.os.timer && j in u.procs
  {
  }

  lemma DeadlineRefused(m: Machine, j: JobId)
    requires m.generation != 0 && m.mon.os.arms == [false]
    ensures var (r, ok) := Schedule(m, j, 5000);
      && !ok && j in r.timers && r.mon.os.timer == m.mon.os.timer && r.mon.jobs == m.mon.jobs && r.mon.procs == m.mon.procs
      && r.alive == m.alive && r.waiting == m.waiting && r.slots == m.slots
  {
  }

  function OneChild(): Os {
    Os([], [Launched(7, 10, 11, 12)], [], [], [], [], [], [false], [], [], 0, Disarmed, map[], map[], false, Files(map[], map[], {}), Empty)
  }

  /** A SUBMIT that starts its job and then loses its connection: the job runs, its deadline is on record, and the
      timer is not set. */
  lemma SubmitLeavesTimerUnset()
    ensures var m := Run(1, OneChild(), []); var r := Run(1, OneChild(), [Submit(TIMED)]);
      && Fresh(OneChild()) && SubmitReply(m, TIMED) == Dropped
      && r.alive && r.degraded && 1 in r.mon.jobs && r.mon.jobs[1].state.Running? && 1 in r.timers && r.mon.os.timer.Disarmed?
  {
    hide Run, Step, Init, SubmitReply;
    RunStarts(1, OneChild());
    RunSteps(1, OneChild(), [], Submit(TIMED));
    assert [] + [Submit(TIMED)] == [Submit(TIMED)];
    FirstRefused(Init(1, OneChild()));
  }

  lemma FirstRefused(m: Machine)
    requires m == Init(1, OneChild())
    ensures var r := Step(m, Submit(TIMED));
      && SubmitReply(m, TIMED) == Dropped
      && r.alive && r.degraded && 1 in r.mon.jobs && r.mon.jobs[1].state.Running? && 1 in r.timers && r.mon.os.timer.Disarmed?
  {
    hide Pump;
    var e := Enqueue(m, TIMED);
    assert e.waiting == [1];
    PumpRefused(e, 1, Launched(7, 10, 11, 12));
    assert ValidSpec(TIMED);
  }

  /** The same refusal when the job is started by a monitor event ends the daemon. */
  lemma MonitorEventEnds()
    ensures var os := StuckRun.Answers([Launched(8, 20, 21, 22)], [false]);
      var before := [Submit(StuckRun.SPEC), Submit(TIMED), ChildSignal, Cancel(1)];
      Run(1, os, before).alive && !Run(1, os, before + [ChildSignal]).alive
  {
    hide Run, Step;
    var os := StuckRun.Answers([Launched(8, 20, 21, 22)], [false]);
    var before := [Submit(StuckRun.SPEC), Submit(TIMED), ChildSignal, Cancel(1)];
    assert ValidSpec(TIMED);
    StuckRun.GetsStuck([Launched(8, 20, 21, 22)], [false], TIMED);
    RunSteps(1, os, before, ChildSignal);
    RefillEnds(Run(1, os, before));
  }

  lemma RefillEnds(m: Machine)
    requires StuckRun.Stuck(m, [Launched(8, 20, 21, 22)], [false], TIMED)
    ensures !Step(m, ChildSignal).alive
  {
    hide Collect, Pump;
    NothingToCollect(m.mon);
    var c := m.(mon := Collect(m.mon));
    var t := Retire(c);
    assert t.slots == {} && t.waiting == [2];
    PumpRefused(t, 2, Launched(8, 20, 21, 22));
    assert !Deliver(c).alive;
  }

  lemma NothingToCollect(mon: Mon)
    requires mon.os.reaps == []
    ensures Collect(mon) == mon.(os := mon.os.(sigchld := false))
  {
    var empty := mon.(os := ReadSignals(mon.os));
    assert Reap(empty.os) == empty.os;
    assert ReapAll(empty) == ReapOnce(empty);
  }
}
