/** A run that ends with a job waiting beside a slot that nothing will ever free. */
module StuckRun {
  import opened Jobs
  import opened Kernel
  import opened MonitorSpec
  import opened Machine
  import opened Wakeups

  const SPEC: JobSpec := JobSpec([['/' as int]], None)

  /** A child, 7, with pipes 10, 11 and 12; it exits with code 0, and later its pipes end.  More children may follow. */
  function Answers(more: seq<Launch>, arms: seq<bool>): Os {
    Os([], [Launched(7, 10, 11, 12)] + more, [], [EndOfFile, EndOfFile, EndOfFile], [], [Child(7, Exited(0))], [], arms, [], [],
       0, Disarmed, map[], map[], false, Files(map[], map[], {}), Empty)
  }

  function Process(exited: bool): Proc {
    Proc(7, End(10, false, []), End(11, false, []), End(12, false, []), exited, Exited(0))
  }

  /** Job 1 runs and job 2 may wait. */
  ghost predicate Busy(m: Machine, more: seq<Launch>, arms: seq<bool>, exited: bool) {
    && m.generation == 1 && m.mon.os.launches == more && m.mon.os.arms == arms && m.mon.os.watches == []
    && m.max == 1 && m.alive && !m.degraded && m.slots == {1} && m.timers == map[] && m.mon.pending == []
    && 1 in m.mon.jobs && m.mon.jobs[1].state.Running?
    && m.mon.procs == map[1 := Process(exited)] && m.mon.byPid == map[7 := 1]
    && m.mon.os.children == (if exited then map[] else map[7 := 1])
    && m.mon.os.files.open == map[10 := Pipe(1, Stdout, 7), 11 := Pipe(1, Stderr, 7), 12 := Pipe(1, StartupError, 7)]
    && m.mon.os.timer.Disarmed? && !m.mon.os.sigchld && m.mon.os.late == []
    && m.mon.os.inputs == [EndOfFile, EndOfFile, EndOfFile] && m.mon.os.reaps == (if exited then [] else [Child(7, Exited(0))])
  }

  /** A submitted job without timeout that finds a free slot, no queue and a willing kernel. */
  lemma SubmitStarts(m: Machine, a: Launch)
    requires m.alive && m.waiting == [] && 0 < m.nextId < JOB_ID_SPACE - 1 && |m.slots| < m.max && m.nextId !in m.slots
    requires a.Launched? && m.mon.os.launches != [] && m.mon.os.launches[0] == a && CanSpawn(m.mon.os, a) && a.pid !in m.mon.byPid && m.mon.os.watches == []
    ensures var j, t := m.nextId, Take(Enqueue(m, SPEC));
      Step(m, Submit(SPEC)) == t.(mon := Up(Forked(t.mon, j, a), j, a)) && t.waiting == [] && t.nextId == m.nextId + 1
  {
    hide CanSpawn, Start, Up, Forked, Pump;
    var j := m.nextId;
    var e := Enqueue(m, SPEC);
    assert e.waiting == [j] && e.waiting[1..] == [];
    SameLaunch(m.mon.os, Take(e).mon.os, a);
    StartIsUp(Take(e).mon, j, a);
    UpRuns(Take(e).mon, j, a);
    StartsAlone(e, j);
    assert ValidSpec(SPEC);
  }

  /** Records in the log are nothing to the next launch. */
  lemma SameLaunch(a: Os, b: Os, l: Launch)
    requires l.Launched? && a.launches != [] && a.launches[0] == l && CanSpawn(a, l) && b == a.(log := b.log)
    ensures NextLaunch(b) == l
  {
  }

  lemma StartsAlone(e: Machine, j: JobId)
    requires e.waiting == [j] && CanPump(e) && j in Take(e).mon.jobs
    requires var u := Start(Take(e).mon, j); j in u.jobs && u.jobs[j].state.Running? && u.jobs[j].spec.timeout.None?
    ensures Pump(e) == (Take(e).(mon := Start(Take(e).mon, j)), true)
  {
    hide Start;
    var p := Take(e).(mon := Start(Take(e).mon, j));
    assert PumpOnce(e) == (p, true);
    assert p.waiting == [] && !CanPump(p);
    assert Pump(e) == Pump(p);
  }

  lemma StartIsUp(mon: Mon, j: JobId, a: Launch)
    requires j in mon.jobs && a.Launched? && NextLaunch(mon.os) == a && a.pid !in mon.byPid && mon.os.watches == []
    ensures Start(mon, j) == Up(Forked(mon, j, a), j, a)
  {
    var f := Forked(mon, j, a);
    assert f.os.watches == [] && Watch(f.os) == f.os;
    hide Spawn, Up, FailStart, Abandon;
    assert WatchAll(f.os, 3) == WatchAll(f.os, 2) == WatchAll(f.os, 1) == WatchAll(f.os, 0) == (f.os, true);
    assert f.(os := f.os) == f;
  }

  lemma UpRuns(mon: Mon, j: JobId, a: Launch)
    requires j in mon.jobs && a.Launched?
    ensures var u := Up(Forked(mon, j, a), j, a); j in u.jobs && u.jobs[j].state.Running? && u.jobs[j].spec == mon.jobs[j].spec
  {
  }

  /** Job 2 waits with this specification. */
  predicate Second(m: Machine, spec: JobSpec) {
    m.waiting == [2] && 2 in m.mon.jobs && m.mon.jobs[2].state.Queued? && m.mon.jobs[2].spec == spec
  }

  lemma FirstStarts(more: seq<Launch>, arms: seq<bool>)
    ensures var r := Step(Init(1, Answers(more, arms)), Submit(SPEC)); Busy(r, more, arms, false) && r.waiting == [] && r.nextId == 2
  {
    hide Step;
    var m, a := Init(1, Answers(more, arms)), Launched(7, 10, 11, 12);
    assert ([a] + more)[1..] == more;
    SubmitStarts(m, a);
    var r := Step(m, Submit(SPEC));
    assert r.mon.procs == map[1 := Process(false)];
  }

  lemma SecondWaits(m: Machine, more: seq<Launch>, arms: seq<bool>, spec: JobSpec)
    requires Busy(m, more, arms, false) && m.waiting == [] && m.nextId == 2 && ValidSpec(spec)
    ensures var r := Step(m, Submit(spec)); Busy(r, more, arms, false) && Second(r, spec)
  {
    hide ValidSpec;
    var e := Enqueue(m, spec);
    assert |e.slots| == 1 && !CanPump(e);
    assert Step(m, Submit(spec)) == e;
  }

  lemma ChildExits(m: Machine, more: seq<Launch>, arms: seq<bool>, spec: JobSpec)
    requires Busy(m, more, arms, false) && Second(m, spec)
    ensures var r := Step(m, ChildSignal); Busy(r, more, arms, true) && Second(r, spec)
  {
    var a := m.mon.(os := ReadSignals(m.mon.os));
    var b := ReapOnce(a);
    assert NextReap(a.os) == Child(7, Exited(0));
    assert b.procs == map[1 := Process(true)];
    assert b.os.reaps == [] && b.os.children == map[];
    var c := ReapOnce(b);
    assert c.procs == b.procs && c.os == Reap(b.os);
    assert ReapAll(a) == ReapAll(b) == c;
    assert Step(m, ChildSignal) == m.(mon := c);
  }

  function AfterOne(): Proc { Process(true).(out := End(-1, true, [])) }
  function AfterTwo(): Proc { AfterOne().(err := End(-1, true, [])) }
  function AfterThree(): Proc { AfterTwo().(startup := End(-1, true, [])) }

  /** Job 1 has succeeded, its slot is not free, job 2 waits, and nothing can wake the daemon. */
  ghost predicate Stuck(m: Machine, more: seq<Launch>, arms: seq<bool>, spec: JobSpec) {
    && m.alive && !m.degraded && m.slots == {1} && m.max == 1 && m.mon.pending == [1] && m.timers == map[] && m.generation == 1
    && 1 in m.mon.jobs && m.mon.jobs[1].state.Succeeded? && m.mon.procs == map[] && m.mon.byPid == map[] && !WakeUp(m.mon.os)
    && m.mon.os.launches == more && m.mon.os.arms == arms && m.mon.os.watches == [] && m.mon.os.reaps == [] && Second(m, spec)
  }

  lemma CancelSettles(m: Machine, more: seq<Launch>, arms: seq<bool>, spec: JobSpec)
    requires Busy(m, more, arms, true) && Second(m, spec)
    ensures Stuck(Step(m, Cancel(1)), more, arms, spec)
  {
    hide FinishExited;
    PipesEnd(m.mon);
    var mon := FinishExited(m.mon, 1);
    assert Step(m, Cancel(1)) == m.(mon := mon);
  }

  lemma PipesEnd(mon: Mon)
    requires 1 in mon.jobs && mon.jobs[1].state.Running? && mon.procs == map[1 := Process(true)] && mon.pending == [] && mon.byPid == map[7 := 1]
    requires mon.os.inputs == [EndOfFile, EndOfFile, EndOfFile]
    requires mon.os.files.open == map[10 := Pipe(1, Stdout, 7), 11 := Pipe(1, Stderr, 7), 12 := Pipe(1, StartupError, 7)]
    ensures var r := FinishExited(mon, 1);
      && r.procs == map[] && r.byPid == map[] && r.jobs == mon.jobs[1 := r.jobs[1]] && 1 in r.jobs && r.jobs[1].state.Succeeded? && r.pending == [1] && r.os.files.open == map[]
      && r.os.children == mon.os.children && r.os.timer == mon.os.timer && r.os.sigchld == mon.os.sigchld
      && r.os.launches == mon.os.launches && r.os.arms == mon.os.arms && r.os.watches == mon.os.watches && r.os.reaps == mon.os.reaps
  {
    hide DrainOpen, Result;
    OneEnds(mon, Stdout);
    var m1 := DrainOpen(mon, 1, Stdout);
    assert m1.procs[1] == AfterOne();
    OneEnds(m1, Stderr);
    var m2 := DrainOpen(m1, 1, Stderr);
    assert m2.procs[1] == AfterTwo();
    OneEnds(m2, StartupError);
    var m3 := DrainOpen(m2, 1, StartupError);
    assert m3.procs[1] == AfterThree();
    assert mon.os.files.open - {10} - {11} - {12} == map[];
    Succeeds(m3.jobs[1]);
    assert FinishExited(mon, 1) == TryFinalize(m3, 1);
    assert TryFinalize(m3, 1).procs == map[];
    assert TryFinalize(m3, 1).byPid == map[];
  }

  lemma Succeeds(job: Job)
    requires job.state.Running?
    ensures Result(job, AfterThree()).state.Succeeded?
  {
  }

  lemma OneEnds(mon: Mon, k: Kind)
    requires mon.procs.Keys == {1} && mon.procs[1].At(k).fd != -1 && mon.os.inputs != [] && mon.os.inputs[0].EndOfFile?
    ensures var r := DrainOpen(mon, 1, k); var e := mon.procs[1].At(k);
      && r == mon.(procs := map[1 := mon.procs[1].Set(k, e.(fd := -1, eof := true))], os := mon.os.(inputs := mon.os.inputs[1..], files := r.os.files))
      && r.os.files.open == mon.os.files.open - {e.fd}
  {
    assert DrainOpen(mon, 1, k) == DrainOnce(mon, 1, k);
    assert DrainOnce(mon, 1, k).procs == map[1 := mon.procs[1].Set(k, mon.procs[1].At(k).(fd := -1, eof := true))];
  }

  /** With one slot: job 1 runs, job 2 waits, SIGCHLD reports job 1's exit while its pipes are still open, and a
      CANCEL of job 1 finds the pipes ended and settles it.  Job 1 has succeeded, its slot is not free, job 2
      waits, and nothing can wake the daemon any more. */
  lemma QueueIsStuck()
    ensures Fresh(Answers([], []))
    ensures var r := Run(1, Answers([], []), [Submit(SPEC), Submit(SPEC), ChildSignal, Cancel(1)]);
      && r.alive && !r.degraded && r.waiting == [2] && r.slots == {1} && r.mon.pending == [1] && r.timers == map[]
      && 1 in r.mon.jobs && r.mon.jobs[1].state.Succeeded? && r.mon.procs == map[] && !WakeUp(r.mon.os)
  {
    hide Run;
    assert ValidSpec(SPEC);
    GetsStuck([], [], SPEC);
  }

  lemma GetsStuck(more: seq<Launch>, arms: seq<bool>, spec: JobSpec)
    requires ValidSpec(spec)
    ensures Stuck(Run(1, Answers(more, arms), [Submit(SPEC), Submit(spec), ChildSignal, Cancel(1)]), more, arms, spec)
  {
    hide Run, Step, Init, WakeUp, ValidSpec, Busy, Second, Stuck;
    var os := Answers(more, arms);
    var e1, e2, e3 := [Submit(SPEC)], [Submit(SPEC), Submit(spec)], [Submit(SPEC), Submit(spec), ChildSignal];
    RunStarts(1, os);
    FirstStarts(more, arms);
    RunSteps(1, os, [], Submit(SPEC));
    RunSteps(1, os, e1, Submit(spec));
    RunSteps(1, os, e2, ChildSignal);
    RunSteps(1, os, e3, Cancel(1));
    assert [] + [Submit(SPEC)] == e1 && e1 + [Submit(spec)] == e2 && e2 + [ChildSignal] == e3;
    assert e3 + [Cancel(1)] == [Submit(SPEC), Submit(spec), ChildSignal, Cancel(1)];
    SecondWaits(Run(1, os, e1), more, arms, spec);
    ChildExits(Run(1, os, e2), more, arms, spec);
    CancelSettles(Run(1, os, e3), more, arms, spec);
  }
}
