/** Process ids that come back (src/process_monitor.cpp).

    The monitor finds the job of an exited child through `pid_to_job_`, whose entries are keyed by
    process id and live until the job settles, which can be long after the child was waited for.  A
    kernel may give the id away in between.  This module says what that does to a run, and exactly when. */
module PidReuse {
  import opened Jobs
  import opened Kernel
  import opened MonitorSpec
  import opened MonitorInvariant
  import opened Machine
  import opened MachineInvariant
  import opened Histories
  import Ledger
  import Growth
  import Runs

  lemma Ids(m: Machine, j: JobId)
    requires Inv(m) && j in m.mon.procs
    ensures var l := Ledger.Of(m.mon.os.log); var p := m.mon.procs[j];
      && IdOk(l, p, m.mon.byPid, m.mon.os.children, m.mon.os.groups, j)
      && (Unshared(l, j) ==> !Shares(m.mon.procs, j))
      && (p.pid in m.mon.byPid && IsChild(m.mon.os.children, p.pid, j) ==> m.mon.byPid[p.pid] == j)
      && (IsChild(m.mon.os.children, p.pid, j) ==> j !in l.reused)
  {
  }

  /** The child of a job that was not started with the id of an unsettled job: as long as its exit is not
      recorded it has not been handed out either, and will be found through the index.  The job has the id to
      itself if that is not given to a later job. */
  lemma ExitsAreFound(max: nat, os: Os, events: seq<Event>, j: JobId)
    requires max > 0 && Fresh(os) && j in Run(max, os, events).mon.procs
    requires !Reusing(Runs.History(max, os, events), j)
    ensures var mon := Run(max, os, events).mon; var h := Runs.History(max, os, events); var p := mon.procs[j];
      && (!Reused(h, j) ==> !Shares(mon.procs, j)) && !Orphaned(mon, j)
      && (p.exited <==> WasReaped(h, j))
      && (!p.exited ==> IsChild(mon.os.children, p.pid, j) && p.pid in mon.byPid && mon.byPid[p.pid] == j)
  {
    hide Run, Inv, Ledger.Of, Reused, Reusing, Shares;
    RunKeeps(max, os, events);
    Runs.LogIsGood(max, os, events);
    ReusedIsHistory(Run(max, os, events).mon.os.log, j);
    SettledIsHistory(Run(max, os, events).mon.os.log, j);
    Ids(Run(max, os, events), j);
  }

  /** No child is ever lost, in any run, but one whose job was started with the id of an unsettled job. */
  lemma NeverLost(max: nat, os: Os, events: seq<Event>, j: JobId)
    requires max > 0 && Fresh(os) && Orphaned(Run(max, os, events).mon, j)
    ensures Reusing(Runs.History(max, os, events), j)
  {
    hide Run, Reusing, Reused;
    if !Reusing(Runs.History(max, os, events), j) {
      ExitsAreFound(max, os, events, j);
    }
  }

  // ----- the internal error that can be raised -----

  /** A child cannot be waited for exactly if its job's exit is not recorded and the exit of every live
      job with that process id, its own included, has been handed out. */
  lemma OrphanIff(max: nat, os: Os, events: seq<Event>, j: JobId)
    requires max > 0 && Fresh(os) && j in Run(max, os, events).mon.procs
    ensures var mon := Run(max, os, events).mon; var h := Runs.History(max, os, events);
      Orphaned(mon, j) <==>
        && !mon.procs[j].exited
        && forall i | i in mon.procs && mon.procs[i].pid == mon.procs[j].pid :: WasReaped(h, i)
  {
    hide Run, Inv, Ledger.Of;
    RunKeeps(max, os, events);
    var m := Run(max, os, events);
    if m.mon.procs[j].pid in m.mon.os.children {
      ChildIsLive(m, m.mon.procs[j].pid);
    }
    forall i | i in m.mon.procs && m.mon.procs[i].pid == m.mon.procs[j].pid
      ensures WasReaped(Runs.History(max, os, events), i) <==> !IsChild(m.mon.os.children, m.mon.procs[j].pid, i)
    {
      Ids(m, i);
      SettledIsHistory(m.mon.os.log, i);
    }
  }

  lemma ChildIsLive(m: Machine, pid: Pid)
    requires Inv(m) && pid in m.mon.os.children
    ensures var i := m.mon.os.children[pid]; i in m.mon.procs && m.mon.procs[i].pid == pid
  {
  }

  /** An attempt to stop a job raises the internal error exactly if its child cannot be waited for.  A
      CANCEL then changes no job and loses its connection; a deadline ends the daemon. */
  lemma StoppingRaisesIff(m: Machine, j: JobId, cause: Cause, reason: Reason)
    ensures RequestTerminate(m.mon, j, cause).1.Missing? <==> Orphaned(m.mon, j)
    ensures ForceKill(m.mon, j, reason).1.Missing? <==> Orphaned(m.mon, j)
    ensures Orphaned(m.mon, j) && j in m.mon.jobs && m.mon.jobs[j].state.Running? ==>
      DoCancel(m, j).mon.jobs == m.mon.jobs && DoCancel(m, j).timers == m.timers
    ensures Orphaned(m.mon, j) && j in m.mon.jobs && IsActive(m.mon.jobs[j].state) ==> !Expire(m, [j]).alive
  {
    hide FinishExited, KillGroup, ScheduleForceKill;
    if Orphaned(m.mon, j) {
      assert PollExit(m.mon, j) == m.mon.(os := Poll(m.mon.os, m.mon.procs[j].pid));
    }
  }

  // ----- the collision that is handled -----

  /** A child that was launched and that epoll would accept is given up exactly if its process id is in the
      index.  The entry is that of a live job whose exit was handed out; it is erased, and nothing else changes. */
  lemma CollisionIff(m: Machine, j: JobId)
    requires Inv(m) && j in m.mon.jobs && NextLaunch(m.mon.os).Launched?
    requires WatchAll(Spawn(m.mon.os, j, NextLaunch(m.mon.os)), 3).1
    ensures var a := NextLaunch(m.mon.os); var r := Start(m.mon, j);
      && j in r.jobs && (r.jobs[j].state.Failed? <==> a.pid in m.mon.byPid)
      && (a.pid in m.mon.byPid ==>
            && m.mon.byPid[a.pid] in m.mon.procs && m.mon.procs[m.mon.byPid[a.pid]].pid == a.pid
            && m.mon.byPid[a.pid] in Ledger.Of(m.mon.os.log).reaped
            && r.byPid == m.mon.byPid - {a.pid} && r.procs == m.mon.procs && r.os.children == m.mon.os.children)
  {
    hide Inv, WatchAll, Forked, Monitored, Abandon, FailStart, CanSpawn, Spawn;
    var a := NextLaunch(m.mon.os);
    if a.pid in m.mon.byPid {
      EntryIsLive(m, a.pid);
      FreshPid(m, a);
      GivenUp(m.mon, j, a);
    } else {
      Accepted(m.mon, j, a);
    }
  }

  lemma FreshPid(m: Machine, a: Launch)
    requires Inv(m) && CanSpawn(m.mon.os, a) && a.pid in m.mon.byPid && m.mon.byPid[a.pid] in m.mon.procs && m.mon.procs[m.mon.byPid[a.pid]].pid == a.pid
    ensures m.mon.byPid[a.pid] in Ledger.Of(m.mon.os.log).reaped
  {
    hide Inv;
    Ids(m, m.mon.byPid[a.pid]);
  }

  lemma GivenUp(mon: Mon, j: JobId, a: Launch)
    requires j in mon.jobs && a.Launched? && CanSpawn(mon.os, a)
    ensures var r := FailStart(Abandon(Forked(mon, j, a), a), j);
      j in r.jobs && r.jobs[j].state.Failed? && r.byPid == mon.byPid - {a.pid} && r.procs == mon.procs && r.os.children == mon.os.children
  {
    assert (mon.os.children[a.pid := j]) - {a.pid} == mon.os.children;
  }

  lemma Accepted(mon: Mon, j: JobId, a: Launch)
    requires j in mon.jobs && a.Launched? && WatchAll(Spawn(mon.os, j, a), 3).1
    ensures var r := Monitored(Forked(mon, j, a), j, a); j in r.jobs && r.jobs[j].state.Running?
  {
    hide WatchAll, Spawn;
  }

  lemma EntryIsLive(m: Machine, pid: Pid)
    requires Inv(m) && pid in m.mon.byPid
    ensures m.mon.byPid[pid] in m.mon.procs && m.mon.procs[m.mon.byPid[pid]].pid == pid
  {
  }

  // ----- the first child that is lost -----

  /** The same daemon before a kernel that will answer differently. */
  function Answering(m: Machine, s: Os): Machine {
    m.(mon := m.mon.(os := m.mon.os.(ticks := s.ticks, launches := s.launches, watches := s.watches, inputs := s.inputs,
      polls := s.polls, reaps := s.reaps, kills := s.kills, arms := s.arms, late := s.late, extinct := s.extinct)))
  }

  ghost function Resume(m: Machine, events: seq<Event>): Machine {
    if events == [] then m else Step(Resume(m, events[..|events| - 1]), events[|events| - 1])
  }

  lemma {:induction false} ResumeKeeps(m: Machine, events: seq<Event>)
    requires Inv(m) && Healthy(m)
    ensures Inv(Resume(m, events)) && Healthy(Resume(m, events))
  {
    hide Inv, Healthy, Step;
    if events != [] {
      ResumeKeeps(m, events[..|events| - 1]);
      StepKeeps(Resume(m, events[..|events| - 1]), events[|events| - 1]);
    }
  }

  lemma AnsweringKeeps(m: Machine, s: Os)
    requires Inv(m) && Healthy(m)
    ensures Inv(Answering(m, s)) && Healthy(Answering(m, s))
  {
    hide TableOk, PipesOk, ChildrenOk, IndexOk, IdsOk, OutputOk, StatusOk, LedgerOk, LogOk, NoneComplete, QueueOk, SlotsOk, TimersOk, BooksOk, Covered;
  }

  /** No further process id was shared on the way. */
  ghost predicate NoMoreSharing(a: Machine, b: Machine) {
    var l, l' := Ledger.Of(a.mon.os.log), Ledger.Of(b.mon.os.log);
    l'.reused == l.reused && l'.reusing == l.reusing
  }

  /** Some answers of the kernel and some events lose the job's child. */
  ghost predicate CanBeLost(m: Machine, c: JobId) {
    exists s: Os, events: seq<Event> ::
      var r := Resume(Answering(m, s), events); r.alive && Orphaned(r.mon, c)
  }

  /** Every exit that was handed out is recorded: nothing is lost so far. */
  ghost predicate AllRecorded(m: Machine) {
    forall i | i in m.mon.procs :: i in Ledger.Of(m.mon.os.log).reaped ==> m.mon.procs[i].exited
  }

  lemma {:induction false} ResumeGrows(m: Machine, events: seq<Event>)
    ensures Growth.Extends(m.mon.os.log, Resume(m, events).mon.os.log)
  {
    hide Step;
    if events != [] {
      var init := Resume(m, events[..|events| - 1]);
      ResumeGrows(m, events[..|events| - 1]);
      Growth.StepGrows(init, events[|events| - 1]);
      Growth.ExtendsTransitive(m.mon.os.log, init.mon.os.log, Resume(m, events).mon.os.log);
    }
  }

  /** Only a job started with the id of an unsettled job can be lost, however the run goes on. */
  lemma OnlySharersAreLost(m: Machine, c: JobId)
    requires Inv(m) && Healthy(m) && c in m.mon.procs && CanBeLost(m, c)
    ensures c in Ledger.Of(m.mon.os.log).reusing
  {
    var s: Os, events: seq<Event> :| var r := Resume(Answering(m, s), events); r.alive && Orphaned(r.mon, c);
    hide Inv, Healthy, Resume, Ledger.Of;
    var r := Resume(Answering(m, s), events);
    AnsweringKeeps(m, s);
    ResumeKeeps(Answering(m, s), events);
    ResumeGrows(Answering(m, s), events);
    Ids(m, c);
    Ids(r, c);
    LogOf(r);
    Growth.StartIsSettled(m.mon.os.log, r.mon.os.log, c);
  }

  lemma LogOf(m: Machine)
    requires Inv(m)
    ensures Ledger.Good(m.mon.os.log)
  {
  }

  /** The processes, their index and what the kernel has to say about them are as before. */
  ghost predicate Calm(a: Machine, b: Machine) {
    && b.mon.procs == a.mon.procs && b.mon.byPid == a.mon.byPid && b.alive == a.alive
    && b.mon.os.children == a.mon.os.children && b.mon.os.files == a.mon.os.files
    && b.mon.os.launches == a.mon.os.launches && b.mon.os.inputs == a.mon.os.inputs && b.mon.os.reaps == a.mon.os.reaps
    && NoMoreSharing(a, b)
  }

  /** If nothing can be launched, refilling slots only empties the queue. */
  lemma {:induction false} PumpIsCalm(m: Machine)
    requires m.mon.os.launches == []
    ensures var (r, ok) := Pump(m); ok && Calm(m, r)
    decreases |m.waiting|
  {
    if CanPump(m) {
      PumpOnceIsCalm(m);
      PumpIsCalm(PumpOnce(m).0);
    }
  }

  lemma PumpOnceIsCalm(m: Machine)
    requires m.mon.os.launches == [] && CanPump(m)
    ensures var (r, ok) := PumpOnce(m); ok && Calm(m, r)
  {
    var j, log := m.waiting[0], m.mon.os.log;
    var l1 := Then(log, Taken(j));
    var l2 := Then(l1, Settled(j));
    assert PumpOnce(m).0.mon.os.log == Then(l2, Released(j));
    assert Ledger.Of(l1).reused == Ledger.Of(log).reused && Ledger.Of(l1).reusing == Ledger.Of(log).reusing;
    assert Ledger.Of(l2).reused == Ledger.Of(log).reused && Ledger.Of(l2).reusing == Ledger.Of(log).reusing;
  }

  lemma {:induction false} DeliverIsCalm(m: Machine)
    requires m.mon.os.launches == []
    ensures Calm(m, Deliver(m))
    decreases |m.mon.pending|
  {
    if m.mon.pending != [] {
      PumpIsCalm(Retire(m));
      DeliverIsCalm(Pump(Retire(m)).0);
    }
  }

  function OpenEnds(p: Proc): nat {
    (if p.out.eof then 0 else 1) + (if p.err.eof then 0 else 1) + (if p.startup.eof then 0 else 1)
  }

  function OpenKind(p: Proc): (k: Kind)
    requires OpenEnds(p) > 0
    ensures !p.At(k).eof
  {
    if !p.out.eof then Stdout else if !p.err.eof then Stderr else StartupError
  }

  lemma PipeEventEnds(mon: Mon, a: JobId, k: Kind)
    requires a in mon.procs && a in mon.jobs && mon.procs[a].exited && !mon.procs[a].At(k).eof
    requires mon.os.inputs != [] && mon.os.inputs[0].EndOfFile?
    requires var fd := mon.procs[a].At(k).fd; fd in mon.os.files.open && mon.os.files.open[fd].job == a && mon.os.files.open[fd].kind == k
    ensures var p := mon.procs[a]; var q := p.Set(k, p.At(k).(fd := -1, eof := true)); var r := PipeEvent(mon, p.At(k).fd);
      && r.os.launches == mon.os.launches && r.os.inputs == mon.os.inputs[1..] && r.os.reaps == mon.os.reaps && r.os.children == mon.os.children
      && r.os.log == (if Complete(q) then Then(mon.os.log, Settled(a)) else mon.os.log)
      && if Complete(q) then r.procs == mon.procs - {a} && r.byPid == mon.byPid - {p.pid}
         else r.procs == mon.procs[a := q] && r.byPid == mon.byPid
  {
    hide Result, ReadFile;
    var p := mon.procs[a];
    var q := p.Set(k, p.At(k).(fd := -1, eof := true));
    var drained := DrainOnce(mon, a, k);
    assert Drain(mon, a, k) == drained;
    assert drained.procs == mon.procs[a := q] && drained.procs[a] == q && q.pid == p.pid;
    assert (mon.procs[a := q]) - {a} == mon.procs - {a};
  }

  /** One pipe of an exited job ends: the job settles if it was the last one. */
  lemma PipeEnds(m: Machine, a: JobId, k: Kind)
    requires Inv(m) && m.alive && m.mon.os.launches == [] && a in m.mon.procs && m.mon.procs[a].exited && !m.mon.procs[a].At(k).eof
    requires m.mon.os.inputs != [] && m.mon.os.inputs[0].EndOfFile?
    ensures var p := m.mon.procs[a]; var q := p.Set(k, p.At(k).(fd := -1, eof := true)); var r := Step(m, PipeReady(p.At(k).fd));
      && r.alive && r.mon.os.launches == [] && r.mon.os.inputs == m.mon.os.inputs[1..] && r.mon.os.reaps == m.mon.os.reaps
      && r.mon.os.children == m.mon.os.children && NoMoreSharing(m, r)
      && if Complete(q) then r.mon.procs == m.mon.procs - {a} && r.mon.byPid == m.mon.byPid - {p.pid}
         else r.mon.procs == m.mon.procs[a := q] && r.mon.byPid == m.mon.byPid
  {
    hide Inv, Ledger.Namesakes, PipeEvent, Deliver;
    LivePipe(m, a, k);
    PipeEventEnds(m.mon, a, k);
    DeliverIsCalm(m.(mon := PipeEvent(m.mon, m.mon.procs[a].At(k).fd)));
  }

  lemma LivePipe(m: Machine, a: JobId, k: Kind)
    requires Inv(m) && a in m.mon.procs && !m.mon.procs[a].At(k).eof
    ensures a in m.mon.jobs
    ensures var fd := m.mon.procs[a].At(k).fd;
      fd in m.mon.os.files.open && m.mon.os.files.open[fd].job == a && m.mon.os.files.open[fd].kind == k
  {
    Live(m.mon, a);
    assert EndOk(m.mon.os.files, m.mon.procs[a].At(k), Pipe(a, k, m.mon.procs[a].pid));
  }

  /** What is left of the streams of answers while the pipes of `a` end, one event each. */
  ghost predicate Closing(m: Machine, a: JobId) {
    && Inv(m) && Healthy(m) && m.alive && m.mon.os.launches == []
    && (forall x | x in m.mon.os.inputs :: x.EndOfFile?)
    && (a in m.mon.procs ==> m.mon.procs[a].exited && OpenEnds(m.mon.procs[a]) <= |m.mon.os.inputs|)
  }

  /** Nothing that matters for losing `c` has changed but the pipes of `a`. */
  ghost predicate Waits(m: Machine, r: Machine, c: JobId) {
    && r.mon.os.reaps == m.mon.os.reaps && r.mon.os.children == m.mon.os.children && NoMoreSharing(m, r)
    && c in m.mon.procs && c in r.mon.procs && r.mon.procs[c] == m.mon.procs[c]
  }

  lemma OnePipeEnds(m: Machine, a: JobId, c: JobId) returns (e: Event)
    requires Closing(m, a) && a in m.mon.procs && c in m.mon.procs && c != a
    ensures var r := Step(m, e);
      && Closing(r, a) && Waits(m, r, c)
      && if a in r.mon.procs then r.mon.procs[a].pid == m.mon.procs[a].pid && OpenEnds(r.mon.procs[a]) < OpenEnds(m.mon.procs[a])
         else m.mon.procs[a].pid !in r.mon.byPid
  {
    hide Inv, Healthy, Step, NoMoreSharing;
    var p := m.mon.procs[a];
    OpenSomewhere(m, a);
    var k := OpenKind(p);
    e := PipeReady(p.At(k).fd);
    assert m.mon.os.inputs[0] in m.mon.os.inputs;
    PipeEnds(m, a, k);
    StepKeeps(m, e);
    EndsShrink(p, k);
    assert forall x | x in m.mon.os.inputs[1..] :: x in m.mon.os.inputs;
  }

  lemma EndsShrink(p: Proc, k: Kind)
    requires !p.At(k).eof
    ensures var q := p.Set(k, p.At(k).(fd := -1, eof := true));
      OpenEnds(q) == OpenEnds(p) - 1 && q.pid == p.pid && q.exited == p.exited
  {
  }

  lemma {:induction false} AllPipesEnd(m: Machine, a: JobId, c: JobId) returns (events: seq<Event>)
    requires Closing(m, a) && a in m.mon.procs && c in m.mon.procs && c != a
    ensures var r := Resume(m, events); Closing(r, a) && Waits(m, r, c) && m.mon.procs[a].pid !in r.mon.byPid
    decreases OpenEnds(m.mon.procs[a])
  {
    hide Closing, Step, NoMoreSharing, OpenEnds;
    var e := OnePipeEnds(m, a, c);
    var next := Step(m, e);
    if a in next.mon.procs {
      var more := AllPipesEnd(next, a, c);
      events := [e] + more;
      ResumeCons(m, e, more);
      SharingAdds(m, next, Resume(next, more));
    } else {
      events := [e];
      ResumeCons(m, e, []);
      assert [e] + [] == [e];
    }
  }

  lemma SharingAdds(a: Machine, b: Machine, c: Machine)
    requires NoMoreSharing(a, b) && NoMoreSharing(b, c)
    ensures NoMoreSharing(a, c)
  {
  }

  lemma OpenSomewhere(m: Machine, a: JobId)
    requires Inv(m) && a in m.mon.procs && m.mon.procs[a].exited
    ensures OpenEnds(m.mon.procs[a]) > 0
  {
    assert !Complete(m.mon.procs[a]);
  }

  lemma {:induction false} ResumeCons(m: Machine, e: Event, more: seq<Event>)
    ensures Resume(m, [e] + more) == Resume(Step(m, e), more)
    decreases |more|
  {
    hide Step;
    var all := [e] + more;
    if more == [] {
      assert all[..0] == [] && Resume(m, all[..0]) == m;
    } else {
      ResumeCons(m, e, more[..|more| - 1]);
      assert all[..|all| - 1] == [e] + more[..|more| - 1];
    }
  }

  lemma CollectIgnores(mon: Mon, pid: Pid)
    requires pid !in mon.byPid && pid in mon.os.children && mon.os.reaps == [Child(pid, Exited(0))]
    ensures var r := Collect(mon);
      && r.procs == mon.procs && r.os.children == mon.os.children - {pid} && r.os.launches == mon.os.launches
      && r.os.log == Then(mon.os.log, Reaped(mon.os.children[pid], Exited(0)))
  {
    var empty := mon.(os := ReadSignals(mon.os));
    var once := ReapOnce(empty);
    assert NextReap(empty.os) == Child(pid, Exited(0));
    assert once.os.reaps == [];
    assert NextReap(once.os).NoneReady?;
    assert ReapAll(once) == ReapOnce(once);
  }

  /** SIGCHLD reports a child that the index does not have: nobody hears of it. */
  lemma ExitIsIgnored(m: Machine, c: JobId)
    requires Inv(m) && m.alive && m.mon.os.launches == [] && c in m.mon.procs
    requires var pid := m.mon.procs[c].pid; pid !in m.mon.byPid && IsChild(m.mon.os.children, pid, c) && m.mon.os.reaps == [Child(pid, Exited(0))]
    ensures var r := Step(m, ChildSignal); r.alive && Orphaned(r.mon, c) && NoMoreSharing(m, r)
  {
    hide Inv, Deliver, Ledger.Namesakes, Collect;
    Unmarked(m, c);
    CollectIgnores(m.mon, m.mon.procs[c].pid);
    DeliverIsCalm(m.(mon := Collect(m.mon)));
  }

  lemma Unmarked(m: Machine, c: JobId)
    requires Inv(m) && c in m.mon.procs && IsChild(m.mon.os.children, m.mon.procs[c].pid, c)
    ensures !m.mon.procs[c].exited
  {
  }

  lemma SharerOf(m: Machine, c: JobId)
    requires Inv(m) && AllRecorded(m) && c in m.mon.procs && IsChild(m.mon.os.children, m.mon.procs[c].pid, c)
    requires c in Ledger.Of(m.mon.os.log).reusing && m.mon.procs[c].pid in m.mon.byPid
    ensures exists a :: a in m.mon.procs && a != c && m.mon.procs[a].pid == m.mon.procs[c].pid && m.mon.procs[a].exited
  {
    var a :| a in m.mon.procs && a != c && m.mon.procs[a].pid == m.mon.procs[c].pid;
    Ids(m, a);
  }

  function Losing(m: Machine, pid: Pid): Os {
    m.mon.os.(launches := [], inputs := [EndOfFile, EndOfFile, EndOfFile], reaps := [Child(pid, Exited(0))])
  }

  /** Every job started with the id of an unsettled job can be lost, and that without sharing any further id. */
  lemma SharersCanBeLost(m: Machine, c: JobId) returns (s: Os, events: seq<Event>)
    requires Inv(m) && Healthy(m) && m.alive && AllRecorded(m)
    requires c in m.mon.procs && IsChild(m.mon.os.children, m.mon.procs[c].pid, c) && c in Ledger.Of(m.mon.os.log).reusing
    ensures var r := Resume(Answering(m, s), events); r.alive && Orphaned(r.mon, c) && NoMoreSharing(m, r)
  {
    hide Inv, Healthy, Ledger.Of, Step, AllRecorded;
    var pid := m.mon.procs[c].pid;
    s := Losing(m, pid);
    AnsweringKeeps(m, s);
    events := [];
    if pid in m.mon.byPid {
      SharerOf(m, c);
      var a :| a in m.mon.procs && a != c && m.mon.procs[a].pid == pid && m.mon.procs[a].exited;
      events := AllPipesEnd(Answering(m, s), a, c);
    }
    ExitIsIgnored(Resume(Answering(m, s), events), c);
    LostBy(m, c, s, events);
    events := events + [ChildSignal];
  }

  lemma LostBy(m: Machine, c: JobId, s: Os, events: seq<Event>)
    requires var r := Resume(Answering(m, s), events); NoMoreSharing(m, r)
    requires var r := Step(Resume(Answering(m, s), events), ChildSignal); r.alive && Orphaned(r.mon, c) && NoMoreSharing(Resume(Answering(m, s), events), r)
    ensures var r := Resume(Answering(m, s), events + [ChildSignal]); r.alive && Orphaned(r.mon, c) && NoMoreSharing(m, r)
  {
    hide Step;
    var all := events + [ChildSignal];
    assert all[..|all| - 1] == events;
    assert Resume(Answering(m, s), all) == Step(Resume(Answering(m, s), events), ChildSignal);
    SharingAdds(m, Resume(Answering(m, s), events), Resume(Answering(m, s), all));
  }

  /** As long as nothing is lost, a job whose child is still to be waited for can lose it in some later run
      exactly if it was started with the process id of a job that had not settled. */
  lemma FirstLossIff(m: Machine, c: JobId)
    requires Inv(m) && Healthy(m) && m.alive && AllRecorded(m)
    requires c in m.mon.procs && IsChild(m.mon.os.children, m.mon.procs[c].pid, c)
    ensures CanBeLost(m, c) <==> c in Ledger.Of(m.mon.os.log).reusing
  {
    hide Inv, Healthy, Ledger.Of, Resume;
    if CanBeLost(m, c) {
      OnlySharersAreLost(m, c);
    }
    if c in Ledger.Of(m.mon.os.log).reusing {
      var s, events := SharersCanBeLost(m, c);
    }
  }

  /** The same in terms of the run: of all live jobs whose child is still to be waited for, exactly those that were
      started with the process id of an unsettled job can lose it. */
  lemma LossIff(max: nat, os: Os, events: seq<Event>, c: JobId)
    requires max > 0 && Fresh(os) && Run(max, os, events).alive && c in Run(max, os, events).mon.procs
    requires var m := Run(max, os, events); var h := Runs.History(max, os, events);
      IsChild(m.mon.os.children, m.mon.procs[c].pid, c) && forall i | i in m.mon.procs && WasReaped(h, i) :: m.mon.procs[i].exited
    ensures CanBeLost(Run(max, os, events), c) <==> Reusing(Runs.History(max, os, events), c)
  {
    hide Run, Inv, Healthy, Ledger.Of, Reusing, Reused, CanBeLost;
    var m := Run(max, os, events);
    RunKeeps(max, os, events);
    Runs.LogIsGood(max, os, events);
    ReusedIsHistory(m.mon.os.log, c);
    forall i | i in m.mon.procs && i in Ledger.Of(m.mon.os.log).reaped
      ensures m.mon.procs[i].exited
    {
      SettledIsHistory(m.mon.os.log, i);
    }
    FirstLossIff(m, c);
  }
}
