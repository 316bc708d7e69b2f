/** Signals that reach a process group of somebody else (`sendSignalToProcessGroup` in src/process_monitor.cpp).

    Once the child of a job has been waited for, nothing keeps its process id: the job's group may die out while
    a pipe is still open, and the id may come to name another job's group or one that is not ours at all. */
module Astray {
  import opened Jobs
  import opened Kernel
  import opened MonitorSpec
  import opened MonitorInvariant
  import opened Machine
  import opened MachineInvariant
  import opened Histories
  import Ledger
  import Runs
  import PidReuse

  /** Other answers to what a signal call asks the kernel. */
  function Deciding(os: Os, s: Os): Os {
    os.(ticks := s.ticks, kills := s.kills, extinct := s.extinct)
  }

  /** The last record is a signal meant for `j` that got through to another group. */
  predicate WentAstray(log: Log, j: JobId) {
    log.Then? && log.last.Signalled? && log.last.job == j && log.last.answer.Sent? && log.last.target != Own(j)
  }

  ghost predicate MayStray(mon: Mon, j: JobId, signal: Signal, reason: Reason)
    requires j in mon.procs
  {
    exists s: Os :: WentAstray(KillGroup(Deciding(mon.os, s), mon.procs[j].pid, j, signal, reason).0.log, j)
  }

  /** A signal sent now may reach another group, if the kernel answers so, exactly if the exit of the job's
      child has been handed out. */
  lemma StraysIff(mon: Mon, j: JobId, signal: Signal, reason: Reason)
    requires Core(mon) && j in mon.procs
    ensures MayStray(mon, j, signal, reason) <==> j in Ledger.Of(mon.os.log).reaped
  {
    hide Core, KillGroup;
    GroupOf(mon, j);
    if j in Ledger.Of(mon.os.log).reaped {
      HandedOut(mon, j);
      StrayNow(mon.os, mon.procs[j].pid, j, signal, reason);
      assert WentAstray(KillGroup(Deciding(mon.os, Extinct(mon.os)), mon.procs[j].pid, j, signal, reason).0.log, j);
    } else {
      forall s: Os
        ensures !WentAstray(KillGroup(Deciding(mon.os, s), mon.procs[j].pid, j, signal, reason).0.log, j)
      {
        ChildKeepsGroup(Deciding(mon.os, s), mon.procs[j].pid, j, signal, reason);
      }
    }
  }

  function Extinct(os: Os): Os {
    os.(ticks := [], kills := [], extinct := [true])
  }

  /** The id is no child's, or that of another live job's child, whose group has it. */
  lemma HandedOut(mon: Mon, j: JobId)
    requires Core(mon) && j in mon.procs && j in Ledger.Of(mon.os.log).reaped
    ensures var pid := mon.procs[j].pid; pid in mon.os.children ==> pid in mon.os.groups && mon.os.groups[pid] != j
  {
    var l, pid := Ledger.Of(mon.os.log), mon.procs[j].pid;
    assert IdOk(l, mon.procs[j], mon.byPid, mon.os.children, mon.os.groups, j);
    if pid in mon.os.children {
      var x := mon.os.children[pid];
      assert IdOk(l, mon.procs[x], mon.byPid, mon.os.children, mon.os.groups, x);
    }
  }

  lemma StrayNow(os: Os, pid: Pid, j: JobId, signal: Signal, reason: Reason)
    requires pid in os.children ==> pid in os.groups && os.groups[pid] != j
    ensures var (r, a) := KillGroup(Deciding(os, Extinct(os)), pid, j, signal, reason); a == Sent && WentAstray(r.log, j)
  {
    var d := Deciding(os, Extinct(os));
    assert KillGroup(d, pid, j, signal, reason) == (KillOnce(d, pid, j, signal, reason), Sent);
  }

  lemma {:induction false} ChildKeepsGroup(os: Os, pid: Pid, j: JobId, signal: Signal, reason: Reason)
    requires pid in os.children && pid in os.groups && os.groups[pid] == j
    ensures !WentAstray(KillGroup(os, pid, j, signal, reason).0.log, j)
    decreases |os.kills|
  {
    if NextKill(os).KillInterrupted? {
      ChildKeepsGroup(KillOnce(os, pid, j, signal, reason), pid, j, signal, reason);
    }
  }

  // ----- the next signal -----

  /** Nothing more to read, nothing more to wait for, and the group has died out if it can. */
  function Silent(os: Os): Os {
    os.(ticks := [], inputs := [], polls := [], kills := [], extinct := [true])
  }

  lemma NothingToRead(mon: Mon, j: JobId, k: Kind)
    requires j in mon.procs && mon.os.inputs == []
    ensures var r := DrainOpen(mon, j, k); r.procs == mon.procs && r == mon.(os := mon.os.(files := r.os.files))
  {
    var p := mon.procs[j];
    assert p.Set(k, p.At(k)) == p;
    assert mon.procs[j := p] == mon.procs;
  }

  /** A live job that the kernel has nothing to say about stays as it is. */
  lemma NothingToFinish(mon: Mon, j: JobId)
    requires j in mon.procs && !Complete(mon.procs[j]) && !Orphaned(mon, j) && mon.os.inputs == [] && (mon.procs[j].exited || mon.os.polls == [])
    ensures var r := FinishExited(mon, j); r.procs == mon.procs && r == mon.(os := mon.os.(files := r.os.files))
  {
    hide DrainOpen;
    assert PollExit(mon, j) == mon;
    if mon.procs[j].exited {
      NothingToRead(mon, j, Stdout);
      var m1 := DrainOpen(mon, j, Stdout);
      NothingToRead(m1, j, Stderr);
      var m2 := DrainOpen(m1, j, Stderr);
      NothingToRead(m2, j, StartupError);
    }
  }

  /** Once the exit of the child was handed out, some answers make the next SIGTERM and the next SIGKILL of a job that
      can be signalled at all reach another group. */
  lemma NextSignalMayStray(m: Machine, j: JobId, cause: Cause, reason: Reason)
    requires Inv(m) && j in m.mon.procs && !Orphaned(m.mon, j) && j in Ledger.Of(m.mon.os.log).reaped
    ensures var n := PidReuse.Answering(m, Silent(m.mon.os)).mon;
      && j in n.jobs
      && (var (r, a) := RequestTerminate(n, j, cause); a.Delivered? && WentAstray(r.os.log, j))
      && (var (r, a) := ForceKill(n, j, reason); a.Delivered? && WentAstray(r.os.log, j))
  {
    hide Inv, RequestTerminate, ForceKill, Ledger.Of, Complete;
    LiveJob(m, j);
    AttemptsStray(PidReuse.Answering(m, Silent(m.mon.os)).mon, j, cause, reason);
  }

  lemma AttemptsStray(n: Mon, j: JobId, cause: Cause, reason: Reason)
    requires j in n.procs && j in n.jobs && !Complete(n.procs[j]) && !Orphaned(n, j)
    requires n.os == Silent(n.os) && (n.procs[j].pid in n.os.children ==> n.procs[j].pid in n.os.groups && n.os.groups[n.procs[j].pid] != j)
    ensures var (r, a) := RequestTerminate(n, j, cause); a.Delivered? && WentAstray(r.os.log, j)
    ensures var (r, a) := ForceKill(n, j, reason); a.Delivered? && WentAstray(r.os.log, j)
  {
    hide FinishExited, KillGroup;
    NothingToFinish(n, j);
    var mid := FinishExited(n, j);
    assert Deciding(mid.os, Extinct(mid.os)) == mid.os;
    StrayNow(mid.os, n.procs[j].pid, j, SigTerm, ReasonOf(cause));
    StrayNow(mid.os, n.procs[j].pid, j, SigKill, reason);
  }

  lemma LiveJob(m: Machine, j: JobId)
    requires Inv(m) && j in m.mon.procs
    ensures j in m.mon.jobs && !Complete(m.mon.procs[j])
    ensures var pid := m.mon.procs[j].pid;
      j in Ledger.Of(m.mon.os.log).reaped && pid in m.mon.os.children ==> pid in m.mon.os.groups && m.mon.os.groups[pid] != j
  {
    Live(m.mon, j);
    if j in Ledger.Of(m.mon.os.log).reaped {
      HandedOut(m.mon, j);
    }
  }

  /** The same in terms of a run. */
  lemma SignalsMayStrayIff(max: nat, os: Os, events: seq<Event>, j: JobId, signal: Signal, reason: Reason)
    requires max > 0 && Fresh(os) && j in Run(max, os, events).mon.procs
    ensures MayStray(Run(max, os, events).mon, j, signal, reason) <==> WasReaped(Runs.History(max, os, events), j)
  {
    hide Run, MayStray, Core, Ledger.Of;
    RunKeeps(max, os, events);
    StraysIff(Run(max, os, events).mon, j, signal, reason);
    SettledIsHistory(Run(max, os, events).mon.os.log, j);
  }
}
