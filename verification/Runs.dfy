/** The results: what holds in every state and every history of every run of the daemon,
    for any number of slots, any sequence of events and any answers of the kernel. */
module Runs {
  import opened Jobs
  import opened Kernel
  import opened MonitorSpec
  import opened MonitorInvariant
  import opened Deadlines
  import opened Machine
  import opened MachineInvariant
  import opened Histories
  import Ledger
  import Progress

  ghost function History(max: nat, os: Os, events: seq<Event>): seq<Record> {
    Trace(Run(max, os, events).mon.os.log)
  }

  lemma LogIsGood(max: nat, os: Os, events: seq<Event>)
    requires max > 0 && Fresh(os)
    ensures Ledger.Good(Run(max, os, events).mon.os.log)
  {
    RunKeeps(max, os, events);
  }

  // ----- states -----

  /** Job table, queue, process table, slots and notifications agree; live processes and
      occupied slots never exceed the limit. */
  ghost predicate Agree(m: Machine) {
    && (forall j | j in m.mon.jobs :: m.mon.jobs[j].state.Queued? <==> j in m.waiting)
    && Members(m.waiting) <= m.mon.jobs.Keys
    && m.mon.procs.Keys == (set j | j in m.mon.jobs && IsActive(m.mon.jobs[j].state))
    && (forall j | j in m.mon.pending :: j in m.mon.jobs && IsTerminal(m.mon.jobs[j].state))
    && Distinct(m.mon.pending)
    && m.slots == m.mon.procs.Keys + Members(m.mon.pending)
    && |m.slots| == |m.mon.procs| + |m.mon.pending|
    && |m.slots| <= m.max
    && m.timers.Keys <= m.slots
  }

  lemma ModulesAgree(max: nat, os: Os, events: seq<Event>)
    requires max > 0 && Fresh(os)
    ensures Agree(Run(max, os, events)) && Run(max, os, events).max == max
  {
    hide Run, Agree, MonInv, QueueOk, SlotsOk, TimersOk, BooksOk;
    RunKeeps(max, os, events);
    InvAgrees(Run(max, os, events));
  }

  lemma InvAgrees(m: Machine)
    requires Inv(m)
    ensures Agree(m)
  {
    hide MonInv, BooksOk, DeadlineOk, Increasing;
    TableAgrees(m.mon);
    PendingIsGone(m.mon);
    SlotsCount(m.slots, m.mon.procs.Keys, m.mon.pending, m.max);
  }

  lemma TableAgrees(mon: Mon)
    requires MonInv(mon)
    ensures mon.procs.Keys == (set j | j in mon.jobs && IsActive(mon.jobs[j].state))
    ensures forall j | j in mon.pending :: j in mon.jobs && IsTerminal(mon.jobs[j].state)
  {
    hide PipesOk, ChildrenOk, IndexOk, IdsOk, OutputOk, StatusOk, LedgerOk, LogOk, NoneComplete, JobOk;
  }

  lemma PendingIsGone(mon: Mon)
    requires MonInv(mon)
    ensures forall j | j in mon.pending :: j !in mon.procs
    ensures Distinct(mon.pending)
  {
  }

  lemma SlotsCount(slots: set<JobId>, live: set<JobId>, pending: seq<JobId>, max: nat)
    requires SlotsOk(slots, live, pending, max) && Distinct(pending) && (forall j | j in pending :: j !in live)
    ensures slots == live + Members(pending) && |slots| == |live| + |pending|
  {
    DistinctSize(pending);
    assert slots == live + Members(pending);
    assert live !! Members(pending);
  }

  lemma {:induction false} DistinctSize(q: seq<JobId>)
    requires Distinct(q)
    ensures |Members(q)| == |q|
  {
    if q != [] {
      var rest := q[1..];
      assert forall x, y | 0 <= x < y < |rest| :: rest[x] == q[x + 1] && rest[y] == q[y + 1];
      DistinctSize(rest);
      assert Members(q) == {q[0]} + Members(rest);
      assert q[0] !in rest;
    }
  }

  /** Unless a timer could not be armed for a started job, no job waits beside a free slot and
      the timer is set no later than the earliest deadline (or one nanosecond after setting it). */
  lemma NothingIsLate(max: nat, os: Os, events: seq<Event>)
    requires max > 0 && Fresh(os)
    ensures var m := Run(max, os, events);
      m.alive && !m.degraded ==>
        && (m.waiting == [] || |m.slots| == max)
        && (forall j | j in m.timers :: m.mon.os.timer.Armed? &&
              (m.mon.os.timer.fireAt <= m.timers[j] || m.mon.os.timer.fireAt == m.mon.os.timer.setAt + 1))
  {
    RunKeeps(max, os, events);
  }

  /** A finished process is always settled at once: none is left in the table at an event boundary. */
  lemma FinishedProcessesAreSettled(max: nat, os: Os, events: seq<Event>)
    requires max > 0 && Fresh(os)
    ensures forall j | j in Run(max, os, events).mon.procs :: !Complete(Run(max, os, events).mon.procs[j])
  {
    RunKeeps(max, os, events);
  }

  /** No job is stuck in TERMINATING: a grace deadline is ahead of it or a SIGKILL behind it.
      No configured timeout is lost either. */
  lemma NoJobIsForgotten(max: nat, os: Os, events: seq<Event>, j: JobId)
    requires max > 0 && Fresh(os)
    requires Run(max, os, events).alive && j in Run(max, os, events).mon.jobs
    ensures var m := Run(max, os, events); var job := m.mon.jobs[j]; var h := History(max, os, events);
      && (job.state.Terminating? && j !in m.timers ==>
            exists k :: 0 <= k < |h| && h[k].Signalled? && h[k].job == j && h[k].signal.SigKill? && !h[k].answer.KillInterrupted?)
      && (job.state.Running? && job.spec.timeout.Some? && !m.degraded && j !in m.timers ==>
            exists k :: 0 <= k < |h| && h[k].Signalled? && h[k].job == j && h[k].reason.OnTimeout? && !h[k].answer.KillInterrupted?)
  {
    Progress.RunWatches(max, os, events);
    var m := Run(max, os, events);
    assert WatchedJob(m.timers, Ledger.Of(m.mon.os.log), m.degraded, j, m.mon.jobs[j]);
    if j in Ledger.Of(m.mon.os.log).killed {
      var k := SignalOf(m.mon.os.log, j, SigKill);
      assert History(max, os, events)[k].job == j;
    }
    if j in Ledger.Of(m.mon.os.log).expired {
      var k := SignalOf(m.mon.os.log, j, SigTerm);
      assert History(max, os, events)[k].job == j;
    }
  }

  lemma {:induction false} SignalOf(log: Log, j: JobId, signal: Signal) returns (k: nat)
    requires if signal.SigKill? then j in Ledger.Of(log).killed else j in Ledger.Of(log).expired
    ensures k < |Trace(log)| && Trace(log)[k].Signalled? && Trace(log)[k].job == j && Trace(log)[k].signal == signal && !Trace(log)[k].answer.KillInterrupted?
    ensures signal.SigTerm? ==> Trace(log)[k].reason.OnTimeout?
  {
    if log.last.Signalled? && log.last.job == j && log.last.signal == signal && !log.last.answer.KillInterrupted? && (signal.SigTerm? ==> log.last.reason.OnTimeout?) {
      k := |Trace(log)| - 1;
    } else {
      k := SignalOf(log.earlier, j, signal);
    }
  }

  // ----- jobs -----

  /** Every accepted id is waiting, taken or withdrawn, exactly one of the three; ids lie in 1..2^64-1. */
  lemma EveryJobIsAccountedFor(max: nat, os: Os, events: seq<Event>, j: JobId)
    requires max > 0 && Fresh(os) && j in Run(max, os, events).mon.jobs
    ensures var m := Run(max, os, events); var h := History(max, os, events);
      var waits, taken, withdrawn := j in m.waiting, Taken(j) in h, Withdrawn(j) in h;
      && 0 < j < JOB_ID_SPACE && m.mon.jobs[j].id == j
      && (waits || taken || withdrawn) && !(waits && taken) && !(waits && withdrawn) && !(taken && withdrawn)
      && (withdrawn ==> m.mon.jobs[j].state.Cancelled? && m.mon.jobs[j].pid.None?)
  {
    RunKeeps(max, os, events);
    var m := Run(max, os, events);
    Known(m.mon, j);
    hide Run, MonInv, SlotsOk, TimersOk;
    LedgerIsHistory(m.mon.os.log, j);
  }

  lemma {:induction false} LedgerIsHistory(log: Log, j: JobId)
    ensures j in Ledger.Of(log).taken <==> Taken(j) in Trace(log)
    ensures j in Ledger.Of(log).withdrawn <==> Withdrawn(j) in Trace(log)
    ensures j in Ledger.Of(log).running <==> exists r :: r in Trace(log) && r.Started? && r.job == j
  {
    if log.Then? {
      LedgerIsHistory(log.earlier, j);
    }
  }

  /** State, cause, exit code and exit signal of every job belong together; in particular
      SUCCEEDED means exit code 0 and no cause, TIMED_OUT means that cause and a configured
      timeout, CANCELLED means that cause or never started, and INTERRUPTED does not occur. */
  lemma ResultsAreConsistent(max: nat, os: Os, events: seq<Event>, j: JobId)
    requires max > 0 && Fresh(os) && j in Run(max, os, events).mon.jobs
    ensures var job := Run(max, os, events).mon.jobs[j];
      && !job.state.Interrupted?
      && !(job.exitCode.Some? && job.exitSignal.Some?)
      && (job.state.Succeeded? ==> job.exitCode == Some(0) && job.cause.None? && !job.failed)
      && (job.state.Failed? ==> job.cause.None? && job.failed && job.exitCode != Some(0))
      && (job.state.TimedOut? ==> job.cause == Some(CauseTimedOut) && job.spec.timeout.Some?)
      && (job.state.Cancelled? ==> job.cause == Some(CauseCancelled) || (job.cause.None? && job.pid.None?))
      && (job.state.TimedOut? || (job.state.Cancelled? && job.pid.Some?) ==> job.exitCode.Some? || job.exitSignal.Some?)
      && (!IsTerminal(job.state) ==> NoResult(job))
  {
    RunKeeps(max, os, events);
    Known(Run(max, os, events).mon, j);
    hide Run, Core;
  }

  /** A finished job that ran holds, byte for byte, everything its two pipes delivered up to their end. */
  lemma OutputIsComplete(max: nat, os: Os, events: seq<Event>, j: JobId)
    requires max > 0 && Fresh(os) && j in Run(max, os, events).mon.jobs
    requires IsTerminal(Run(max, os, events).mon.jobs[j].state)
    requires exists r :: r in History(max, os, events) && r.Started? && r.job == j
    ensures var m := Run(max, os, events); var job := m.mon.jobs[j]; var files := m.mon.os.files;
      && job.pid.Some?
      && var out, err := Pipe(j, Stdout, job.pid.value), Pipe(j, Stderr, job.pid.value);
         && out in files.delivered && files.delivered[out] == job.stdout && out in files.ended
         && err in files.delivered && files.delivered[err] == job.stderr && err in files.ended
  {
    RunKeeps(max, os, events);
    LedgerIsHistory(Run(max, os, events).mon.os.log, j);
    hide Run, TableOk, PipesOk, ChildrenOk, LedgerOk, LogOk;
  }

  /** `h` handed out the code or signal of the record, unless the startup pipe spoke first. */
  ghost predicate OwnResult(job: Job, h: seq<Record>, startup: Bytes) {
    && (job.cause.Some? || startup == [] ==>
          && (forall code: nat :: job.exitCode == Some(code) <==> Reaped(job.id, Exited(code)) in h)
          && (forall signal: nat :: job.exitSignal == Some(signal) <==> Reaped(job.id, Signaled(signal)) in h)
          && (job.cause.None? ==> (job.state.Succeeded? <==> Reaped(job.id, Exited(0)) in h)))
    && (job.cause.None? && startup != [] ==> job.state.Failed? && job.exitCode.None? && job.exitSignal.None?)
  }

  /** The exit code and the exit signal of a finished job are those of its own child, as the kernel handed them out.  Only
      a job that was not being terminated and whose startup pipe delivered something fails with neither. */
  lemma ResultsAreTheChildsOwn(max: nat, os: Os, events: seq<Event>, j: JobId)
    requires max > 0 && Fresh(os) && j in Run(max, os, events).mon.jobs
    requires IsTerminal(Run(max, os, events).mon.jobs[j].state)
    requires exists r :: r in History(max, os, events) && r.Started? && r.job == j
    requires !Reusing(History(max, os, events), j)
    ensures var m := Run(max, os, events); var job, h, files := m.mon.jobs[j], History(max, os, events), m.mon.os.files;
      && job.pid.Some? && (exists status :: Reaped(j, status) in h)
      && var startup := Pipe(j, StartupError, job.pid.value);
         && startup in files.delivered && startup in files.ended && OwnResult(job, h, files.delivered[startup])
  {
    MonitorKeeps(max, os, events);
    hide Run, MonInv, Reusing;
    MonResult(Run(max, os, events).mon, j);
  }

  lemma MonResult(mon: Mon, j: JobId)
    requires MonInv(mon) && j in mon.jobs && IsTerminal(mon.jobs[j].state) && !Reusing(Trace(mon.os.log), j)
    requires exists r :: r in Trace(mon.os.log) && r.Started? && r.job == j
    ensures var job, h, files := mon.jobs[j], Trace(mon.os.log), mon.os.files;
      && job.pid.Some? && (exists status :: Reaped(j, status) in h)
      && var startup := Pipe(j, StartupError, job.pid.value);
         && startup in files.delivered && startup in files.ended && OwnResult(job, h, files.delivered[startup])
  {
    GoodLog(mon);
    hide MonInv, Reusing, Ledger.Good, JobOk, ResultIs;
    LedgerIsHistory(mon.os.log, j);
    ReusedIsHistory(mon.os.log, j);
    ResultOf(mon, j);
    StatusIsHistory(mon.os.log, j);
    var status := Ledger.Of(mon.os.log).reaped[j];
    assert Reaped(j, status) in Trace(mon.os.log);
    IsOwnResult(mon.jobs[j], Trace(mon.os.log), status, mon.os.files.delivered[Pipe(j, StartupError, mon.jobs[j].pid.value)]);
  }

  lemma GoodLog(mon: Mon)
    requires MonInv(mon)
    ensures Ledger.Good(mon.os.log) && forall j | j in mon.jobs :: mon.jobs[j].id == j
  {
  }

  lemma IsOwnResult(job: Job, h: seq<Record>, status: WaitStatus, startup: Bytes)
    requires JobOk(job) && IsTerminal(job.state) && job.pid.Some? && ResultIs(job, status, startup)
    requires forall s :: Reaped(job.id, s) in h <==> s == status
    ensures OwnResult(job, h, startup)
  {
  }

  lemma MonitorKeeps(max: nat, os: Os, events: seq<Event>)
    requires max > 0 && Fresh(os)
    ensures MonInv(Run(max, os, events).mon)
  {
    RunKeeps(max, os, events);
  }

  lemma ResultOf(mon: Mon, j: JobId)
    requires MonInv(mon) && j in mon.jobs && IsTerminal(mon.jobs[j].state)
    requires var l := Ledger.Of(mon.os.log); j in l.running && j !in l.reusing
    ensures JobOk(mon.jobs[j]) && StatusIs(Ledger.Of(mon.os.log), mon.jobs[j], mon.os.files, j)
  {
    hide JobOk, StatusIs, PipesOk, ChildrenOk, IndexOk, IdsOk, OutputOk, LedgerOk, LogOk, NoneComplete;
  }

  lemma {:induction false} StatusIsHistory(log: Log, j: JobId)
    requires Ledger.Good(log)
    ensures forall status :: Reaped(j, status) in Trace(log) <==> j in Ledger.Of(log).reaped && Ledger.Of(log).reaped[j] == status
  {
    if log.Then? {
      StatusIsHistory(log.earlier, j);
    }
  }

  /** From any moment of a run to any later one: a job keeps its identity, its first cause and,
      once terminal, everything; its states follow the state machine. */
  lemma FirstCauseWins(max: nat, os: Os, events: seq<Event>, n: nat, j: JobId)
    requires max > 0 && Fresh(os) && n <= |events| && j in Run(max, os, events[..n]).mon.jobs
    ensures j in Run(max, os, events).mon.jobs
    ensures var a, b := Run(max, os, events[..n]).mon.jobs[j], Run(max, os, events).mon.jobs[j];
      && a.id == b.id && a.spec == b.spec && Follows(a.state, b.state)
      && (a.cause.Some? ==> b.cause == a.cause)
      && (IsTerminal(a.state) ==> b == a)
  {
    Progress.RunEvolves(max, os, events, n);
  }

  // ----- histories -----

  /** Queue time never counts: a timeout SIGTERM comes no earlier than the moment the job became
      RUNNING plus its timeout. */
  lemma TimeoutsAreNeverEarly(max: nat, os: Os, events: seq<Event>, i: nat)
    requires max > 0 && Fresh(os) && i < |History(max, os, events)|
    requires var r := History(max, os, events)[i]; r.Signalled? && r.signal.SigTerm? && r.reason.OnTimeout?
    ensures var h := History(max, os, events);
      exists k :: 0 <= k < i && h[k].Started? && h[k].job == h[i].job && h[k].timeout.Some? &&
        h[k].at + h[k].timeout.value * 1_000_000 <= h[i].at
  {
    LogIsGood(max, os, events);
    TermFollowsStart(Run(max, os, events).mon.os.log, i);
  }

  /** SIGKILL only after a delivered SIGTERM, and a full grace period later unless the grace
      deadline was refused. */
  lemma GraceIsRespected(max: nat, os: Os, events: seq<Event>, i: nat)
    requires max > 0 && Fresh(os) && i < |History(max, os, events)|
    requires var r := History(max, os, events)[i]; r.Signalled? && r.signal.SigKill?
    ensures var h := History(max, os, events);
      exists t :: 0 <= t < i && IsTerm(h[t], h[i].job) &&
        (h[t].at + 1_000_000_000 <= h[i].at || exists k :: t < k < i && h[k] == Refused(h[i].job))
  {
    LogIsGood(max, os, events);
    KillFollowsTerm(Run(max, os, events).mon.os.log, i);
  }

  /** At most one SIGTERM gets through and one SIGKILL is answered, none of either after the job
      settled; slots are released once, jobs taken or withdrawn once, in order of submission. */
  lemma MilestonesHappenOnce(max: nat, os: Os, events: seq<Event>, k: nat, i: nat)
    requires max > 0 && Fresh(os) && k < i < |History(max, os, events)|
    ensures var h := History(max, os, events);
      && !SameMilestone(h[k], h[i])
      && (h[k].Taken? && h[i].Taken? ==> h[k].job < h[i].job)
      && (h[k].Submitted? && h[i].Submitted? ==> h[k].job < h[i].job)
  {
    LogIsGood(max, os, events);
    AtMostOnce(Run(max, os, events).mon.os.log, k, i);
    FirstComeFirstServed(Run(max, os, events).mon.os.log, k, i);
  }

  /** It is the kernel that knows whose process group a signal reaches.  A signal that got through reached the
      group of the job it was meant for as long as the exit of that job's child was not handed out.  After that a
      group of ours that it reached is the job's own exactly if its process id was not given to a later job,
      and that of a later job with the id otherwise. */
  lemma SignalsReachTheirGroup(max: nat, os: Os, events: seq<Event>, i: nat)
    requires max > 0 && Fresh(os) && i < |History(max, os, events)|
    requires var r := History(max, os, events)[i]; r.Signalled? && r.answer.Sent?
    ensures var h := History(max, os, events); var j := h[i].job;
      && (!WasReaped(h[..i], j) ==> h[i].target == Own(j))
      && (h[i].target.Own? ==>
            && (exists k, t :: 0 <= k < i && 0 <= t < i && h[k].Started? && h[k].job == j &&
                  h[t].Started? && h[t].job == h[i].target.job && h[t].pid == h[k].pid && j <= h[t].job)
            && (h[i].target == Own(j) <==> !Reused(h[..i], j)))
  {
    hide Run, Reused;
    LogIsGood(max, os, events);
    SignalsAreAimed(Run(max, os, events).mon.os.log, i);
  }

  /** No process group of ours is sent SIGTERM or SIGKILL twice, unless the id of one of the two jobs meant was
      given to a later job. */
  lemma GroupsAreSignalledOnce(max: nat, os: Os, events: seq<Event>, k: nat, i: nat)
    requires max > 0 && Fresh(os) && k < i < |History(max, os, events)|
    requires var h := History(max, os, events);
      && h[k].Signalled? && h[i].Signalled? && h[k].answer.Sent? && h[i].answer.Sent? && h[k].signal == h[i].signal
      && h[k].target == h[i].target && h[i].target.Own?
    ensures var h := History(max, os, events); Reused(h[..k], h[k].job) || Reused(h[..i], h[i].job)
  {
    hide Run, Reused;
    SignalsReachTheirGroup(max, os, events, k);
    SignalsReachTheirGroup(max, os, events, i);
    MilestonesHappenOnce(max, os, events, k, i);
  }

  /** A slot is held exactly from the moment its job is taken until it is released, and it is
      released only after the job settled. */
  lemma SlotsAreConserved(max: nat, os: Os, events: seq<Event>, j: JobId)
    requires max > 0 && Fresh(os)
    ensures var h := History(max, os, events);
      j in Run(max, os, events).slots <==> Taken(j) in h && Released(j) !in h
    ensures var h := History(max, os, events);
      Released(j) in h ==> exists t, k, i :: 0 <= t < k < i < |h| && h[t] == Taken(j) && h[k] == Settled(j) && h[i] == Released(j)
  {
    hide Run, MonInv, QueueOk, SlotsOk, TimersOk, Healthy, Ledger.Good, Ledger.Of;
    RunKeeps(max, os, events);
    var log := Run(max, os, events).mon.os.log;
    LedgerIsHistory(log, j);
    ReleasedIsHistory(log, j);
    if Released(j) in Trace(log) {
      LogIsGood(max, os, events);
      var i :| 0 <= i < |Trace(log)| && Trace(log)[i] == Released(j);
      ReleaseFollowsSettlement(log, i);
    }
  }

  lemma {:induction false} ReleasedIsHistory(log: Log, j: JobId)
    ensures j in Ledger.Of(log).released <==> Released(j) in Trace(log)
  {
    if log.Then? {
      ReleasedIsHistory(log.earlier, j);
    }
  }
}
