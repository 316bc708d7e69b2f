/** The daemon (src/runnerd_main.cpp): scheduler, process monitor and timeout manager over one job
    table, driven by events.  Its methods are proved to do what the step machine does.  Of the internal
    consistency checks of the source two can fail, "child pid is already registered", which is handled, and
    "active child was reaped without being recorded"; the others are proved unreachable. */
module Daemon {
  import opened Jobs
  import opened Kernel
  import opened Exceptions
  import opened Host
  import opened MonitorSpec
  import opened MonitorInvariant
  import opened Deadlines
  import opened Machine
  import opened MachineInvariant
  import opened JobScheduler
  import opened ProcessMonitor
  import opened TimeoutManager
  import opened Wire
  import opened Decimal
  import opened Requests
  import opened Protocol
  import opened Listing
  import Ledger

  /** Exceptions that may leave an operation: a failed system call or an exhausted counter. */
  predicate External(r: Outcome) {
    r.Done? || r.error.SystemError? || r.error.Overflow?
  }

  lemma TakenIsSound(m: Machine)
    requires Inv(m) && CanPump(m)
    ensures MonInv(Take(m).mon) && m.mon.jobs[m.waiting[0]].state.Queued?
  {
    hide MonInv, SlotsOk, TimersOk;
    HeadIsFree(m);
    TakeBooks(Ledger.Of(m.mon.os.log), m.mon.jobs, m.waiting, m.slots);
    NoteKeepsMon(m.mon, Taken(m.waiting[0]));
  }

  lemma StartKeepsJob(mon: Mon, j: JobId)
    requires j in mon.jobs
    ensures j in Start(mon, j).jobs
  {
  }

  lemma TimeoutIsPositive(m: Machine, j: JobId)
    requires Inv(m) && j in m.mon.jobs
    ensures m.mon.jobs[j].spec.timeout.Some? ==> m.mon.jobs[j].spec.timeout.value > 0
  {
    Known(m.mon, j);
  }

  lemma NotificationIsSound(m: Machine)
    requires Inv(m) && m.mon.pending != []
    ensures var j := m.mon.pending[0]; j in m.mon.jobs && IsTerminal(m.mon.jobs[j].state) && j in m.slots
  {
    hide MonInv;
    RetireMon(m.mon);
    assert m.mon.pending[0] in m.mon.pending;
  }

  lemma RetireShrinks(m: Machine)
    requires m.mon.pending != []
    ensures Retire(m).mon.pending == m.mon.pending[1..]
  {
  }

  lemma PumpPending(m: Machine)
    ensures Pump(m).0.mon.pending == m.mon.pending
  {
  }

  /** SIGTERM has just been sent and the state is TERMINATING. */
  ghost predicate CanEscalate(m: Machine, j: JobId) {
    && Inv(Unschedule(m, j)) && j in m.mon.jobs && m.mon.jobs[j].state.Terminating? && j in m.slots && !Orphaned(m.mon, j)
    && DeadlineOk(Ledger.Of(m.mon.os.log), m.mon.jobs[j], m.mon.os.now + ToNs(GRACE_MS)) && m.mon.jobs[j].id == j
  }

  lemma FallbackIsSound(m: Machine, j: JobId)
    requires CanEscalate(m, j)
    ensures var s := Schedule(Unschedule(m, j), j, GRACE_MS).0;
      MonInv(s.mon) && j in s.mon.jobs && s.mon.jobs[j].state.Terminating? && !Orphaned(s.mon, j)
  {
    hide MonInv, TrySchedule, QueueOk, SlotsOk, TimersOk, BooksOk, Covered, SameTimers;
    assert Unschedule(Unschedule(m, j), j) == Unschedule(m, j);
    RunningOf(Unschedule(m, j), j);
    ScheduleKeeps(Unschedule(m, j), j, GRACE_MS);
  }

  /** The one internal error that leaves the process monitor: "active child was reaped without being recorded". */
  ghost predicate CanRaise(m: Machine, j: JobId, state: JobState) {
    j in m.mon.jobs && m.mon.jobs[j].state == state && Orphaned(m.mon, j)
  }

  lemma TermRaises(mon: Mon, j: JobId, cause: Cause)
    ensures RequestTerminate(mon, j, cause).1.Missing? <==> Orphaned(mon, j)
  {
    hide FinishExited, KillGroup, PollExit;
  }

  lemma KillRaises(mon: Mon, j: JobId, reason: Reason)
    ensures MonitorSpec.ForceKill(mon, j, reason).1.Missing? <==> Orphaned(mon, j)
  {
    hide FinishExited, KillGroup, PollExit;
  }

  lemma EscalationIsSound(m: Machine, j: JobId, cause: Cause)
    requires Inv(m) && j in m.mon.jobs && m.mon.jobs[j].state.Running?
    requires Permits(Ledger.Of(m.mon.os.log), m.mon.os.now, j, cause)
    requires RequestTerminate(m.mon, j, cause).1.Delivered?
    ensures CanEscalate(m.(mon := RequestTerminate(m.mon, j, cause).0), j)
  {
    hide Core, NoneComplete, QueueOk, BooksOk, TimersOk, FinishExited, Quiet, SendTerm;
    Known(m.mon, j);
    var mid := FinishExited(m.mon, j);
    FinishKeeps(m.mon, j);
    FinishLeavesChild(m.mon, j);
    QuietKeeps(m, mid);
    QuietKeepsJob(m.mon, mid, j);
    QuietKeepsPermit(m.mon, mid, j, OnGrace);
    SendTermKeeps(mid, j, cause);
    var (mon, a) := SendTerm(mid, j, cause);
    SentTermKeeps(m.(mon := mid), mon, a, j, cause);
    Known(mon, j);
  }

  lemma ExpiryIsSound(m: Machine, j: JobId)
    requires Inv(m) && Overdue(m, [j]) && j in m.mon.jobs && m.mon.jobs[j].state.Running?
    ensures Permits(Ledger.Of(m.mon.os.log), m.mon.os.now, j, CauseTimedOut)
  {
    hide Core;
    assert j in [j];
    Known(m.mon, j);
  }

  lemma NewIdIsFree(m: Machine)
    requires Inv(m) && m.nextId != 0
    ensures m.nextId !in m.mon.jobs && m.nextId !in m.waiting && m.nextId !in m.slots
  {
    assert m.nextId !in m.mon.jobs;
    hide JobOk;
  }

  lemma DescriptorIsKnown(m: Machine, fds: map<Fd, Tracked>, fd: Fd)
    requires MonInv(m.mon) && FdsOk(m.mon.procs, fds)
    ensures fd in fds <==> fd in m.mon.os.files.open
  {
    ProcessMonitor.FdIsIndexed(m.mon, fds, fd);
  }

  lemma InvalidIsIgnored(m: Machine, spec: JobSpec)
    requires !ValidSpec(spec)
    ensures DoSubmit(m, spec) == m
  {
  }

  /** A request keeps the invariant and never ends the daemon. */
  lemma AfterKeeps(m: Machine, request: Bytes)
    requires Inv(m) && Healthy(m)
    ensures var r := After(m, request); Inv(r) && Healthy(r) && r.alive == m.alive
  {
    hide Inv, Healthy, EventOf, DoSubmit, DoCancel;
    assert EventOf(request).Some? ==> EventOf(request).value.Submit? || EventOf(request).value.Cancel? by { OnlyRequests(request); }
    if EventOf(request).Some? {
      StepKeeps(m, EventOf(request).value);
      match EventOf(request).value {
        case Submit(spec) => SubmitKeepsAlive(m, spec);
        case Cancel(j) => CancelKeepsAlive(m, j);
        case _ =>
      }
    }
  }

  lemma OnlyRequests(request: Bytes)
    ensures EventOf(request).Some? ==> EventOf(request).value.Submit? || EventOf(request).value.Cancel?
  {
    hide Meaning;
  }

  lemma SubmitKeepsAlive(m: Machine, spec: JobSpec)
    requires Inv(m)
    ensures DoSubmit(m, spec).alive == m.alive
  {
    hide Inv, Covered;
    if ValidSpec(spec) && m.nextId != 0 {
      EnqueueKeeps(m, spec);
      PumpKeeps(Enqueue(m, spec));
    }
  }

  lemma CancelKeepsAlive(m: Machine, j: JobId)
    requires Inv(m)
    ensures DoCancel(m, j).alive == m.alive
  {
    hide Inv, Covered, Affects, Terminate;
    if j in m.mon.jobs && m.mon.jobs[j].state.Running? {
      TerminateKeeps(m, j, CauseCancelled);
    }
  }

  lemma IdIsBounded(m: Machine)
    requires Inv(m)
    ensures m.nextId < JOB_ID_SPACE
  {
  }

  lemma MonitorIsSound(m: Machine)
    requires Inv(m)
    ensures MonInv(m.mon)
  {
  }

  class Daemon {
    const host: Host
    const table: JobTable
    const outbox: Notifications
    const scheduler: JobScheduler
    const monitor: ProcessMonitor
    const timers: TimeoutManager
    var nextJobId: nat
    var alive: bool
    ghost var degraded: bool

    ghost function View(): Machine
      reads this, host, table, outbox, scheduler, monitor, timers
    {
      Machine(scheduler.maxRunning, Mon(table.jobs, monitor.procs, monitor.pidToJob, outbox.queue, host.os), scheduler.waiting, scheduler.active,
              timers.deadlines, nextJobId, timers.nextGeneration, alive, degraded)
    }

    /** The components share host, job table and notifications, and each is valid in itself. */
    ghost predicate Components()
      reads this, host, table, outbox, scheduler, monitor, timers
    {
      && monitor.host == host && monitor.table == table && monitor.outbox == outbox && timers.host == host
      && monitor.Indexed() && timers.Valid() && scheduler.Valid()
    }

    ghost predicate Valid()
      reads this, host, table, outbox, scheduler, monitor, timers
    {
      Components() && Inv(View())
    }

    constructor (maxRunning: nat, os: Os)
      requires maxRunning > 0 && Fresh(os)
      ensures Valid() && View() == Init(maxRunning, os)
      ensures fresh(host) && fresh(table) && fresh(outbox) && fresh(scheduler) && fresh(monitor) && fresh(timers)
    {
      InitInv(maxRunning, os);
      var h := new Host(os);
      var t := new JobTable();
      var o := new Notifications();
      host, table, outbox := h, t, o;
      scheduler := new JobScheduler(maxRunning);
      monitor := new ProcessMonitor(h, t, o);
      timers := new TimeoutManager(h);
      nextJobId, alive, degraded := 1, true, false;
    }

    // ----- deadlines -----

    /** The timeout manager's `schedule`, seen from the machine. */
    method SetDeadline(job: JobId, ms: int) returns (r: Outcome)
      requires Components() && ms > 0
      modifies host, timers
      ensures Components() && External(r)
      ensures var (m, ok) := Schedule(old(View()), job, ms); View() == m && r.Done? == ok
    {
      hide FdsOk, ArmFor;
      r := timers.Schedule(job, ms);
    }

    method ClearDeadline(job: JobId)
      requires Components()
      modifies timers
      ensures Components() && View() == Unschedule(old(View()), job)
    {
      timers.Cancel(job);
    }

    // ----- scheduling -----

    /** What the source does with the job it just took from the queue. */
    method StartTaken(job: JobId, ghost m: Machine) returns (r: Outcome)
      requires Components() && Inv(m) && CanPump(m) && job == m.waiting[0] && View() == Take(m)
      modifies this`degraded, host, table, outbox, scheduler, monitor, timers
      ensures Components() && External(r)
      ensures View() == PumpOnce(m).0 && r.Done? == PumpOnce(m).1
    {
      hide Inv, MonInv, Start, StartShape, Schedule, FdsOk, ValidSpec, Ledger.Of;
      TakenIsSound(m);
      LaunchKeeps(m);
      r := monitor.StartJob(job);
      ghost var t := Take(m).(mon := Start(Take(m).mon, job));
      assert View() == t;
      StartKeepsJob(Take(m).mon, job);
      if IsTerminal(table.jobs[job].state) {
        r := scheduler.OnJobReachedTerminalState(job);
        host.Log(Released(job));
        return;
      }
      if !table.jobs[job].state.Running? {
        assert false;
      }
      TimeoutIsPositive(t, job);
      if table.jobs[job].spec.timeout.Some? {
        r := SetDeadline(job, table.jobs[job].spec.timeout.value);
        if r.Threw? {
          degraded := true;
        }
      }
    }

    /** The head of the queue moves into a free slot. */
    method TakeNext() returns (next: Option<JobId>)
      requires Valid()
      modifies host, scheduler
      ensures Components() && (next.Some? <==> CanPump(old(View())))
      ensures next.None? ==> View() == old(View())
      ensures next.Some? ==> next.value == old(View()).waiting[0] && View() == Take(old(View()))
    {
      hide Inv, FdsOk;
      HeadIsKnown(View());
      next := scheduler.TakeNextJobToStart();
      if next.Some? {
        host.Log(Taken(next.value));
      }
    }

    method PumpScheduler() returns (r: Outcome)
      requires Valid()
      modifies this`degraded, host, table, outbox, scheduler, monitor, timers
      ensures Components() && External(r)
      ensures View() == Pump(old(View())).0 && r.Done? == Pump(old(View())).1
    {
      hide Components, Inv, PumpOnce, Take;
      ghost var whole := Pump(View());
      while true
        invariant Valid() && Pump(View()) == whole
        decreases |scheduler.waiting|
      {
        ghost var before := View();
        var next := TakeNext();
        if next.None? {
          return Done;
        }
        PumpOnceKeeps(before);
        r := StartTaken(next.value, before);
        if r.Threw? {
          return;
        }
      }
    }

    method ProcessTerminalJobNotifications() returns (r: Outcome)
      requires Valid()
      modifies this`degraded, host, table, outbox, scheduler, monitor, timers
      ensures Components() && External(r)
      ensures Deliver(old(View())) == if r.Done? then View() else View().(alive := false)
    {
      hide Components, Inv, Pump, Retire;
      ghost var whole := Deliver(View());
      while outbox.queue != []
        invariant Valid() && Deliver(View()) == whole
        decreases |outbox.queue|
      {
        ghost var before := View();
        RetireNext();
        RetireKeeps(before);
        RetireShrinks(before);
        PumpKeeps(Retire(before));
        PumpPending(Retire(before));
        r := PumpScheduler();
        if r.Threw? {
          return;
        }
      }
      r := Done;
    }

    /** The oldest notification: drop the deadline and free the slot. */
    method RetireNext()
      requires Valid() && outbox.queue != []
      modifies host, outbox, scheduler, timers
      ensures Components() && View() == Retire(old(View()))
    {
      hide Inv, FdsOk;
      NotificationIsSound(View());
      var job := outbox.queue[0];
      outbox.queue := outbox.queue[1..];
      if job !in table.jobs {
        assert false;
      }
      if !IsTerminal(table.jobs[job].state) {
        assert false;
      }
      ClearDeadline(job);
      var r := scheduler.OnJobReachedTerminalState(job);
      assert r.Done?;
      host.Log(Released(job));
    }

    // ----- signals -----

    method ForceKill(job: JobId, reason: Reason) returns (r: Outcome)
      requires Components() && MonInv(View().mon) && job in table.jobs && table.jobs[job].state.Terminating?
      modifies host, table, outbox, monitor
      ensures Components()
      ensures var (mon, a) := MonitorSpec.ForceKill(old(View()).mon, job, reason);
        View() == old(View()).(mon := mon) && r == OutcomeOf(a) && (a.Missing? <==> Orphaned(old(View()).mon, job))
    {
      hide MonInv, MonitorSpec.ForceKill, FdsOk;
      KillRaises(View().mon, job, reason);
      var sent;
      r, sent := monitor.ForceKill(job, reason);
    }

    /** Replace the execution deadline by the grace deadline; kill at once if that fails. */
    method ScheduleForceKillDeadline(job: JobId) returns (r: Outcome)
      requires Components() && CanEscalate(View(), job)
      modifies host, table, outbox, monitor, timers
      ensures Components() && (r.Done? || r.error.SystemError?)
      ensures var (m, ok) := ScheduleForceKill(old(View()), job); View() == m && r.Done? == ok
    {
      hide CanEscalate, Schedule, MonitorSpec.ForceKill, MonInv, Components;
      FallbackIsSound(View(), job);
      ClearDeadline(job);
      r := SetDeadline(job, GRACE_MS);
      if r.Threw? {
        ClearDeadline(job);
        r := ForceKill(job, OnFallback);
      }
    }

    method RequestTermination(job: JobId, cause: Cause) returns (r: Outcome, requested: bool)
      requires Valid() && job in table.jobs && table.jobs[job].state.Running?
      modifies host, table, outbox, monitor
      ensures Components()
      ensures var (mon, a) := RequestTerminate(old(View()).mon, job, cause);
        View() == old(View()).(mon := mon) && r == OutcomeOf(a) && requested == a.Delivered? && (a.Missing? <==> Orphaned(old(View()).mon, job))
    {
      hide MonInv, RequestTerminate, FdsOk;
      TermRaises(View().mon, job, cause);
      r, requested := monitor.RequestTerminate(job, cause);
    }

    // ----- CANCEL -----

    method WithdrawQueuedJob(job: JobId)
      requires Valid() && job in table.jobs && table.jobs[job].state.Queued?
      modifies host, table, scheduler
      ensures Components() && View() == DoCancel(old(View()), job)
    {
      hide Inv, FdsOk;
      QueuedIsWaiting(View(), job);
      var found := scheduler.CancelQueuedJob(job);
      if !found {
        assert false;
      }
      var legal, cancelled := Transition(table.jobs[job], Cancelled);
      assert legal.Done?;
      table.jobs := table.jobs[job := cancelled];
      host.Log(Withdrawn(job));
    }

    method CancelJob(job: JobId) returns (r: Outcome, response: Bytes)
      requires Valid()
      modifies host, table, outbox, scheduler, monitor, timers
      ensures Components() && (External(r) || r.error.LogicError?)
      ensures r == Threw(LogicError) <==> CanRaise(old(View()), job, Running)
      ensures View() == DoCancel(old(View()), job)
      ensures CancelReply(old(View()), job) == if r.Done? then Reply(response) else Dropped
    {
      hide Components, Inv, ScheduleForceKill, RequestTerminate, CanEscalate, Ascii;
      if job !in table.jobs {
        return Done, Ascii("ERR job not found");
      }
      ghost var before := View();
      if table.jobs[job].state.Queued? {
        WithdrawQueuedJob(job);
        return Done, Ascii("OK cancelled");
      }
      if table.jobs[job].state.Running? {
        var requested;
        r, requested := RequestTermination(job, CauseCancelled);
        if r == Threw(SystemError) {
          return Done, Ascii("ERR failed to send SIGTERM: ");
        }
        if r.Threw? {
          return r, [];
        }
        if !requested {
          return Done, Ascii("ERR job process already exited; retry status");
        }
        EscalationIsSound(before, job, CauseCancelled);
        r := ScheduleForceKillDeadline(job);
        return r, Ascii("OK terminating");
      }
      if table.jobs[job].state.Terminating? {
        return Done, Ascii("ERR job is already terminating");
      }
      if !IsTerminal(table.jobs[job].state) {
        assert false;
      }
      return Done, Ascii("ERR job is already terminal");
    }

    // ----- deadlines -----

    method HandleExpired(job: JobId) returns (r: Outcome)
      requires Valid() && Overdue(View(), [job])
      modifies host, table, outbox, monitor, timers
      ensures Components() && (External(r) || r.error.LogicError?)
      ensures r == Threw(LogicError) <==> CanRaise(old(View()), job, Running) || CanRaise(old(View()), job, Terminating)
      ensures View() == ExpireOne(old(View()), job).0 && r.Done? == ExpireOne(old(View()), job).1
    {
      hide Components, Inv, ScheduleForceKill, RequestTerminate, MonitorSpec.ForceKill, CanEscalate;
      assert job in [job];
      ghost var before := View();
      if job !in table.jobs {
        assert false;
      }
      if table.jobs[job].state.Running? {
        var requested;
        r, requested := RequestTermination(job, CauseTimedOut);
        if r.Threw? || !requested {
          return;
        }
        ExpiryIsSound(before, job);
        EscalationIsSound(before, job, CauseTimedOut);
        r := ScheduleForceKillDeadline(job);
        return;
      }
      if table.jobs[job].state.Terminating? {
        MonitorIsSound(before);
        r := ForceKill(job, OnGrace);
        return;
      }
      if IsTerminal(table.jobs[job].state) {
        return Done;
      }
      assert false;
    }

    method HandleDeadlineEvent() returns (r: Outcome)
      requires Valid() && alive
      modifies host, table, outbox, monitor, timers
      ensures Components()
      ensures r.Done? ==> Inv(View()) && alive
      ensures DoTimer(old(View())) == if r.Done? then Deliver(View()) else View().(alive := false)
    {
      hide Inv, Due, Later, ArmFor, Overdue, Tick, FdsOk, ExpireOne, Deliver;
      ghost var before := View();
      ghost var os := Tick(host.os);
      RearmKeeps(before, os, Later(before.timers, os.now), Due(before.timers, os.now));
      var expired;
      r, expired := timers.HandleReadable();
      if r.Threw? {
        return;
      }
      r := HandleAllExpired(expired);
    }

    method HandleAllExpired(expired: seq<JobId>) returns (r: Outcome)
      requires Valid() && Overdue(View(), expired)
      modifies host, table, outbox, monitor, timers
      ensures Components()
      ensures r.Done? ==> Inv(View())
      ensures Expire(old(View()), expired) == if r.Done? then View() else View().(alive := false)
    {
      hide Components, Inv, Overdue, ExpireOne, Affects, SameTimers, Covered;
      ghost var whole := Expire(View(), expired);
      var i := 0;
      while i < |expired|
        invariant 0 <= i <= |expired| && Valid() && Overdue(View(), expired[i..])
        invariant Expire(View(), expired[i..]) == whole
      {
        ghost var before := View();
        ghost var due := expired[i..];
        OverdueHead(before, due);
        ExpireOneKeeps(before, due[0]);
        r := HandleExpired(expired[i]);
        if r.Threw? {
          return;
        }
        OverdueRest(before, View(), due);
        assert expired[i + 1..] == due[1..];
        i := i + 1;
      }
      r := Done;
    }

    // ----- events -----

    /** SUBMIT, once its specification has been found valid. */
    method Submit(spec: JobSpec) returns (r: Outcome, id: JobId)
      requires Valid() && ValidSpec(spec)
      modifies this`nextJobId, this`degraded, host, table, outbox, scheduler, monitor, timers
      ensures Components() && External(r)
      ensures View() == DoSubmit(old(View()), spec)
      ensures SubmitReply(old(View()), spec) == if r.Done? then Reply(SubmitResponse(id)) else Dropped
    {
      hide Inv, Pump, FdsOk, ValidSpec, SubmitResponse;
      if nextJobId == 0 {
        return Threw(Overflow), 0;
      }
      ghost var before := View();
      EnqueueKeeps(before, spec);
      NewIdIsFree(before);
      id := nextJobId;
      if id in table.jobs {
        assert false;
      }
      table.jobs := table.jobs[id := NewJob(id, spec)];
      r := scheduler.Enqueue(id);
      if r.Threw? {
        assert false;
      }
      nextJobId := (nextJobId + 1) % JOB_ID_SPACE;
      host.Log(Submitted(id));
      assert View() == Enqueue(before, spec);
      r := PumpScheduler();
    }

    method Notify() returns (r: Outcome)
      requires Valid() && alive
      modifies this, host, table, outbox, scheduler, monitor, timers
      ensures Components() && External(r) && View() == Deliver(old(View())) && r.Done? == alive
    {
      hide Inv, Deliver, FdsOk;
      r := ProcessTerminalJobNotifications();
      alive := r.Done?;
    }

    method HandlePipe(fd: Fd)
      requires Valid() && alive
      modifies this, host, table, outbox, scheduler, monitor, timers
      ensures Components() && View() == Step(old(View()), PipeReady(fd))
    {
      hide MonInv, Quiet, Deliver, PipeEvent, FdsOk, QueueOk, SlotsOk, TimersOk, BooksOk;
      ghost var before := View();
      MonitorIsSound(before);
      DescriptorIsKnown(before, monitor.trackedFds, fd);
      if fd in monitor.trackedFds {
        PipeEventKeeps(before.mon, fd);
        QuietKeeps(before, PipeEvent(before.mon, fd));
        monitor.HandleFileDescriptorEvent(fd);
        var r := Notify();
      }
    }

    method HandleSigchld()
      requires Valid() && alive
      modifies this, host, table, outbox, scheduler, monitor, timers
      ensures Components() && View() == Step(old(View()), ChildSignal)
    {
      hide MonInv, Quiet, Deliver, ReapAll, FdsOk, QueueOk, SlotsOk, TimersOk, BooksOk;
      ghost var before := View();
      MonitorIsSound(before);
      CollectIsQuiet(before.mon);
      QuietKeeps(before, Collect(before.mon));
      monitor.HandleSigchld();
      var r := Notify();
    }

    method HandleTimer()
      requires Valid() && alive
      modifies this, host, table, outbox, scheduler, monitor, timers
      ensures Components() && View() == Step(old(View()), TimerReady)
    {
      hide Inv, Deliver, DoTimer, FdsOk;
      var r := HandleDeadlineEvent();
      if r.Done? {
        r := Notify();
      } else {
        alive := false;
      }
    }

    // ----- requests -----

    method HandleSubmit(request: Bytes) returns (r: Outcome, response: Bytes)
      requires Valid() && HasCommand(request, SubmitCommand())
      modifies this`nextJobId, this`degraded, host, table, outbox, scheduler, monitor, timers
      ensures Components() && (External(r) || r.error.LengthError?)
      ensures var m := Meaning(request); View() == if m.SubmitOf? then DoSubmit(old(View()), m.spec) else old(View())
      ensures Answer(old(View()), request) == if r.Done? then Reply(response) else Dropped
    {
      hide Components, Inv, DoSubmit, SubmitReply, SubmitResponse, Message, Protocol.SubmitOf, HasCommand, ValidSpec, Meaning, Ascii;
      SubmitBranch(request);
      var decoded := DecodeSubmitRequest(request);
      if decoded.Err? {
        if decoded.error.TooLong? {
          return Threw(LengthError), [];
        }
        return Done, Ascii("ERR ") + Ascii(Message(decoded.error, SubmitCommand()));
      }
      var fault := ValidateJobSpec(decoded.value);
      if fault.Some? {
        return Done, Ascii("ERR ") + Ascii(Message(fault.value, SubmitCommand()));
      }
      var id;
      r, id := Submit(decoded.value);
      response := SubmitResponse(id);
    }

    method HandleRequest(request: Bytes) returns (r: Outcome, response: Bytes)
      requires Valid() && Healthy(View()) && alive
      modifies this`nextJobId, this`degraded, host, table, outbox, scheduler, monitor, timers
      ensures Valid() && Healthy(View()) && alive
      ensures External(r) || r.error.LengthError? || r.error.LogicError?
      ensures r == Threw(LogicError) <==> Meaning(request).CancelOf? && CanRaise(old(View()), Meaning(request).id, Running)
      ensures View() == After(old(View()), request)
      ensures Answer(old(View()), request) == if r.Done? then Reply(response) else Dropped
      ensures r.Done? ==> |response| <= MAX_FRAME
    {
      hide Components, Inv, Healthy, DoSubmit, DoCancel, CancelReply, SubmitReply, Message, Protocol.SubmitOf, IdOf, HasCommand, ValidSpec, IsListing, StatusResponse;
      ghost var before := View();
      AfterKeeps(before, request);
      IdIsBounded(before);
      AnswerFits(before, request);
      r := Done;
      if request == Ascii("PING") {
        response := Ascii("PONG");
      } else if request == Ascii("LIST") {
        response := MakeListResponse(table.jobs);
        ListingIsUnique(table.jobs, response, ListResponse(table.jobs));
      } else if HasCommand(request, StatusCommand()) {
        var id := DecodeIdRequest(request, StatusCommand());
        if id.Err? {
          response := Ascii("ERR ") + Ascii(Message(id.error, StatusCommand()));
        } else if id.value !in table.jobs {
          response := Ascii("ERR job not found");
        } else {
          response := StatusResponse(table.jobs[id.value]);
        }
      } else if HasCommand(request, CancelCommand()) {
        var id := DecodeIdRequest(request, CancelCommand());
        if id.Err? {
          response := Ascii("ERR ") + Ascii(Message(id.error, CancelCommand()));
        } else {
          r, response := CancelJob(id.value);
        }
      } else if !HasCommand(request, SubmitCommand()) {
        response := Ascii("ERR unknown request");
      } else {
        r, response := HandleSubmit(request);
      }
    }

    /** One event of the main loop.  A dead daemon handles nothing. */
    method Handle(e: Event)
      requires Valid() && Healthy(View())
      modifies this, host, table, outbox, scheduler, monitor, timers
      ensures Valid() && Healthy(View()) && View() == Step(old(View()), e)
    {
      hide Components, Inv, Healthy, DoSubmit, DoCancel;
      StepKeeps(View(), e);
      if alive {
        match e
        case Submit(spec) =>
          var fault := ValidateJobSpec(spec);
          if fault.None? {
            var r, id := this.Submit(spec);
          } else {
            InvalidIsIgnored(View(), spec);
          }
        case Cancel(job) =>
          var r, response := CancelJob(job);
        case PipeReady(fd) => HandlePipe(fd);
        case ChildSignal => HandleSigchld();
        case TimerReady => HandleTimer();
      }
    }
  }

  // ----- the loop -----

  /** The main loop over any sequence of events: the daemon goes through the states of the machine. */
  method Serve(maxRunning: nat, os: Os, events: seq<Event>) returns (daemon: Daemon)
    requires maxRunning > 0 && Fresh(os)
    ensures daemon.Valid() && daemon.View() == Run(maxRunning, os, events)
  {
    hide Step, Inv, Healthy;
    InitInv(maxRunning, os);
    daemon := new Daemon(maxRunning, os);
    for i := 0 to |events|
      invariant daemon.Valid() && Healthy(daemon.View()) && daemon.View() == Run(maxRunning, os, events[..i])
      invariant fresh(daemon) && fresh(daemon.host) && fresh(daemon.table) && fresh(daemon.outbox)
      invariant fresh(daemon.scheduler) && fresh(daemon.monitor) && fresh(daemon.timers)
    {
      daemon.Handle(events[i]);
      assert events[..i + 1][..i] == events[..i];
    }
    assert events[..|events|] == events;
  }
}
