/** The cross-module invariant of the daemon, kept by every event. */
module MachineInvariant {
  import opened Jobs
  import opened Kernel
  import opened MonitorSpec
  import opened MonitorInvariant
  import opened Deadlines
  import opened Machine
  import Ledger

  // ----- the invariant -----

  /** The QUEUED jobs are exactly the waiting queue, in order of submission. */
  ghost predicate QueueOk(jobs: map<JobId, Job>, waiting: seq<JobId>, nextId: nat) {
    && Increasing(waiting)
    && (forall j | j in jobs :: jobs[j].state.Queued? <==> j in waiting)
    && (forall j | j in waiting :: j in jobs)
    && nextId < JOB_ID_SPACE
    && (forall j | j in jobs :: 0 < j < JOB_ID_SPACE && (nextId == 0 || j < nextId))
  }

  /** Occupied slots are the live processes and the jobs whose terminal notification is pending. */
  ghost predicate SlotsOk(slots: set<JobId>, live: set<JobId>, pending: seq<JobId>, max: nat) {
    && (forall j :: j in slots <==> j in live || j in pending)
    && |slots| <= max
  }

  /** A deadline means "not before": execution timeout while RUNNING, grace period while TERMINATING. */
  predicate DeadlineOk(l: Ledger.Ledger, job: Job, d: Time) {
    var j := job.id;
    match job.state
    case Queued => false
    case Running => j in l.running && job.spec.timeout.Some? && l.running[j].at + ToNs(job.spec.timeout.value) <= d
    case Terminating => j in l.terminated && l.terminated[j] + ToNs(GRACE_MS) <= d && j !in l.killed
    case _ => true
  }

  ghost predicate TimersOk(timers: Deadlines, slots: set<JobId>, jobs: map<JobId, Job>, l: Ledger.Ledger) {
    forall j | j in timers :: j in slots && j in jobs && DeadlineOk(l, jobs[j], timers[j])
  }

  /** Every submitted job is waiting, taken or withdrawn, and never two of these;
      a slot is held from being taken to being released. */
  ghost predicate BooksOk(l: Ledger.Ledger, jobs: map<JobId, Job>, waiting: seq<JobId>, slots: set<JobId>) {
    && l.submitted == jobs.Keys
    && (forall j | j in jobs ::
          && (j in waiting ==> j !in l.taken && j !in l.withdrawn)
          && (j !in waiting ==> (j in l.taken <==> j !in l.withdrawn)))
    && l.taken <= l.submitted && l.withdrawn <= l.submitted
    && (forall i, j | i in l.taken && j in waiting :: i < j)
    && (forall j | j in l.taken && IsTerminal(jobs[j].state) :: j in l.settled)
    && (forall j | j in l.withdrawn :: jobs[j].state.Cancelled? && jobs[j].pid.None?)
    && (forall j | j in jobs && jobs[j].state.Cancelled? && jobs[j].cause.None? :: j in l.withdrawn)
    && l.settled <= l.taken && l.released <= l.settled
    && slots == l.taken - l.released
  }

  ghost predicate Inv(m: Machine) {
    var l := Ledger.Of(m.mon.os.log);
    && MonInv(m.mon)
    && QueueOk(m.mon.jobs, m.waiting, m.nextId)
    && SlotsOk(m.slots, m.mon.procs.Keys, m.mon.pending, m.max)
    && TimersOk(m.timers, m.slots, m.mon.jobs, l)
    && BooksOk(l, m.mon.jobs, m.waiting, m.slots)
  }

  /** No job waits while a slot is free. */
  predicate Saturated(m: Machine) {
    m.waiting == [] || |m.slots| == m.max
  }

  /** The timer fires by the earliest deadline, or one nanosecond after it was set. */
  predicate Covered(timers: Deadlines, timer: Timer) {
    forall j | j in timers ::
      timer.Armed? && (timer.fireAt <= timers[j] || timer.fireAt == timer.setAt + 1)
  }

  /** The parts of the daemon that signals do not touch. */
  predicate SameQueue(a: Machine, b: Machine) {
    b == a.(mon := b.mon, timers := b.timers, generation := b.generation)
  }

  /** A TERMINATING job has a grace deadline ahead or a SIGKILL behind it; a RUNNING job with a
      timeout has its deadline ahead or a SIGTERM attempt behind it. */
  predicate WatchedJob(timers: Deadlines, l: Ledger.Ledger, degraded: bool, j: JobId, job: Job) {
    && (job.state.Terminating? ==> j in timers || j in l.killed)
    && (job.state.Running? && job.spec.timeout.Some? && !degraded ==> j in timers || j in l.expired)
  }

  ghost predicate Watched(m: Machine, aside: set<JobId>) {
    forall j | j in m.mon.jobs && j !in aside ::
      WatchedJob(m.timers, Ledger.Of(m.mon.os.log), m.degraded, j, m.mon.jobs[j])
  }

  ghost predicate Handled(m: Machine, j: JobId)
    requires j in m.mon.jobs
  {
    && !m.mon.jobs[j].state.Running? && !m.mon.jobs[j].state.Queued?
    && (m.mon.jobs[j].state.Terminating? ==> j in m.timers || j in Ledger.Of(m.mon.os.log).killed)
  }

  /** What a termination request leaves behind: handled, or still RUNNING with its timer or its expiry noted. */
  ghost predicate Requested(a: Machine, b: Machine, j: JobId, cause: Cause) {
    && j in b.mon.jobs
    && (Handled(b, j) ||
        (b.mon.jobs[j].state.Running? &&
         if cause.CauseTimedOut? then j in Ledger.Of(b.mon.os.log).expired
         else (j in a.timers ==> j in b.timers) && (j in Ledger.Of(a.mon.os.log).expired ==> j in Ledger.Of(b.mon.os.log).expired)))
  }

  /** The deadlines of everybody else are untouched. */
  ghost predicate SameTimers(a: Deadlines, b: Deadlines, j: JobId) {
    forall i | i != j :: (i in b <==> i in a) && (i in a ==> b[i] == a[i])
  }

  predicate KeepsCover(a: Machine, b: Machine) {
    Covered(a.timers, a.mon.os.timer) ==> Covered(b.timers, b.mon.os.timer)
  }

  // ----- quiet operations of the monitor -----

  ghost predicate Tabled(a: Mon) {
    TableOk(a.jobs, a.procs, a.pending)
  }

  lemma QuietKeepsQueue(a: Mon, b: Mon, waiting: seq<JobId>, nextId: nat)
    requires Tabled(a) && QueueOk(a.jobs, waiting, nextId) && Quiet(a, b)
    ensures QueueOk(b.jobs, waiting, nextId)
  {
  }

  lemma QuietKeepsSlots(a: Mon, b: Mon, slots: set<JobId>, max: nat)
    requires SlotsOk(slots, a.procs.Keys, a.pending, max) && Quiet(a, b)
    ensures SlotsOk(slots, b.procs.Keys, b.pending, max)
  {
  }

  lemma QuietKeepsTimers(a: Mon, b: Mon, timers: Deadlines, slots: set<JobId>)
    requires Tabled(a) && TimersOk(timers, slots, a.jobs, Ledger.Of(a.os.log)) && Quiet(a, b)
    ensures TimersOk(timers, slots, b.jobs, Ledger.Of(b.os.log))
  {
    hide JobOk;
  }

  lemma SettledBooks(l: Ledger.Ledger, a: map<JobId, Job>, b: map<JobId, Job>, waiting: seq<JobId>, slots: set<JobId>, gone: set<JobId>)
    requires BooksOk(l, a, waiting, slots) && b.Keys == a.Keys && gone <= l.taken && gone <= a.Keys
    requires forall j | j in a && j !in gone :: b[j] == a[j]
    requires gone !! l.withdrawn && forall j | j in gone :: !(b[j].state.Cancelled? && b[j].cause.None?)
    ensures BooksOk(l.(settled := l.settled + gone), b, waiting, slots)
  {
  }

  lemma SettledAreTaken(a: Mon, b: Mon, waiting: seq<JobId>, slots: set<JobId>)
    requires Tabled(a) && LedgerOk(Ledger.Of(a.os.log), a.jobs)
    requires BooksOk(Ledger.Of(a.os.log), a.jobs, waiting, slots)
    ensures var l, gone := Ledger.Of(a.os.log), a.procs.Keys - b.procs.Keys; gone <= l.taken && gone <= a.jobs.Keys && gone !! l.withdrawn
  {
    hide JobOk;
    var l := Ledger.Of(a.os.log);
    forall j | j in a.procs
      ensures j in a.jobs && j in l.taken && j !in l.withdrawn
    {
      assert JobInLedger(l, j, a.jobs[j]);
    }
  }

  /** A job that settles had a process, so it is CANCELLED for a cause alone. */
  lemma SettledHaveCause(a: Mon, b: Mon)
    requires Tabled(a) && Tabled(b) && Quiet(a, b)
    ensures forall j | j in a.procs.Keys - b.procs.Keys :: j in b.jobs && !(b.jobs[j].state.Cancelled? && b.jobs[j].cause.None?)
  {
    hide Ledger.Of;
    forall j | j in a.procs && j !in b.procs
      ensures j in b.jobs && !(b.jobs[j].state.Cancelled? && b.jobs[j].cause.None?)
    {
      assert JobOk(a.jobs[j]) && JobOk(b.jobs[j]) && b.jobs[j].pid == a.jobs[j].pid;
    }
  }

  lemma QuietKeepsBooks(a: Mon, b: Mon, waiting: seq<JobId>, slots: set<JobId>)
    requires Tabled(a) && LedgerOk(Ledger.Of(a.os.log), a.jobs)
    requires BooksOk(Ledger.Of(a.os.log), a.jobs, waiting, slots) && Quiet(a, b) && Tabled(b)
    ensures BooksOk(Ledger.Of(b.os.log), b.jobs, waiting, slots)
  {
    SettledHaveCause(a, b);
    hide LedgerOk, BooksOk, TableOk;
    var l, l' := Ledger.Of(a.os.log), Ledger.Of(b.os.log);
    var gone := a.procs.Keys - b.procs.Keys;
    SettledAreTaken(a, b, waiting, slots);
    SettledBooks(l, a.jobs, b.jobs, waiting, slots, gone);
    ReapedBooks(l.(settled := l.settled + gone), b.jobs, waiting, slots, l'.reaped);
  }

  lemma ReapedBooks(l: Ledger.Ledger, jobs: map<JobId, Job>, waiting: seq<JobId>, slots: set<JobId>, reaped: map<JobId, WaitStatus>)
    requires BooksOk(l, jobs, waiting, slots)
    ensures BooksOk(l.(reaped := reaped), jobs, waiting, slots)
  {
  }

  lemma QuietKeeps(m: Machine, mon: Mon)
    requires Inv(m) && Quiet(m.mon, mon) && MonInv(mon)
    ensures Inv(m.(mon := mon))
  {
    hide TableOk, LedgerOk, PipesOk, ChildrenOk, IndexOk, IdsOk, OutputOk, LogOk, NoneComplete, Quiet, QueueOk, SlotsOk, TimersOk, BooksOk;
    QuietKeepsQueue(m.mon, mon, m.waiting, m.nextId);
    QuietKeepsSlots(m.mon, mon, m.slots, m.max);
    QuietKeepsTimers(m.mon, mon, m.timers, m.slots);
    QuietKeepsBooks(m.mon, mon, m.waiting, m.slots);
  }

  // ----- the clock and the timer -----

  predicate ClockShape(a: Mon, b: Mon) {
    && a.os.now <= b.os.now
    && b == a.(os := a.os.(ticks := b.os.ticks, now := b.os.now, timer := b.os.timer, arms := b.os.arms))
  }

  lemma ClockKeepsMon(a: Mon, b: Mon)
    requires MonInv(a) && ClockShape(a, b)
    ensures MonInv(b)
  {
    hide TableOk, LedgerOk, PipesOk, ChildrenOk, IndexOk, IdsOk, OutputOk, StatusOk, NoneComplete;
  }

  lemma ClockKeeps(m: Machine, mon: Mon)
    requires Inv(m) && ClockShape(m.mon, mon)
    ensures Inv(m.(mon := mon))
  {
    hide MonInv, QueueOk, SlotsOk, TimersOk, BooksOk;
    ClockKeepsMon(m.mon, mon);
  }

  /** Arming for the earliest deadline covers them all. */
  lemma ArmCovers(os: Os, t: Deadlines)
    ensures NextArm(os) ==> Covered(t, ArmFor(os, t).timer)
    ensures !NextArm(os) ==> ArmFor(os, t).timer == os.timer
  {
    if t != map[] {
      assert forall j | j in t :: Before(t, First(t), j);
    }
  }

  lemma TryScheduleKeeps(m: Machine, j: JobId, ms: int)
    requires Inv(Unschedule(m, j)) && j in m.slots && j in m.mon.jobs
    requires DeadlineOk(Ledger.Of(m.mon.os.log), m.mon.jobs[j], m.mon.os.now + ToNs(ms))
    ensures var (r, ok) := TrySchedule(m, j, ms);
      && Inv(Unschedule(r, j)) && (m.generation != 0 ==> Inv(r)) && SameTimers(m.timers, r.timers, j)
      && ClockShape(m.mon, r.mon) && SameQueue(m, r)
      && (ok ==> j in r.timers && Covered(r.timers, r.mon.os.timer))
      && (!ok ==> r.mon.os.timer == m.mon.os.timer)
  {
    ArmCovers(Tick(m.mon.os), TrySchedule(m, j, ms).0.timers);
    hide MonInv, QueueOk, SlotsOk, BooksOk;
    if m.generation != 0 {
      var (r, ok) := TrySchedule(m, j, ms);
      ClockKeeps(Unschedule(m, j), r.mon);
      assert r.timers - {j} == m.timers - {j};
      assert forall i | i in r.timers && i != j :: i in m.timers - {j} && r.timers[i] == (m.timers - {j})[i];
    }
  }

  lemma RefusedBooks(timers: Deadlines, l: Ledger.Ledger, jobs: map<JobId, Job>, waiting: seq<JobId>, slots: set<JobId>, refused: set<JobId>)
    requires TimersOk(timers, slots, jobs, l) && BooksOk(l, jobs, waiting, slots)
    ensures TimersOk(timers, slots, jobs, l.(refused := refused)) && BooksOk(l.(refused := refused), jobs, waiting, slots)
  {
  }

  lemma RefusedKeeps(m: Machine, j: JobId)
    requires Inv(m) && j in Ledger.Of(m.mon.os.log).running
    ensures Inv(Noted(m, Refused(j)))
  {
    hide MonInv, QueueOk, SlotsOk, TimersOk, BooksOk;
    var l := Ledger.Of(m.mon.os.log);
    NoteKeepsMon(m.mon, Refused(j));
    RefusedBooks(m.timers, l, m.mon.jobs, m.waiting, m.slots, Ledger.Enter(l, Refused(j)).refused);
  }

  /** The clock may have moved on, and a refusal may have been noted. */
  ghost predicate ScheduleShape(a: Mon, b: Mon, j: JobId, ok: bool) {
    exists c :: ClockShape(a, c) && b == if ok then c else c.(os := Note(c.os, Refused(j)))
  }

  lemma ScheduleKeeps(m: Machine, j: JobId, ms: int)
    requires Inv(Unschedule(m, j)) && j in m.slots && j in m.mon.jobs && j in Ledger.Of(m.mon.os.log).running
    requires DeadlineOk(Ledger.Of(m.mon.os.log), m.mon.jobs[j], m.mon.os.now + ToNs(ms))
    ensures var (r, ok) := Schedule(m, j, ms);
      && Inv(Unschedule(r, j)) && (m.generation != 0 ==> Inv(r)) && SameTimers(m.timers, r.timers, j)
      && ScheduleShape(m.mon, r.mon, j, ok) && SameQueue(m, r)
      && (ok ==> j in r.timers && Covered(r.timers, r.mon.os.timer))
      && (!ok ==> r.mon.os.timer == m.mon.os.timer)
  {
    hide Inv, Covered, ArmFor, SameTimers;
    var (r, ok) := TrySchedule(m, j, ms);
    TryScheduleKeeps(m, j, ms);
    assert ClockShape(m.mon, r.mon);
    if !ok {
      assert Noted(Unschedule(r, j), Refused(j)) == Unschedule(Noted(r, Refused(j)), j);
      RefusedKeeps(Unschedule(r, j), j);
      if m.generation != 0 {
        RefusedKeeps(r, j);
      }
    }
  }

  // ----- signals -----

  lemma TermKeepsQueue(jobs: map<JobId, Job>, waiting: seq<JobId>, nextId: nat, j: JobId, job: Job)
    requires QueueOk(jobs, waiting, nextId) && j in jobs && !jobs[j].state.Queued? && !job.state.Queued?
    ensures QueueOk(jobs[j := job], waiting, nextId)
  {
  }

  lemma TermKeepsTimers(timers: Deadlines, slots: set<JobId>, jobs: map<JobId, Job>, l: Ledger.Ledger, l': Ledger.Ledger, j: JobId, job: Job)
    requires TimersOk(timers, slots, jobs, l) && (forall i | i in jobs :: jobs[i].id == i) && j !in timers
    requires forall i | i != j :: (i in l'.running <==> i in l.running) && (i in l.running ==> l'.running[i] == l.running[i])
    requires forall i | i != j :: (i in l'.terminated <==> i in l.terminated) && (i in l.terminated ==> l'.terminated[i] == l.terminated[i])
    requires forall i | i != j :: i in l'.killed <==> i in l.killed
    ensures TimersOk(timers, slots, jobs[j := job], l')
  {
  }

  lemma TermKeepsBooks(l: Ledger.Ledger, l': Ledger.Ledger, jobs: map<JobId, Job>, waiting: seq<JobId>, slots: set<JobId>, j: JobId, job: Job)
    requires BooksOk(l, jobs, waiting, slots) && j in jobs && IsActive(jobs[j].state) && IsActive(job.state)
    requires l' == l.(expired := l'.expired, terminated := l'.terminated, killed := l'.killed)
    ensures BooksOk(l', jobs[j := job], waiting, slots)
  {
  }

  lemma Ids(mon: Mon)
    requires MonInv(mon)
    ensures forall i | i in mon.jobs :: mon.jobs[i].id == i
  {
  }

  lemma SentTermKeeps(m: Machine, mon: Mon, a: Ending, j: JobId, cause: Cause)
    requires Inv(m) && j in m.mon.jobs && m.mon.jobs[j].state.Running?
    requires MonInv(mon) && TermShape(m.mon, mon, a, j, cause)
    ensures Inv(Unschedule(m.(mon := mon), j))
    ensures !a.Delivered? ==> Inv(m.(mon := mon))
    ensures a.Delivered? ==> DeadlineOk(Ledger.Of(mon.os.log), mon.jobs[j], mon.os.now + ToNs(GRACE_MS))
  {
    hide Core, NoneComplete, LogOk, QueueOk, SlotsOk, BooksOk;
    Known(m.mon, j);
    Ids(m.mon);
    var l, l' := Ledger.Of(m.mon.os.log), Ledger.Of(mon.os.log);
    assert mon.jobs == m.mon.jobs[j := mon.jobs[j]];
    TermKeepsQueue(m.mon.jobs, m.waiting, m.nextId, j, mon.jobs[j]);
    TermKeepsBooks(l, l', m.mon.jobs, m.waiting, m.slots, j, mon.jobs[j]);
    TermKeepsTimers(m.timers - {j}, m.slots, m.mon.jobs, l, l', j, mon.jobs[j]);
    if !a.Delivered? {
      ExpiredKeepsTimers(m.timers, m.slots, m.mon.jobs, l, l'.expired);
    }
  }

  lemma ExpiredKeepsTimers(timers: Deadlines, slots: set<JobId>, jobs: map<JobId, Job>, l: Ledger.Ledger, expired: set<JobId>)
    requires TimersOk(timers, slots, jobs, l)
    ensures TimersOk(timers, slots, jobs, l.(expired := expired))
  {
  }

  lemma SentKillKeeps(m: Machine, mon: Mon, j: JobId)
    requires Inv(m) && j in m.mon.jobs && m.mon.jobs[j].state.Terminating? && j !in m.timers
    requires MonInv(mon) && KillShape(m.mon, mon, j)
    ensures Inv(m.(mon := mon))
  {
    hide MonInv, LogOk, QueueOk, SlotsOk, BooksOk;
    Ids(m.mon);
    var l, l' := Ledger.Of(m.mon.os.log), Ledger.Of(mon.os.log);
    assert mon.jobs == m.mon.jobs[j := mon.jobs[j]];
    TermKeepsBooks(l, l', m.mon.jobs, m.waiting, m.slots, j, mon.jobs[j]);
    TermKeepsTimers(m.timers, m.slots, m.mon.jobs, l, l', j, mon.jobs[j]);
  }

  /** An operation on one job: all other jobs either stay as they are or settle, and no signal names them. */
  ghost predicate Affects(a: Mon, b: Mon, j: JobId) {
    var l, l' := Ledger.Of(a.os.log), Ledger.Of(b.os.log);
    && b.jobs.Keys == a.jobs.Keys && a.os.now <= b.os.now && Evolves(a.jobs, b.jobs)
    && (forall i | i in a.jobs && i != j :: b.jobs[i] == a.jobs[i] || IsTerminal(b.jobs[i].state))
    && l'.running == l.running
    && (forall i | i != j :: (i in l'.terminated <==> i in l.terminated) && (i in l.terminated ==> l'.terminated[i] == l.terminated[i]))
    && (forall i | i != j :: (i in l'.killed <==> i in l.killed) && (i in l'.expired <==> i in l.expired))
  }

  lemma QuietAffects(a: Mon, b: Mon, j: JobId)
    requires Quiet(a, b) && MonInv(a) && MonInv(b)
    ensures Affects(a, b, j) && a.os.timer == b.os.timer
    ensures j in a.procs && j in a.jobs && j !in b.procs ==> j in b.jobs && IsTerminal(b.jobs[j].state)
    ensures Ledger.Of(b.os.log).expired == Ledger.Of(a.os.log).expired
  {
    hide Core, NoneComplete;
    forall i | i in a.jobs
      ensures i in b.jobs && Evolved(a.jobs[i], b.jobs[i])
    {
      Known(a, i);
      Known(b, i);
    }
  }

  lemma ClockAffects(a: Mon, b: Mon, j: JobId)
    requires ClockShape(a, b)
    ensures Affects(a, b, j)
  {
  }

  lemma TermAffects(a: Mon, b: Mon, answer: Ending, j: JobId, cause: Cause)
    requires TermShape(a, b, answer, j, cause) && a.jobs[j].state.Running? && a.jobs[j].cause.None?
    ensures Affects(a, b, j)
  {
  }

  lemma AffectsTransitive(a: Mon, b: Mon, c: Mon, j: JobId)
    requires Affects(a, b, j) && Affects(b, c, j)
    ensures Affects(a, c, j)
  {
    EvolvesTransitive(a.jobs, b.jobs, c.jobs);
    assert forall i | i in a.jobs :: Evolved(b.jobs[i], c.jobs[i]);
  }

  /** A quiet step keeps what a deadline or a permission says about a job that is still live. */
  lemma QuietKeepsJob(a: Mon, b: Mon, j: JobId)
    requires MonInv(a) && Quiet(a, b) && j in b.procs
    ensures j in a.procs && j in a.jobs && j in b.jobs && b.jobs[j] == a.jobs[j]
  {
  }

  lemma ForceKillKeeps(m: Machine, j: JobId, reason: Reason)
    requires Inv(m) && j in m.mon.jobs && m.mon.jobs[j].state.Terminating? && j !in m.timers
    requires PermitsKill(Ledger.Of(m.mon.os.log), m.mon.os.now, j, reason)
    ensures var (mon, a) := ForceKill(m.mon, j, reason);
      && Inv(m.(mon := mon)) && Affects(m.mon, mon, j) && mon.os.timer == m.mon.os.timer
      && j in mon.jobs && (a.Missing? <==> Orphaned(m.mon, j)) && (!a.Missing? ==> Handled(m.(mon := mon), j))
  {
    if Orphaned(m.mon, j) {
      OrphanIsQuiet(m, j);
    } else {
      ForceKillSent(m, j, reason);
    }
  }

  lemma OrphanIsQuiet(m: Machine, j: JobId)
    requires Inv(m) && Orphaned(m.mon, j)
    ensures var mon := PollExit(m.mon, j);
      Inv(m.(mon := mon)) && Affects(m.mon, mon, j) && mon == m.mon.(os := m.mon.os.(polls := mon.os.polls))
  {
    hide Core, NoneComplete, QueueOk, SlotsOk, BooksOk, TimersOk, PollExit, Quiet, Affects;
    OrphanKeeps(m.mon, j);
    QuietKeeps(m, PollExit(m.mon, j));
    QuietAffects(m.mon, PollExit(m.mon, j), j);
  }

  lemma ForceKillSent(m: Machine, j: JobId, reason: Reason)
    requires Inv(m) && j in m.mon.jobs && m.mon.jobs[j].state.Terminating? && j !in m.timers && !Orphaned(m.mon, j)
    requires PermitsKill(Ledger.Of(m.mon.os.log), m.mon.os.now, j, reason)
    ensures var (mon, a) := ForceKill(m.mon, j, reason);
      && Inv(m.(mon := mon)) && Affects(m.mon, mon, j) && mon.os.timer == m.mon.os.timer
      && j in mon.jobs && !a.Missing? && Handled(m.(mon := mon), j)
  {
    hide Core, NoneComplete, LogOk, QueueOk, SlotsOk, BooksOk, TimersOk, FinishExited, Quiet, PollExit, KillGroup, PermitsKill;
    Known(m.mon, j);
    var mid := FinishExited(m.mon, j);
    FinishKeeps(m.mon, j);
    QuietKeeps(m, mid);
    QuietAffects(m.mon, mid, j);
    if j in mid.procs {
      QuietKeepsJob(m.mon, mid, j);
      QuietKeepsPermit(m.mon, mid, j, reason);
      SendKillKeeps(mid, j, reason);
      SentKillKeeps(m.(mon := mid), SendKill(mid, j, reason).0, j);
    }
  }

  lemma QuietKeepsPermit(a: Mon, b: Mon, j: JobId, reason: Reason)
    requires Quiet(a, b)
    ensures PermitsKill(Ledger.Of(a.os.log), a.os.now, j, reason) ==> PermitsKill(Ledger.Of(b.os.log), b.os.now, j, reason)
    ensures forall cause :: Permits(Ledger.Of(a.os.log), a.os.now, j, cause) ==> Permits(Ledger.Of(b.os.log), b.os.now, j, cause)
  {
  }

  /** From SIGTERM sent to the grace deadline set, or to SIGKILL when it cannot be. */
  lemma ScheduleForceKillKeeps(m: Machine, j: JobId)
    requires Inv(Unschedule(m, j)) && j in m.mon.jobs && m.mon.jobs[j].state.Terminating? && j in m.slots && !Orphaned(m.mon, j)
    requires DeadlineOk(Ledger.Of(m.mon.os.log), m.mon.jobs[j], m.mon.os.now + ToNs(GRACE_MS)) && m.mon.jobs[j].id == j
    ensures var r := ScheduleForceKill(m, j).0;
      && j in r.mon.jobs && Handled(r, j)
      && Inv(r) && Affects(m.mon, r.mon, j) && SameQueue(m, r) && SameTimers(m.timers, r.timers, j) && KeepsCover(m, r)
  {
    hide Inv, TrySchedule, Affects, ForceKill, SameTimers, Covered;
    assert Unschedule(Unschedule(m, j), j) == Unschedule(m, j);
    RunningOf(Unschedule(m, j), j);
    ScheduleKeeps(Unschedule(m, j), j, GRACE_MS);
    var (s, ok) := Schedule(Unschedule(m, j), j, GRACE_MS);
    ScheduleAffects(m.mon, s.mon, j, ok);
    UnscheduleTwice(m, s, j);
    if ok {
      assert m.generation != 0 by { FailsWhenExhausted(Unschedule(m, j), j, GRACE_MS); }
    } else {
      var u := Unschedule(s, j);
      ForceKillKeeps(u, j, OnFallback);
      AffectsTransitive(m.mon, s.mon, ForceKill(s.mon, j, OnFallback).0, j);
      LessCover(m.timers, u.timers, m.mon.os.timer, j);
    }
  }

  lemma FailsWhenExhausted(m: Machine, j: JobId, ms: int)
    ensures Schedule(m, j, ms).1 ==> m.generation != 0
  {
  }

  lemma RunningOf(m: Machine, j: JobId)
    requires Inv(m) && j in m.mon.jobs && IsActive(m.mon.jobs[j].state)
    ensures j in Ledger.Of(m.mon.os.log).running
  {
    Known(m.mon, j);
  }

  lemma UnscheduleTwice(m: Machine, s: Machine, j: JobId)
    requires SameTimers(Unschedule(m, j).timers, s.timers, j)
    ensures SameTimers(m.timers, s.timers, j) && SameTimers(m.timers, Unschedule(s, j).timers, j)
  {
  }

  lemma LessCover(a: Deadlines, b: Deadlines, timer: Timer, j: JobId)
    requires SameTimers(a, b, j) && j !in b
    ensures Covered(a, timer) ==> Covered(b, timer)
  {
  }

  lemma ScheduleAffects(a: Mon, b: Mon, j: JobId, ok: bool)
    requires ScheduleShape(a, b, j, ok)
    ensures Affects(a, b, j) && b.jobs == a.jobs
    ensures !ok ==> Ledger.Of(b.os.log) == Ledger.Enter(Ledger.Of(a.os.log), Refused(j))
  {
    var c :| ClockShape(a, c) && b == if ok then c else c.(os := Note(c.os, Refused(j)));
    ClockAffects(a, c, j);
  }

  lemma SendKeeps(m: Machine, j: JobId, cause: Cause)
    requires Inv(m) && j in m.mon.procs && j in m.mon.jobs && m.mon.jobs[j].state.Running? && !Orphaned(m.mon, j)
    requires Permits(Ledger.Of(m.mon.os.log), m.mon.os.now, j, cause)
    ensures var (mon, a) := SendTerm(m.mon, j, cause);
      var r := if a.Delivered? then ScheduleForceKill(m.(mon := mon), j).0 else m.(mon := mon);
      && Requested(m, r, j, cause)
      && Inv(r) && Affects(m.mon, r.mon, j) && SameQueue(m, r) && SameTimers(m.timers, r.timers, j) && KeepsCover(m, r)
  {
    hide Core, NoneComplete, LogOk, QueueOk, BooksOk, TimersOk, ScheduleForceKill, Affects, SendTerm;
    Known(m.mon, j);
    SendTermKeeps(m.mon, j, cause);
    var (mon, a) := SendTerm(m.mon, j, cause);
    SentTermKeeps(m, mon, a, j, cause);
    TermAffects(m.mon, mon, a, j, cause);
    if a.Delivered? {
      ScheduleForceKillKeeps(m.(mon := mon), j);
      AffectsTransitive(m.mon, mon, ScheduleForceKill(m.(mon := mon), j).0.mon, j);
    }
  }

  lemma TerminateKeeps(m: Machine, j: JobId, cause: Cause)
    requires Inv(m) && j in m.mon.jobs && m.mon.jobs[j].state.Running?
    requires Permits(Ledger.Of(m.mon.os.log), m.mon.os.now, j, cause)
    ensures var (r, a, ok) := Terminate(m, j, cause);
      && (a.Missing? <==> Orphaned(m.mon, j)) && (a.Missing? ==> !ok) && j in r.mon.jobs
      && (cause.CauseCancelled? || !a.Missing? ==> Requested(m, r, j, cause))
      && Inv(r) && Affects(m.mon, r.mon, j) && SameQueue(m, r) && SameTimers(m.timers, r.timers, j) && KeepsCover(m, r)
  {
    hide Inv, Affects, Requested, Terminate, SameTimers, Covered, Permits;
    if Orphaned(m.mon, j) {
      TerminateOrphan(m, j, cause);
    } else {
      TerminateSent(m, j, cause);
    }
  }

  lemma TerminateOrphan(m: Machine, j: JobId, cause: Cause)
    requires Inv(m) && j in m.mon.jobs && m.mon.jobs[j].state.Running? && Orphaned(m.mon, j)
    ensures var (r, a, ok) := Terminate(m, j, cause);
      && a.Missing? && !ok && j in r.mon.jobs && (cause.CauseCancelled? ==> Requested(m, r, j, cause))
      && Inv(r) && Affects(m.mon, r.mon, j) && SameQueue(m, r) && SameTimers(m.timers, r.timers, j) && KeepsCover(m, r)
  {
    hide Inv, Affects, Covered, PollExit;
    OrphanIsQuiet(m, j);
  }

  lemma TerminateSent(m: Machine, j: JobId, cause: Cause)
    requires Inv(m) && j in m.mon.jobs && m.mon.jobs[j].state.Running? && !Orphaned(m.mon, j)
    requires Permits(Ledger.Of(m.mon.os.log), m.mon.os.now, j, cause)
    ensures var (r, a, ok) := Terminate(m, j, cause);
      && !a.Missing? && j in r.mon.jobs && Requested(m, r, j, cause)
      && Inv(r) && Affects(m.mon, r.mon, j) && SameQueue(m, r) && SameTimers(m.timers, r.timers, j) && KeepsCover(m, r)
  {
    hide Core, NoneComplete, LogOk, QueueOk, SlotsOk, BooksOk, TimersOk, FinishExited, Quiet, Affects, ScheduleForceKill, KillGroup;
    Known(m.mon, j);
    var mid := FinishExited(m.mon, j);
    FinishKeeps(m.mon, j);
    QuietKeeps(m, mid);
    QuietAffects(m.mon, mid, j);
    if j in mid.procs {
      FinishLeavesChild(m.mon, j);
      QuietKeepsJob(m.mon, mid, j);
      QuietKeepsPermit(m.mon, mid, j, OnGrace);
      SendKeeps(m.(mon := mid), j, cause);
      AffectsTransitive(m.mon, mid, Terminate(m, j, cause).0.mon, j);
    }
  }

  // ----- expired deadlines -----

  /** Deadlines that were taken out of the map because they have passed. */
  ghost predicate Overdue(m: Machine, due: seq<JobId>) {
    && Distinct(due)
    && forall j | j in due ::
         && j in m.mon.jobs && m.mon.jobs[j].id == j && j !in m.timers
         && DeadlineOk(Ledger.Of(m.mon.os.log), m.mon.jobs[j], m.mon.os.now)
  }

  lemma OverdueRest(a: Machine, b: Machine, due: seq<JobId>)
    requires Overdue(a, due) && due != [] && Affects(a.mon, b.mon, due[0]) && SameTimers(a.timers, b.timers, due[0])
    ensures Overdue(b, due[1..])
  {
    hide Evolves;
    var rest := due[1..];
    forall j | j in rest
      ensures j != due[0] && j in due
    {
      var x :| 0 <= x < |rest| && rest[x] == j;
      assert due[x + 1] == j;
    }
    SameIds(a.mon.jobs, b.mon.jobs);
  }

  lemma SameIds(a: map<JobId, Job>, b: map<JobId, Job>)
    requires Evolves(a, b)
    ensures forall j | j in a :: j in b && b[j].id == a[j].id
  {
  }

  lemma OverdueHead(m: Machine, due: seq<JobId>)
    requires Overdue(m, due) && due != []
    ensures Overdue(m, [due[0]])
  {
  }

  lemma ExpireOneKeeps(m: Machine, j: JobId)
    requires Inv(m) && Overdue(m, [j])
    ensures var (r, ok) := ExpireOne(m, j);
      && j in r.mon.jobs && (ok ==> WatchedJob(r.timers, Ledger.Of(r.mon.os.log), r.degraded, j, r.mon.jobs[j]))
      && Inv(r) && Affects(m.mon, r.mon, j) && SameQueue(m, r) && SameTimers(m.timers, r.timers, j) && KeepsCover(m, r)
  {
    hide Core, NoneComplete, QueueOk, SlotsOk, TimersOk, BooksOk, Affects, Terminate, ForceKill;
    assert j in [j];
    Known(m.mon, j);
    match m.mon.jobs[j].state
    case Running => TerminateKeeps(m, j, CauseTimedOut);
    case Terminating => ForceKillKeeps(m, j, OnGrace);
    case _ => ClockAffects(m.mon, m.mon, j);
  }

  lemma {:induction false} ExpireKeeps(m: Machine, due: seq<JobId>)
    requires Inv(m) && Overdue(m, due)
    ensures var r := Expire(m, due); Inv(r) && SameQueue(m.(alive := r.alive), r) && KeepsCover(m, r)
    decreases |due|
  {
    hide Inv, Affects, ExpireOne, Overdue, Covered;
    if due != [] {
      OverdueHead(m, due);
      ExpireOneKeeps(m, due[0]);
      var (r, ok) := ExpireOne(m, due[0]);
      OverdueRest(m, r, due);
      if ok {
        ExpireKeeps(r, due[1..]);
      } else {
        AliveIsFree(r);
      }
    }
  }

  // ----- starting -----

  lemma TakeBooks(l: Ledger.Ledger, jobs: map<JobId, Job>, waiting: seq<JobId>, slots: set<JobId>)
    requires BooksOk(l, jobs, waiting, slots) && waiting != [] && waiting[0] in jobs && Increasing(waiting)
    requires jobs[waiting[0]].state.Queued? && waiting[0] !in l.released
    ensures Ledger.Allowed(l, Taken(waiting[0]))
    ensures BooksOk(l.(taken := l.taken + {waiting[0]}), jobs, waiting[1..], slots + {waiting[0]})
  {
    var j, rest := waiting[0], waiting[1..];
    forall i
      ensures i in waiting <==> i == j || i in rest
      ensures i in rest ==> j < i
    {
      if i in waiting && i != j {
        var x :| 0 <= x < |waiting| && waiting[x] == i;
        assert rest[x - 1] == i;
      }
      if i in rest {
        var x :| 0 <= x < |rest| && rest[x] == i;
        assert waiting[x + 1] == i;
      }
    }
  }

  /** Records about the queue and the slots leave the monitor's own invariant alone. */
  lemma NoteKeepsMon(mon: Mon, r: Record)
    requires MonInv(mon) && Ledger.Allowed(Ledger.Of(mon.os.log), r)
    requires r.Submitted? || r.Withdrawn? || r.Taken? || r.Released? || r.Refused?
    ensures MonInv(mon.(os := Note(mon.os, r)))
  {
    hide TableOk, PipesOk, ChildrenOk, IndexOk, IdsOk, OutputOk, StatusOk, NoneComplete, LedgerOk;
    NoteKeepsLedger(Ledger.Of(mon.os.log), mon.jobs, r);
    NoteKeepsStatus(Ledger.Of(mon.os.log), Ledger.Enter(Ledger.Of(mon.os.log), r), mon.jobs, mon.os.files);
    SignalKeepsIds(Ledger.Of(mon.os.log), Ledger.Enter(Ledger.Of(mon.os.log), r), mon.procs, mon.byPid, mon.os.children, mon.os.groups, mon.os.groups, 0);
  }

  lemma NoteKeepsStatus(l: Ledger.Ledger, l': Ledger.Ledger, jobs: map<JobId, Job>, files: Files)
    requires StatusOk(l, jobs, files) && l'.running == l.running && l'.reaped == l.reaped && l'.reusing == l.reusing
    ensures StatusOk(l', jobs, files)
  {
    hide ResultIs;
  }

  lemma NoteKeepsLedger(l: Ledger.Ledger, jobs: map<JobId, Job>, r: Record)
    requires LedgerOk(l, jobs) && (r.Submitted? || r.Withdrawn? || r.Taken? || r.Released? || r.Refused?)
    ensures LedgerOk(Ledger.Enter(l, r), jobs)
  {
    forall i | i in jobs
      ensures JobInLedger(Ledger.Enter(l, r), i, jobs[i])
    {
      assert JobInLedger(l, i, jobs[i]);
    }
  }

  lemma StartedQueue(jobs: map<JobId, Job>, waiting: seq<JobId>, nextId: nat, job: Job)
    requires QueueOk(jobs, waiting, nextId) && waiting != [] && !job.state.Queued?
    ensures QueueOk(jobs[waiting[0] := job], waiting[1..], nextId)
  {
    IncreasingIsDistinct(waiting);
    HeadLeaves(waiting);
    assert waiting[0] in waiting;
    hide Increasing;
  }

  lemma StartedTimers(timers: Deadlines, slots: set<JobId>, jobs: map<JobId, Job>, l: Ledger.Ledger, l': Ledger.Ledger, j: JobId, job: Job)
    requires TimersOk(timers, slots, jobs, l) && j !in slots && (forall i | i in jobs :: jobs[i].id == i)
    requires forall i | i != j :: (i in l'.running <==> i in l.running) && (i in l.running ==> l'.running[i] == l.running[i])
    requires l'.terminated == l.terminated && l'.killed == l.killed
    ensures TimersOk(timers, slots + {j}, jobs[j := job], l') && TimersOk(timers, slots, jobs[j := job], l')
    ensures j !in timers
  {
  }

  lemma StartedBooks(l: Ledger.Ledger, l': Ledger.Ledger, jobs: map<JobId, Job>, waiting: seq<JobId>, slots: set<JobId>, j: JobId, job: Job)
    requires BooksOk(l, jobs, waiting, slots) && j in jobs && j in l.taken && j !in l.withdrawn
    requires l' == l.(running := l'.running, reused := l'.reused, reusing := l'.reusing) && !IsTerminal(job.state)
    ensures BooksOk(l', jobs[j := job], waiting, slots)
  {
  }

  lemma FailedBooks(l: Ledger.Ledger, jobs: map<JobId, Job>, waiting: seq<JobId>, slots: set<JobId>, j: JobId, job: Job)
    requires BooksOk(l, jobs, waiting, slots) && j in jobs && j in l.taken && j !in l.withdrawn && !job.state.Cancelled?
    ensures BooksOk(l.(settled := l.settled + {j}, released := l.released + {j}), jobs[j := job], waiting, slots - {j})
  {
  }

  /** The head of the queue holds no slot yet, and the log has never seen it started. */
  lemma HeadIsFree(m: Machine)
    requires Inv(m) && CanPump(m)
    ensures var j := m.waiting[0]; var l := Ledger.Of(m.mon.os.log);
      && m.mon.jobs[j].state.Queued? && j !in m.slots && j !in m.mon.procs && j !in l.taken && j !in l.withdrawn && j !in l.settled && j !in l.released
  {
    var j := m.waiting[0];
    assert j in m.waiting;
    Known(m.mon, j);
  }

  /** Nothing submitted after the head of the queue has been started. */
  lemma HeadIsLatest(m: Machine)
    requires Inv(m) && CanPump(m)
    ensures forall i | i in Ledger.Of(m.mon.os.log).running :: i < m.waiting[0]
  {
    var l := Ledger.Of(m.mon.os.log);
    assert m.waiting[0] in m.waiting;
    forall i | i in l.running
      ensures i < m.waiting[0]
    {
      assert i in m.mon.jobs;
      Known(m.mon, i);
    }
  }

  /** Take the head and start it: the invariant up to the deadline that may follow. */
  lemma LaunchKeeps(m: Machine)
    requires Inv(m) && CanPump(m)
    ensures var j := m.waiting[0]; var mon := Start(Take(m).mon, j); var t := Take(m).(mon := mon);
      && m.mon.jobs[j].state.Queued? && StartShape(Take(m).mon, mon, j)
      && mon.jobs[j].id == j && j !in m.timers && mon.jobs[j].spec == m.mon.jobs[j].spec
      && if IsTerminal(mon.jobs[j].state) then Inv(Release(t, j))
         else Inv(t) && mon.jobs[j].state.Running? && j in Ledger.Of(mon.os.log).running && Ledger.Of(mon.os.log).running[j].at == mon.os.now
  {
    hide MonInv, QueueOk, SlotsOk, TimersOk, BooksOk, Start;
    var j := m.waiting[0];
    var l := Ledger.Of(m.mon.os.log);
    HeadIsFree(m);
    Ids(m.mon);
    QueueIncreases(m.mon.jobs, m.waiting, m.nextId);
    TakeBooks(l, m.mon.jobs, m.waiting, m.slots);
    NoteKeepsMon(m.mon, Taken(j));
    var a := Take(m).mon;
    HeadIsLatest(m);
    StartKeeps(a, j);
    var b := Start(a, j);
    LaunchSlots(m, b);
    LaunchRest(m, b);
  }

  lemma QueueIncreases(jobs: map<JobId, Job>, waiting: seq<JobId>, nextId: nat)
    requires QueueOk(jobs, waiting, nextId)
    ensures Increasing(waiting)
  {
  }

  lemma LaunchSlots(m: Machine, b: Mon)
    requires SlotsOk(m.slots, m.mon.procs.Keys, m.mon.pending, m.max) && CanPump(m)
    requires m.waiting[0] !in m.slots && StartShape(Take(m).mon, b, m.waiting[0])
    ensures var j := m.waiting[0];
      if b.jobs[j].state.Running? then SlotsOk(m.slots + {j}, b.procs.Keys, b.pending, m.max)
      else SlotsOk(m.slots + {j} - {j}, b.procs.Keys, b.pending, m.max)
  {
    var j := m.waiting[0];
    assert m.slots + {j} - {j} == m.slots;
  }

  lemma LaunchRest(m: Machine, b: Mon)
    requires Inv(m) && CanPump(m) && MonInv(b) && StartShape(Take(m).mon, b, m.waiting[0])
    requires var j := m.waiting[0];
      if b.jobs[j].state.Running? then SlotsOk(m.slots + {j}, b.procs.Keys, b.pending, m.max)
      else SlotsOk(m.slots + {j} - {j}, b.procs.Keys, b.pending, m.max)
    requires var j := m.waiting[0]; var l := Ledger.Of(m.mon.os.log);
      && j !in m.slots && j !in l.withdrawn && j !in l.settled && j !in l.released && (forall i | i in m.mon.jobs :: m.mon.jobs[i].id == i)
      && BooksOk(l.(taken := l.taken + {j}), m.mon.jobs, m.waiting[1..], m.slots + {j})
    ensures var j := m.waiting[0]; var t := Take(m).(mon := b);
      && b.jobs[j].id == j && j !in m.timers && b.jobs[j].spec == m.mon.jobs[j].spec
      && if IsTerminal(b.jobs[j].state) then Inv(Release(t, j))
         else Inv(t) && b.jobs[j].state.Running? && j in Ledger.Of(b.os.log).running && Ledger.Of(b.os.log).running[j].at == b.os.now
  {
    hide MonInv, QueueOk, SlotsOk, TimersOk, BooksOk, LogOk, LosesNothing, Ledger.Namesakes;
    var j := m.waiting[0];
    var l, l' := Ledger.Of(m.mon.os.log), Ledger.Of(b.os.log);
    var lt := l.(taken := l.taken + {j});
    assert Ledger.Of(Take(m).mon.os.log) == lt;
    StartedQueue(m.mon.jobs, m.waiting, m.nextId, b.jobs[j]);
    if b.jobs[j].state.Running? {
      StartedTimers(m.timers, m.slots, m.mon.jobs, l, l', j, b.jobs[j]);
      StartedBooks(lt, l', m.mon.jobs, m.waiting[1..], m.slots + {j}, j, b.jobs[j]);
    } else {
      var r := l'.(released := l'.released + {j});
      assert m.slots + {j} - {j} == m.slots;
      StartedTimers(m.timers, m.slots, m.mon.jobs, l, r, j, b.jobs[j]);
      FailedBooks(lt, m.mon.jobs, m.waiting[1..], m.slots + {j}, j, b.jobs[j]);
      NoteKeepsMon(b, Released(j));
    }
  }

  // ----- the scheduler loop -----

  lemma PumpOnceKeeps(m: Machine)
    requires Inv(m) && CanPump(m)
    ensures var (r, ok) := PumpOnce(m);
      && Inv(r) && r.max == m.max && r.alive == m.alive
      && (ok ==> r.degraded == m.degraded && KeepsCover(m, r)) && (!ok ==> r.degraded)
  {
    hide MonInv, QueueOk, SlotsOk, TimersOk, BooksOk, Schedule, Start, LosesNothing, LogOk, Covered;
    var j := m.waiting[0];
    LaunchKeeps(m);
    var mon := Start(Take(m).mon, j);
    var t := Take(m).(mon := mon);
    if !IsTerminal(mon.jobs[j].state) && mon.jobs[j].spec.timeout.Some? {
      SlotOf(t, j);
      assert t.timers - {j} == t.timers;
      ScheduleKeeps(t, j, mon.jobs[j].spec.timeout.value);
      NoDeadlineSet(t, j, mon.jobs[j].spec.timeout.value);
    }
  }

  lemma NoDeadlineSet(m: Machine, j: JobId, ms: int)
    requires m.generation == 0 ==> j !in m.timers
    ensures var r := Schedule(m, j, ms).0; m.generation == 0 ==> Unschedule(r, j) == r
  {
    assert m.generation == 0 ==> m.timers - {j} == m.timers;
  }

  lemma SlotOf(m: Machine, j: JobId)
    requires Inv(m) && j in m.mon.jobs && m.mon.jobs[j].state.Running?
    ensures j in m.slots
  {
    Known(m.mon, j);
  }

  lemma {:induction false} PumpKeeps(m: Machine)
    requires Inv(m)
    ensures var (r, ok) := Pump(m);
      && Inv(r) && r.max == m.max && r.alive == m.alive
      && (ok ==> r.degraded == m.degraded && KeepsCover(m, r) && Saturated(r)) && (!ok ==> r.degraded)
    decreases |m.waiting|
  {
    HeadIsKnown(m);
    hide Inv, Covered;
    if CanPump(m) {
      PumpOnceKeeps(m);
      var (r, ok) := PumpOnce(m);
      if ok {
        PumpKeeps(r);
      }
    }
  }

  lemma HeadIsKnown(m: Machine)
    requires Inv(m)
    ensures m.waiting != [] ==> m.waiting[0] in m.mon.jobs
    ensures |m.slots| <= m.max
  {
    assert m.waiting != [] ==> m.waiting[0] in m.waiting;
  }

  // ----- terminal notifications -----

  lemma RetireBooks(l: Ledger.Ledger, jobs: map<JobId, Job>, waiting: seq<JobId>, slots: set<JobId>, j: JobId)
    requires BooksOk(l, jobs, waiting, slots) && j in slots && j in jobs && IsTerminal(jobs[j].state)
    ensures Ledger.Allowed(l, Released(j))
    ensures BooksOk(l.(released := l.released + {j}), jobs, waiting, slots - {j})
  {
  }

  lemma RetireTable(jobs: map<JobId, Job>, procs: map<JobId, Proc>, pending: seq<JobId>)
    requires TableOk(jobs, procs, pending) && pending != []
    ensures TableOk(jobs, procs, pending[1..])
    ensures forall j :: j in pending[1..] <==> j in pending && j != pending[0]
    ensures pending[0] !in procs && pending[0] in jobs && IsTerminal(jobs[pending[0]].state)
  {
    HeadLeaves(pending);
    assert pending[0] in pending;
    hide JobOk;
  }

  lemma RetireSlots(slots: set<JobId>, live: set<JobId>, pending: seq<JobId>, max: nat)
    requires SlotsOk(slots, live, pending, max) && pending != [] && pending[0] !in live
    requires forall j :: j in pending[1..] <==> j in pending && j != pending[0]
    ensures SlotsOk(slots - {pending[0]}, live, pending[1..], max) && pending[0] in slots
  {
    assert pending[0] in pending;
  }

  lemma RetireTimers(timers: Deadlines, slots: set<JobId>, jobs: map<JobId, Job>, l: Ledger.Ledger, j: JobId)
    requires TimersOk(timers, slots, jobs, l)
    ensures TimersOk(timers - {j}, slots - {j}, jobs, l.(released := l.released + {j}))
  {
  }

  lemma RetireMon(mon: Mon)
    requires MonInv(mon) && mon.pending != []
    ensures MonInv(mon.(pending := mon.pending[1..]))
    ensures forall j :: j in mon.pending[1..] <==> j in mon.pending && j != mon.pending[0]
    ensures mon.pending[0] !in mon.procs && mon.pending[0] in mon.jobs && IsTerminal(mon.jobs[mon.pending[0]].state)
  {
    hide TableOk, PipesOk, ChildrenOk, IndexOk, IdsOk, OutputOk, StatusOk, LedgerOk, LogOk, NoneComplete;
    RetireTable(mon.jobs, mon.procs, mon.pending);
  }

  lemma RetireKeeps(m: Machine)
    requires Inv(m) && m.mon.pending != []
    ensures Inv(Retire(m)) && KeepsCover(m, Retire(m))
  {
    hide MonInv, QueueOk, SlotsOk, TimersOk, BooksOk;
    var j := m.mon.pending[0];
    var l := Ledger.Of(m.mon.os.log);
    RetireMon(m.mon);
    RetireSlots(m.slots, m.mon.procs.Keys, m.mon.pending, m.max);
    RetireBooks(l, m.mon.jobs, m.waiting, m.slots, j);
    RetireTimers(m.timers, m.slots, m.mon.jobs, l, j);
    NoteKeepsMon(m.mon.(pending := m.mon.pending[1..]), Released(j));
  }

  lemma {:induction false} DeliverKeeps(m: Machine)
    requires Inv(m)
    ensures var r := Deliver(m);
      && Inv(r) && r.max == m.max && (r.alive ==> r.mon.pending == [])
      && (m.alive && !r.alive ==> r.degraded)
      && (r.degraded || (r.degraded == m.degraded && KeepsCover(m, r) && (Saturated(m) ==> Saturated(r))))
    decreases |m.mon.pending|
  {
    if m.mon.pending != [] {
      RetireKeeps(m);
      hide Inv, Covered;
      PumpKeeps(Retire(m));
      var (r, ok) := Pump(Retire(m));
      if ok {
        DeliverKeeps(r);
      }
    }
  }

  // ----- events -----

  lemma SubmittedQueue(jobs: map<JobId, Job>, waiting: seq<JobId>, nextId: nat, spec: JobSpec)
    requires QueueOk(jobs, waiting, nextId) && nextId != 0
    ensures QueueOk(jobs[nextId := NewJob(nextId, spec)], waiting + [nextId], (nextId + 1) % JOB_ID_SPACE)
    ensures nextId !in jobs
  {
    var longer, next := waiting + [nextId], (nextId + 1) % JOB_ID_SPACE;
    assert next == if nextId + 1 == JOB_ID_SPACE then 0 else nextId + 1;
    forall x, y | 0 <= x < y < |longer|
      ensures longer[x] < longer[y]
    {
      assert waiting[x] in waiting;
    }
    assert forall j :: j in longer <==> j in waiting || j == nextId;
  }

  lemma SubmittedBooks(l: Ledger.Ledger, jobs: map<JobId, Job>, waiting: seq<JobId>, slots: set<JobId>, nextId: nat, spec: JobSpec)
    requires BooksOk(l, jobs, waiting, slots) && QueueOk(jobs, waiting, nextId) && nextId != 0
    ensures Ledger.Allowed(l, Submitted(nextId))
    ensures BooksOk(l.(submitted := l.submitted + {nextId}), jobs[nextId := NewJob(nextId, spec)], waiting + [nextId], slots)
  {
    assert nextId !in jobs;
    assert forall j :: j in waiting + [nextId] <==> j in waiting || j == nextId;
  }

  lemma SubmittedMon(mon: Mon, j: JobId, spec: JobSpec)
    requires MonInv(mon) && j !in mon.jobs && ValidSpec(spec)
    ensures MonInv(mon.(jobs := mon.jobs[j := NewJob(j, spec)]))
  {
    hide TableOk, PipesOk, ChildrenOk, IndexOk, IdsOk, OutputOk, StatusOk, LedgerOk, LogOk, NoneComplete;
    SubmittedLedger(Ledger.Of(mon.os.log), mon.jobs, j, spec);
    SubmittedTable(mon.jobs, mon.procs, mon.pending, j, spec);
    TermKeepsOutput(mon.jobs, Ledger.Of(mon.os.log).running.Keys, mon.os.files, j, NewJob(j, spec));
    TermKeepsStatus(Ledger.Of(mon.os.log), Ledger.Of(mon.os.log), mon.jobs, mon.os.files, j, NewJob(j, spec));
  }

  lemma SubmittedTable(jobs: map<JobId, Job>, procs: map<JobId, Proc>, pending: seq<JobId>, j: JobId, spec: JobSpec)
    requires TableOk(jobs, procs, pending) && j !in jobs && ValidSpec(spec)
    ensures TableOk(jobs[j := NewJob(j, spec)], procs, pending)
  {
  }

  lemma SubmittedLedger(l: Ledger.Ledger, jobs: map<JobId, Job>, j: JobId, spec: JobSpec)
    requires LedgerOk(l, jobs) && j !in jobs
    ensures LedgerOk(l, jobs[j := NewJob(j, spec)])
  {
  }

  lemma SubmittedTimers(timers: Deadlines, slots: set<JobId>, jobs: map<JobId, Job>, l: Ledger.Ledger, j: JobId, job: Job)
    requires TimersOk(timers, slots, jobs, l) && j !in jobs
    ensures TimersOk(timers, slots, jobs[j := job], l.(submitted := l.submitted + {j}))
  {
  }

  /** Every event keeps the invariant; while the timer can be armed no job waits beside a free
      slot and no deadline is left without a timer. */
  ghost predicate Healthy(m: Machine) {
    m.alive && !m.degraded ==> Saturated(m) && Covered(m.timers, m.mon.os.timer)
  }

  lemma EnqueueKeeps(m: Machine, spec: JobSpec)
    requires Inv(m) && ValidSpec(spec) && m.nextId != 0
    ensures Inv(Enqueue(m, spec)) && m.nextId !in m.mon.jobs
  {
    hide MonInv, QueueOk, SlotsOk, TimersOk, BooksOk;
    var j := m.nextId;
    var l := Ledger.Of(m.mon.os.log);
    SubmittedQueue(m.mon.jobs, m.waiting, j, spec);
    SubmittedBooks(l, m.mon.jobs, m.waiting, m.slots, j, spec);
    SubmittedTimers(m.timers, m.slots, m.mon.jobs, l, j, NewJob(j, spec));
    SubmittedMon(m.mon, j, spec);
    NoteKeepsMon(m.mon.(jobs := m.mon.jobs[j := NewJob(j, spec)]), Submitted(j));
  }

  lemma SubmitKeeps(m: Machine, spec: JobSpec)
    requires Inv(m) && Healthy(m) && m.alive
    ensures Inv(DoSubmit(m, spec)) && Healthy(DoSubmit(m, spec)) && DoSubmit(m, spec).max == m.max
  {
    hide Inv, Covered;
    if ValidSpec(spec) && m.nextId != 0 {
      EnqueueKeeps(m, spec);
      PumpKeeps(Enqueue(m, spec));
    }
  }

  lemma HeadIsLeast(q: seq<JobId>)
    requires q != [] && Increasing(q)
    ensures forall i | i in q[1..] :: q[0] < i
  {
  }

  lemma Prefixed(head: JobId, q: seq<JobId>)
    requires Increasing(q) && forall i | i in q :: head < i
    ensures Increasing([head] + q) && forall i :: i in [head] + q <==> i == head || i in q
  {
    assert forall x | 0 <= x < |q| :: q[x] in q;
  }

  lemma {:induction false} RemoveSpec(q: seq<JobId>, j: JobId)
    requires Increasing(q)
    ensures Increasing(Remove(q, j)) && |Remove(q, j)| == if j in q then |q| - 1 else |q|
    ensures forall i :: i in Remove(q, j) <==> i in q && i != j
  {
    if q != [] {
      IncreasingIsDistinct(q);
      HeadLeaves(q);
      HeadIsLeast(q);
      hide Increasing;
      RemoveSpec(q[1..], j);
      if q[0] != j {
        Prefixed(q[0], Remove(q[1..], j));
      }
    }
  }

  lemma WithdrawnBooks(l: Ledger.Ledger, jobs: map<JobId, Job>, waiting: seq<JobId>, rest: seq<JobId>, slots: set<JobId>, j: JobId, job: Job)
    requires BooksOk(l, jobs, waiting, slots) && j in waiting && j in jobs
    requires forall i :: i in rest <==> i in waiting && i != j
    requires job.state.Cancelled? && job.pid.None?
    ensures Ledger.Allowed(l, Withdrawn(j))
    ensures BooksOk(l.(withdrawn := l.withdrawn + {j}), jobs[j := job], rest, slots)
  {
  }

  lemma WithdrawnQueue(jobs: map<JobId, Job>, waiting: seq<JobId>, nextId: nat, j: JobId, job: Job)
    requires QueueOk(jobs, waiting, nextId) && j in jobs && !job.state.Queued?
    ensures QueueOk(jobs[j := job], Remove(waiting, j), nextId)
  {
    RemoveSpec(waiting, j);
  }

  lemma WithdrawnMon(mon: Mon, j: JobId)
    requires MonInv(mon) && j in mon.jobs && mon.jobs[j].state.Queued?
    ensures MonInv(mon.(jobs := mon.jobs[j := mon.jobs[j].(state := Cancelled)]))
  {
    hide TableOk, PipesOk, ChildrenOk, IndexOk, IdsOk, OutputOk, StatusOk, LedgerOk, LogOk, NoneComplete;
    Known(mon, j);
    WithdrawnLedger(Ledger.Of(mon.os.log), mon.jobs, j);
    WithdrawnTable(mon.jobs, mon.procs, mon.pending, j);
    WithdrawnOutput(mon.jobs, Ledger.Of(mon.os.log).running.Keys, mon.os.files, j);
    WithdrawnStatus(Ledger.Of(mon.os.log), mon.jobs, mon.os.files, j);
  }

  lemma WithdrawnTable(jobs: map<JobId, Job>, procs: map<JobId, Proc>, pending: seq<JobId>, j: JobId)
    requires TableOk(jobs, procs, pending) && j in jobs && jobs[j].state.Queued?
    ensures TableOk(jobs[j := jobs[j].(state := Cancelled)], procs, pending)
  {
  }

  lemma WithdrawnOutput(jobs: map<JobId, Job>, started: set<JobId>, files: Files, j: JobId)
    requires OutputOk(jobs, started, files) && j in jobs && j !in started && jobs[j].stdout == [] && jobs[j].stderr == []
    ensures OutputOk(jobs[j := jobs[j].(state := Cancelled)], started, files)
  {
  }

  lemma WithdrawnStatus(l: Ledger.Ledger, jobs: map<JobId, Job>, files: Files, j: JobId)
    requires StatusOk(l, jobs, files) && j in jobs && j !in l.running
    ensures StatusOk(l, jobs[j := jobs[j].(state := Cancelled)], files)
  {
    hide ResultIs;
  }

  lemma WithdrawnLedger(l: Ledger.Ledger, jobs: map<JobId, Job>, j: JobId)
    requires LedgerOk(l, jobs) && j in jobs && jobs[j].state.Queued?
    ensures LedgerOk(l, jobs[j := jobs[j].(state := Cancelled)])
  {
    assert JobInLedger(l, j, jobs[j]);
  }

  lemma WithdrawnTimers(timers: Deadlines, slots: set<JobId>, jobs: map<JobId, Job>, l: Ledger.Ledger, j: JobId)
    requires TimersOk(timers, slots, jobs, l) && j in jobs && jobs[j].state.Queued?
    ensures TimersOk(timers, slots, jobs[j := jobs[j].(state := Cancelled)], l.(withdrawn := l.withdrawn + {j}))
  {
  }

  lemma QueuedIsWaiting(m: Machine, j: JobId)
    requires Inv(m) && j in m.mon.jobs && m.mon.jobs[j].state.Queued?
    ensures j in m.waiting && Increasing(m.waiting) && m.mon.jobs[j].pid.None?
  {
    Known(m.mon, j);
  }

  lemma WithdrawKeeps(m: Machine, j: JobId)
    requires Inv(m) && j in m.mon.jobs && m.mon.jobs[j].state.Queued?
    ensures Inv(DoCancel(m, j))
  {
    hide MonInv, QueueOk, SlotsOk, TimersOk, BooksOk;
    var l := Ledger.Of(m.mon.os.log);
    var job := m.mon.jobs[j].(state := Cancelled);
    QueuedIsWaiting(m, j);
    RemoveSpec(m.waiting, j);
    WithdrawnQueue(m.mon.jobs, m.waiting, m.nextId, j, job);
    WithdrawnBooks(l, m.mon.jobs, m.waiting, Remove(m.waiting, j), m.slots, j, job);
    WithdrawnTimers(m.timers, m.slots, m.mon.jobs, l, j);
    WithdrawnMon(m.mon, j);
    NoteKeepsMon(m.mon.(jobs := m.mon.jobs[j := job]), Withdrawn(j));
  }

  lemma CancelKeeps(m: Machine, j: JobId)
    requires Inv(m) && Healthy(m) && m.alive
    ensures Inv(DoCancel(m, j)) && Healthy(DoCancel(m, j)) && DoCancel(m, j).max == m.max
  {
    hide Inv, Covered, Affects, Terminate;
    if j in m.mon.jobs && m.mon.jobs[j].state.Queued? {
      WithdrawKeeps(m, j);
    } else if j in m.mon.jobs && m.mon.jobs[j].state.Running? {
      TerminateKeeps(m, j, CauseCancelled);
    }
  }

  /** The deadlines that have passed are overdue; the others keep their meaning. */
  lemma SplitTimers(m: Machine)
    requires Inv(m)
    ensures var os := Tick(m.mon.os);
      && TimersOk(Later(m.timers, os.now), m.slots, m.mon.jobs, Ledger.Of(m.mon.os.log))
      && Distinct(Due(m.timers, os.now))
      && (forall j | j in Due(m.timers, os.now) ::
            && j in m.mon.jobs && m.mon.jobs[j].id == j && j !in Later(m.timers, os.now)
            && DeadlineOk(Ledger.Of(m.mon.os.log), m.mon.jobs[j], os.now))
  {
    hide MonInv, QueueOk, SlotsOk, BooksOk;
    Ids(m.mon);
    DueOrdered(m.timers, Tick(m.mon.os).now);
  }

  lemma RearmKeeps(m: Machine, os: Os, later: Deadlines, due: seq<JobId>)
    requires Inv(m) && os == Tick(m.mon.os) && later == Later(m.timers, os.now) && due == Due(m.timers, os.now)
    ensures var t := m.(timers := later, mon := m.mon.(os := ArmFor(os, later)));
      && Inv(t) && Overdue(t, due)
      && (NextArm(os) ==> Covered(later, t.mon.os.timer))
  {
    hide MonInv, QueueOk, SlotsOk, TimersOk, BooksOk, Covered, Due, Later, Distinct, ArmFor, Tick;
    SplitTimers(m);
    ArmCovers(os, later);
    ArmIsClock(m.mon, later);
    var t := m.(timers := later, mon := m.mon.(os := ArmFor(os, later)));
    ClockKeeps(m.(timers := later), t.mon);
    assert Ledger.Of(t.mon.os.log) == Ledger.Of(m.mon.os.log);
    LaterDeadlines(m, t, due, os.now);
  }

  lemma ArmIsClock(mon: Mon, t: Deadlines)
    ensures ClockShape(mon, mon.(os := ArmFor(Tick(mon.os), t))) && Tick(mon.os).now <= ArmFor(Tick(mon.os), t).now
  {
  }

  lemma LaterDeadlines(m: Machine, t: Machine, due: seq<JobId>, now: Time)
    requires Distinct(due) && t.mon.jobs == m.mon.jobs && now <= t.mon.os.now
    requires forall j | j in due ::
      && j in m.mon.jobs && m.mon.jobs[j].id == j && j !in t.timers
      && DeadlineOk(Ledger.Of(t.mon.os.log), m.mon.jobs[j], now)
    ensures Overdue(t, due)
  {
  }

  lemma TimerKeeps(m: Machine)
    requires Inv(m) && Healthy(m) && m.alive
    ensures Inv(DoTimer(m)) && Healthy(DoTimer(m)) && DoTimer(m).max == m.max
  {
    hide Inv, Covered, Due, Later, ArmFor, Overdue, Tick;
    var os := Tick(m.mon.os);
    var later, due := Later(m.timers, os.now), Due(m.timers, os.now);
    RearmKeeps(m, os, later, due);
    var t := m.(timers := later, mon := m.mon.(os := ArmFor(os, later)));
    if NextArm(os) {
      ExpireKeeps(t, due);
      var r := Expire(t, due);
      if r.alive {
        DeliverKeeps(r);
      }
    } else {
      AliveIsFree(t);
    }
  }

  lemma AliveIsFree(m: Machine)
    requires Inv(m)
    ensures forall b :: Inv(m.(alive := b))
  {
  }

  lemma QuietEventKeeps(m: Machine, mon: Mon)
    requires Inv(m) && Healthy(m) && m.alive && MonInv(mon) && Quiet(m.mon, mon)
    ensures var r := Deliver(m.(mon := mon)); Inv(r) && Healthy(r) && r.max == m.max
  {
    QuietAffects(m.mon, mon, 0);
    QuietKeeps(m, mon);
    hide Inv, Covered, Quiet, MonInv;
    DeliverKeeps(m.(mon := mon));
  }

  lemma CollectIsQuiet(mon: Mon)
    requires MonInv(mon)
    ensures MonInv(Collect(mon)) && Quiet(mon, Collect(mon))
  {
    CollectKeeps(mon);
  }

  lemma StepKeeps(m: Machine, e: Event)
    requires Inv(m) && Healthy(m)
    ensures Inv(Step(m, e)) && Healthy(Step(m, e)) && Step(m, e).max == m.max
  {
    hide Healthy, MonInv, Quiet, QueueOk, SlotsOk, TimersOk, BooksOk, PipeEvent, Collect, DoSubmit, DoCancel, DoTimer;
    if m.alive {
      match e
      case Submit(spec) => SubmitKeeps(m, spec);
      case Cancel(j) => CancelKeeps(m, j);
      case PipeReady(fd) =>
        PipeEventKeeps(m.mon, fd);
        QuietEventKeeps(m, PipeEvent(m.mon, fd));
      case ChildSignal =>
        CollectIsQuiet(m.mon);
        QuietEventKeeps(m, Collect(m.mon));
      case TimerReady => TimerKeeps(m);
    }
  }

  lemma InitInv(max: nat, os: Os)
    requires max > 0 && Fresh(os)
    ensures Inv(Init(max, os)) && Healthy(Init(max, os))
  {
  }

  /** The cross-module invariant holds in every state of every run, whatever the kernel answers. */
  lemma {:induction false} RunKeeps(max: nat, os: Os, events: seq<Event>)
    requires max > 0 && Fresh(os)
    ensures Inv(Run(max, os, events)) && Healthy(Run(max, os, events)) && Run(max, os, events).max == max
  {
    hide Inv, Healthy, Step;
    if events == [] {
      InitInv(max, os);
    } else {
      RunKeeps(max, os, events[..|events| - 1]);
      StepKeeps(Run(max, os, events[..|events| - 1]), events[|events| - 1]);
    }
  }
}
