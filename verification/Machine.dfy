/** The daemon as a step machine: what each event does to the whole state (src/runnerd_main.cpp).

    The scheduler appears as its FIFO queue and its set of occupied slots, the timeout
    manager as its map of deadlines; the classes that keep them are proved equal to these. */
module Machine {
  import opened Jobs
  import opened Kernel
  import opened MonitorSpec
  import opened Deadlines

  datatype Machine = Machine(
    max: nat,
    mon: Mon,
    waiting: seq<JobId>,
    slots: set<JobId>,
    timers: Deadlines,
    nextId: nat,
    generation: nat,  // the timeout manager's next generation; 0 when the counter is exhausted
    alive: bool,      // false once an exception left the event loop
    degraded: bool)   // true once the timer could not be armed for a started job

  const GENERATION_SPACE: nat := 0x1_0000_0000_0000_0000

  datatype Event =
    | Submit(spec: JobSpec)
    | Cancel(job: JobId)
    | PipeReady(fd: Fd)
    | ChildSignal
    | TimerReady

  function Noted(m: Machine, r: Record): Machine {
    m.(mon := m.mon.(os := Note(m.mon.os, r)))
  }

  // ----- deadlines -----

  /** A failed arming leaves the new deadline in the map; an exhausted counter changes nothing. */
  ghost function TrySchedule(m: Machine, j: JobId, ms: int): (r: (Machine, bool)) {
    if m.generation == 0 then (m, false) else
      var os := Tick(m.mon.os);
      var timers := m.timers[j := os.now + ToNs(ms)];
      (m.(timers := timers, mon := m.mon.(os := ArmFor(os, timers)), generation := (m.generation + 1) % GENERATION_SPACE),
       NextArm(os))
  }

  ghost function Schedule(m: Machine, j: JobId, ms: int): (r: (Machine, bool)) {
    var (m, ok) := TrySchedule(m, j, ms);
    (if ok then m else Noted(m, Refused(j)), ok)
  }

  function Unschedule(m: Machine, j: JobId): Machine {
    m.(timers := m.timers - {j})
  }

  /** Replace the execution deadline by the grace deadline, or kill at once if that fails. */
  ghost function ScheduleForceKill(m: Machine, j: JobId): (r: (Machine, bool)) {
    var (m, ok) := Schedule(Unschedule(m, j), j, GRACE_MS);
    if ok then (m, true) else
      var (mon, a) := ForceKill(m.mon, j, OnFallback);
      (Unschedule(m, j).(mon := mon), !a.Raised())
  }

  // ----- scheduling -----

  function Take(m: Machine): Machine
    requires m.waiting != []
  {
    Noted(m.(waiting := m.waiting[1..], slots := m.slots + {m.waiting[0]}), Taken(m.waiting[0]))
  }

  function Release(m: Machine, j: JobId): Machine {
    Noted(m.(slots := m.slots - {j}), Released(j))
  }

  predicate CanPump(m: Machine) {
    |m.slots| < m.max && m.waiting != [] && m.waiting[0] in m.mon.jobs
  }

  /** Take the head of the queue and start it; a job that failed to start frees its slot at once.
      The flag is false when arming a timer failed. */
  ghost function PumpOnce(m: Machine): (r: (Machine, bool))
    requires CanPump(m)
    ensures r.0.mon.pending == m.mon.pending && r.0.waiting == m.waiting[1..]
  {
    var j := m.waiting[0];
    var m := Take(m);
    var m := m.(mon := Start(m.mon, j));
    var job := m.mon.jobs[j];
    if IsTerminal(job.state) then (Release(m, j), true)
    else if job.spec.timeout.None? then (m, true)
    else
      var (m, ok) := Schedule(m, j, job.spec.timeout.value);
      (if ok then m else m.(degraded := true), ok)
  }

  /** Start waiting jobs while a slot is free. */
  ghost function Pump(m: Machine): (r: (Machine, bool))
    ensures r.0.mon.pending == m.mon.pending
    decreases |m.waiting|
  {
    if !CanPump(m) then (m, true) else
      var (m, ok) := PumpOnce(m);
      if ok then Pump(m) else (m, false)
  }

  /** Handle the oldest terminal notification, up to the refilling of the slot. */
  function Retire(m: Machine): Machine
    requires m.mon.pending != []
  {
    var j := m.mon.pending[0];
    Release(Unschedule(m.(mon := m.mon.(pending := m.mon.pending[1..])), j), j)
  }

  /** Settle the jobs that reached a terminal state: drop the deadline, free the slot, refill it. */
  ghost function Deliver(m: Machine): Machine
    decreases |m.mon.pending|
  {
    if m.mon.pending == [] then m else
      var (m, ok) := Pump(Retire(m));
      if ok then Deliver(m) else m.(alive := false)
  }

  // ----- events -----

  /** Enter the job in the table and at the end of the queue. */
  function Enqueue(m: Machine, spec: JobSpec): Machine {
    var j := m.nextId;
    Noted(m.(mon := m.mon.(jobs := m.mon.jobs[j := NewJob(j, spec)]),
             waiting := m.waiting + [j],
             nextId := (j + 1) % JOB_ID_SPACE), Submitted(j))
  }

  ghost function DoSubmit(m: Machine, spec: JobSpec): Machine {
    if !ValidSpec(spec) || m.nextId == 0 then m else Pump(Enqueue(m, spec)).0
  }

  function Remove(q: seq<JobId>, j: JobId): seq<JobId> {
    if q == [] then [] else if q[0] == j then q[1..] else [q[0]] + Remove(q[1..], j)
  }

  /** SIGTERM, and on success the grace deadline.  The flag is false when the attempt raised an error. */
  ghost function Terminate(m: Machine, j: JobId, cause: Cause): (r: (Machine, Ending, bool)) {
    var (mon, a) := RequestTerminate(m.mon, j, cause);
    var m := m.(mon := mon);
    if a.Delivered? then
      var (m, ok) := ScheduleForceKill(m, j);
      (m, a, ok)
    else (m, a, !a.Raised())
  }

  ghost function DoCancel(m: Machine, j: JobId): Machine {
    if j !in m.mon.jobs then m else
      var job := m.mon.jobs[j];
      match job.state
      case Queued =>
        Noted(m.(waiting := Remove(m.waiting, j),
                 mon := m.mon.(jobs := m.mon.jobs[j := job.(state := Cancelled)])), Withdrawn(j))
      case Running => Terminate(m, j, CauseCancelled).0
      case _ => m
  }

  /** One expired deadline: SIGTERM for a RUNNING job, SIGKILL for a TERMINATING one. */
  ghost function ExpireOne(m: Machine, j: JobId): (r: (Machine, bool)) {
    if j !in m.mon.jobs then (m, true) else
      match m.mon.jobs[j].state
      case Running =>
        var (m, _, ok) := Terminate(m, j, CauseTimedOut);
        (m, ok)
      case Terminating =>
        var (mon, a) := ForceKill(m.mon, j, OnGrace);
        (m.(mon := mon), !a.Raised())
      case _ => (m, true)
  }

  /** Handle the expired deadlines one by one; an error ends the daemon. */
  ghost function Expire(m: Machine, due: seq<JobId>): Machine
    decreases |due|
  {
    if due == [] then m else
      var (m, ok) := ExpireOne(m, due[0]);
      if ok then Expire(m, due[1..]) else m.(alive := false)
  }

  ghost function DoTimer(m: Machine): Machine {
    var os := Tick(m.mon.os);
    var later := Later(m.timers, os.now);
    var due := Due(m.timers, os.now);
    var m := m.(timers := later, mon := m.mon.(os := ArmFor(os, later)));
    if !NextArm(os) then m.(alive := false) else
      var m := Expire(m, due);
      if m.alive then Deliver(m) else m
  }

  /** Empty the signal descriptor, then reap. */
  function Collect(mon: Mon): Mon {
    ReapAll(mon.(os := ReadSignals(mon.os)))
  }

  ghost function Step(m: Machine, e: Event): Machine {
    if !m.alive then m else
      match e
      case Submit(spec) => DoSubmit(m, spec)
      case Cancel(j) => DoCancel(m, j)
      case PipeReady(fd) => if fd in m.mon.os.files.open then Deliver(m.(mon := PipeEvent(m.mon, fd))) else m
      case ChildSignal => Deliver(m.(mon := Collect(m.mon)))
      case TimerReady => DoTimer(m)
  }

  /** The kernel before anything ran: only the answer streams and the time are arbitrary. */
  predicate Fresh(os: Os) {
    os.timer.Disarmed? && os.children == map[] && os.groups == map[] && !os.sigchld && os.files == Files(map[], map[], {}) && os.log.Empty?
  }

  function Init(max: nat, os: Os): Machine {
    Machine(max, Mon(map[], map[], map[], [], os), [], {}, map[], 1, 1, true, false)
  }

  ghost function Run(max: nat, os: Os, events: seq<Event>): Machine {
    if events == [] then Init(max, os)
    else Step(Run(max, os, events[..|events| - 1]), events[|events| - 1])
  }

  lemma RunStarts(max: nat, os: Os)
    ensures Run(max, os, []) == Init(max, os)
  {
  }

  lemma RunSteps(max: nat, os: Os, events: seq<Event>, e: Event)
    ensures Run(max, os, events + [e]) == Step(Run(max, os, events), e)
  {
    hide Step;
    assert (events + [e])[..|events|] == events;
  }
}
