/** Job records and the job state machine (src/job.cpp, include/runnerd/job.h). */
module Jobs {

  datatype Option<+T> = None | Some(value: T)

  /** A C++ `char` seen as the number 0..255 it carries on the wire. */
  type Byte = b: int | 0 <= b < 256

  type Bytes = seq<Byte>

  /** `uint64_t` on the wire and in the daemon; the range 1..2^64-1 is an invariant, not a type. */
  type JobId = nat

  const JOB_ID_SPACE: nat := 0x1_0000_0000_0000_0000

  predicate Increasing(q: seq<JobId>) {
    forall x, y | 0 <= x < y < |q| :: q[x] < q[y]
  }

  predicate Distinct(q: seq<JobId>) {
    forall x, y | 0 <= x < y < |q| :: q[x] != q[y]
  }

  lemma IncreasingIsDistinct(q: seq<JobId>)
    requires Increasing(q)
    ensures Distinct(q) && (q != [] ==> Increasing(q[1..]))
  {
  }

  lemma HeadLeaves(q: seq<JobId>)
    requires q != [] && Distinct(q)
    ensures Distinct(q[1..]) && forall j :: j in q[1..] <==> j in q && j != q[0]
  {
    var rest := q[1..];
    assert q == [q[0]] + rest;
    assert forall x | 0 <= x < |rest| :: rest[x] == q[x + 1];
  }

  function Members(q: seq<JobId>): set<JobId> {
    set j | j in q
  }

  datatype JobState =
    | Queued
    | Running
    | Terminating
    | Succeeded
    | Failed
    | Cancelled
    | TimedOut
    | Interrupted

  datatype Cause = CauseCancelled | CauseTimedOut

  /** Timeouts are milliseconds; a negative or zero count is representable and refused by `ValidSpec`. */
  datatype JobSpec = JobSpec(argv: seq<Bytes>, timeout: Option<int>)

  datatype Job = Job(
    id: JobId,
    spec: JobSpec,
    state: JobState,
    pid: Option<int>,
    cause: Option<Cause>,
    exitCode: Option<nat>,
    exitSignal: Option<nat>,
    failed: bool,
    stdout: Bytes,
    stderr: Bytes)

  function NewJob(id: JobId, spec: JobSpec): Job {
    Job(id, spec, Queued, None, None, None, None, false, [], [])
  }

  predicate IsTerminal(s: JobState) {
    s.Succeeded? || s.Failed? || s.Cancelled? || s.TimedOut? || s.Interrupted?
  }

  /** RUNNING or TERMINATING: a child process belongs to the job. */
  predicate IsActive(s: JobState) {
    s.Running? || s.Terminating?
  }

  predicate CanTransition(from: JobState, to: JobState) {
    match from
    case Queued => to.Running? || to.Failed? || to.Cancelled? || to.Interrupted?
    case Running => to.Succeeded? || to.Failed? || to.Terminating? || to.Interrupted?
    case Terminating => to.Cancelled? || to.TimedOut? || to.Interrupted?
    case _ => false
  }

  /** The terminal states are those that nothing follows. */
  lemma TerminalIff(s: JobState)
    ensures IsTerminal(s) <==> forall t :: !CanTransition(s, t)
  {
    assert CanTransition(Queued, Running) && CanTransition(Running, Failed) && CanTransition(Terminating, Cancelled);
  }

  predicate ValidSpec(spec: JobSpec) {
    && spec.argv != []
    && spec.argv[0] != []
    && spec.argv[0][0] == '/' as int
    && (forall i | 0 <= i < |spec.argv| :: 0 !in spec.argv[i])
    && (spec.timeout.Some? ==> spec.timeout.value > 0)
  }

  // ----- what transitions add up to -----

  /** States that can follow, directly or not. */
  predicate Follows(a: JobState, b: JobState) {
    match a
    case Queued => true
    case Running => !b.Queued?
    case Terminating => b.Terminating? || b.Cancelled? || b.TimedOut? || b.Interrupted?
    case _ => b == a
  }

  predicate IsPath(path: seq<JobState>) {
    path != [] && forall i | 0 <= i < |path| - 1 :: CanTransition(path[i], path[i + 1])
  }

  /** `Follows` is what paths of single transitions add up to, and nothing more. */
  lemma {:induction false} PathsFollow(path: seq<JobState>)
    requires IsPath(path)
    ensures Follows(path[0], path[|path| - 1])
    decreases |path|
  {
    if |path| > 1 {
      assert IsPath(path[..|path| - 1]);
      PathsFollow(path[..|path| - 1]);
      assert CanTransition(path[|path| - 2], path[|path| - 1]);
    }
  }

  lemma FollowsIsPath(a: JobState, b: JobState) returns (path: seq<JobState>)
    requires Follows(a, b)
    ensures IsPath(path) && path[0] == a && path[|path| - 1] == b
  {
    if a == b {
      path := [a];
    } else if CanTransition(a, b) {
      path := [a, b];
    } else if a.Running? {
      path := [a, Terminating, b];
    } else if CanTransition(Running, b) {
      path := [a, Running, b];
    } else {
      path := [a, Running, Terminating, b];
    }
  }

  /** How a job may look later: same identity, the first cause, a legal state, and no change once terminal. */
  predicate Evolved(a: Job, b: Job) {
    && a.id == b.id && a.spec == b.spec
    && (a.cause.Some? ==> b.cause == a.cause)
    && (IsTerminal(a.state) ==> b == a)
    && Follows(a.state, b.state)
  }

  ghost predicate Evolves(a: map<JobId, Job>, b: map<JobId, Job>) {
    forall j | j in a :: j in b && Evolved(a[j], b[j])
  }

  lemma EvolvesTransitive(a: map<JobId, Job>, b: map<JobId, Job>, c: map<JobId, Job>)
    requires Evolves(a, b) && Evolves(b, c)
    ensures Evolves(a, c)
  {
    forall j | j in a
      ensures j in c && Evolved(a[j], c[j])
    {
      assert Evolved(a[j], b[j]) && Evolved(b[j], c[j]);
    }
  }
}
