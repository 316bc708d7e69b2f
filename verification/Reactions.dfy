/** What the process monitor does, told by the answers of the kernel alone: which answers it takes, and
    what becomes of the job (src/process_monitor.cpp). */
module Reactions {
  import opened Jobs
  import opened Kernel
  import opened MonitorSpec
  import opened MonitorInvariant
  import opened Machine
  import opened MachineInvariant
  import opened Histories
  import opened Wire
  import opened Requests
  import opened Growth
  import opened Progress
  import opened Deadlines
  import Ledger

  // ----- starting -----

  /** The first three registrations are accepted. */
  predicate AllAccepted(watches: seq<bool>) {
    forall i | 0 <= i < 3 && i < |watches| :: watches[i]
  }

  lemma {:induction false} WatchAllIff(os: Os, n: nat)
    ensures WatchAll(os, n).1 <==> forall i | 0 <= i < n && i < |os.watches| :: os.watches[i]
    decreases n
  {
    if n != 0 && NextWatch(os) {
      WatchAllIff(Watch(os), n - 1);
      assert os.watches != [] ==> forall i | 0 <= i < |os.watches| - 1 :: Watch(os).watches[i] == os.watches[i + 1];
      assert os.watches == [] ==> Watch(os).watches == [];
    }
  }

  /** A start succeeds exactly if a child was launched, its id is not in the index, and three registrations were accepted;
      otherwise the job has failed. */
  lemma StartSucceedsIff(mon: Mon, j: JobId)
    requires j in mon.jobs
    ensures var a, r := NextLaunch(mon.os), Start(mon, j);
      && j in r.jobs
      && (r.jobs[j].state.Running? <==> a.Launched? && a.pid !in mon.byPid && AllAccepted(mon.os.watches))
      && (if r.jobs[j].state.Running? then r.jobs == mon.jobs[j := mon.jobs[j].(state := Running, pid := Some(a.pid))]
          else (r.procs == mon.procs
            && r.jobs == mon.jobs[j := mon.jobs[j].(state := Failed, failed := true, pid := if a.Launched? then Some(a.pid) else mon.jobs[j].pid)]))
  {
    var a := NextLaunch(mon.os);
    hide CanSpawn, WatchAll;
    if a.Launched? {
      WatchAllIff(Forked(mon, j, a).os, 3);
    }
  }

  // ----- reading -----

  predicate GoesOn(a: ReadAnswer) {
    a.Data? || a.ReadInterrupted?
  }

  /** Data and interruptions in any mix, then the end of the file. */
  predicate Ends(s: seq<ReadAnswer>) {
    s != [] && s[|s| - 1].EndOfFile? && forall i | 0 <= i < |s| - 1 :: GoesOn(s[i])
  }

  /** Data and interruptions in any mix, then nothing for now. */
  predicate Blocks(s: seq<ReadAnswer>) {
    s != [] && s[|s| - 1].WouldBlock? && forall i | 0 <= i < |s| - 1 :: GoesOn(s[i])
  }

  function DataOf(s: seq<ReadAnswer>): Bytes {
    if s == [] then [] else (if s[0].Data? then s[0].bytes else []) + DataOf(s[1..])
  }

  function Taken(e: End, s: seq<ReadAnswer>): End
    requires s != []
  {
    if s[|s| - 1].EndOfFile? then End(-1, true, e.bytes + DataOf(s)) else e.(bytes := e.bytes + DataOf(s))
  }

  lemma DrainOnceTakes(mon: Mon, j: JobId, k: Kind)
    requires j in mon.procs
    ensures var r, e := DrainOnce(mon, j, k), mon.procs[j].At(k);
      && r.procs == mon.procs[j := mon.procs[j].Set(k, NextEnd(e, NextRead(mon.os)))]
      && r == mon.(procs := r.procs, os := mon.os.(inputs := Rest(mon.os.inputs), files := r.os.files))
  {
  }

  lemma {:induction false} DrainTakes(mon: Mon, j: JobId, k: Kind, s: seq<ReadAnswer>, rest: seq<ReadAnswer>)
    requires j in mon.procs && mon.os.inputs == s + rest && (Ends(s) || Blocks(s))
    ensures var r := Drain(mon, j, k);
      && r.procs == mon.procs[j := mon.procs[j].Set(k, Taken(mon.procs[j].At(k), s))]
      && r == mon.(procs := r.procs, os := mon.os.(inputs := rest, files := r.os.files))
    decreases |s|
  {
    DrainOnceTakes(mon, j, k);
    DrainUnfolds(mon, j, k);
    ReadsHead(s, rest);
    hide DrainOnce, Drain, Proc.Set, Proc.At, NextEnd, Taken, Ends, Blocks, DataOf;
    var next, e := DrainOnce(mon, j, k), mon.procs[j].At(k);
    SetTwice(mon.procs[j], k, NextEnd(e, s[0]), Taken(e, s));
    if |s| == 1 {
      TakenOnce(e, s);
    } else {
      DrainTakes(next, j, k, s[1..], rest);
      TakenTwice(e, s);
    }
  }

  lemma DrainUnfolds(mon: Mon, j: JobId, k: Kind)
    requires j in mon.procs
    ensures Drain(mon, j, k) == if GoesOn(NextRead(mon.os)) then Drain(DrainOnce(mon, j, k), j, k) else DrainOnce(mon, j, k)
  {
    hide DrainOnce;
  }

  lemma ReadsHead(s: seq<ReadAnswer>, rest: seq<ReadAnswer>)
    requires Ends(s) || Blocks(s)
    ensures s != [] && (s + rest)[0] == s[0] && Rest(s + rest) == s[1..] + rest
    ensures if |s| == 1 then s[1..] + rest == rest && !GoesOn(s[0]) else GoesOn(s[0]) && (Ends(s[1..]) || Blocks(s[1..]))
  {
  }

  lemma TakenOnce(e: End, s: seq<ReadAnswer>)
    requires |s| == 1 && (Ends(s) || Blocks(s))
    ensures Taken(e, s) == NextEnd(e, s[0])
  {
    assert DataOf(s) == [] + DataOf(s[1..]);
    assert s[1..] == [];
    assert e.bytes + [] == e.bytes;
  }

  lemma TakenTwice(e: End, s: seq<ReadAnswer>)
    requires |s| > 1 && GoesOn(s[0])
    ensures Taken(NextEnd(e, s[0]), s[1..]) == Taken(e, s)
  {
    var d := if s[0].Data? then s[0].bytes else [];
    assert (e.bytes + d) + DataOf(s[1..]) == e.bytes + (d + DataOf(s[1..]));
    assert e.bytes + [] == e.bytes;
  }

  lemma SetTwice(p: Proc, k: Kind, e: End, f: End)
    ensures p.Set(k, e).At(k) == e && p.Set(k, e).Set(k, f) == p.Set(k, f)
  {
  }

  /** A readable pipe is read until it would block or ends; whatever came is appended, in order. */
  lemma PipeIsRead(mon: Mon, j: JobId, k: Kind, s: seq<ReadAnswer>, rest: seq<ReadAnswer>)
    requires MonInv(mon) && j in mon.procs && !mon.procs[j].At(k).eof && mon.os.inputs == s + rest && (Ends(s) || Blocks(s))
    ensures var r := PipeEvent(mon, mon.procs[j].At(k).fd); var bytes := mon.procs[j].At(k).bytes + DataOf(s);
      && r.os.inputs == rest
      && (if j in r.procs then (r.procs[j].At(k).bytes == bytes && (r.procs[j].At(k).eof <==> Ends(s)))
          else (j in r.jobs && IsTerminal(r.jobs[j].state)
            && (k.Stdout? ==> r.jobs[j].stdout == bytes) && (k.Stderr? ==> r.jobs[j].stderr == bytes)))
  {
    LiveEnds(mon, j);
    OpenEnd(mon, j, k);
    hide MonInv, Drain, TryFinalize, JobOk, DataOf;
    DrainTakes(mon, j, k, s, rest);
    var d := Drain(mon, j, k);
    SetTwice(mon.procs[j], k, Taken(mon.procs[j].At(k), s), Taken(mon.procs[j].At(k), s));
    if Complete(d.procs[j]) {
      SettledRecord(d, j);
    } else {
      StillOpen(d, j);
    }
  }

  lemma OpenEnd(mon: Mon, j: JobId, k: Kind)
    requires MonInv(mon) && j in mon.procs && !mon.procs[j].At(k).eof
    ensures var fd := mon.procs[j].At(k).fd; fd in mon.os.files.open && mon.os.files.open[fd] == Pipe(j, k, mon.procs[j].pid)
  {
    Live(mon, j);
    assert EndOk(mon.os.files, mon.procs[j].At(k), Pipe(j, k, mon.procs[j].pid));
  }

  lemma StillOpen(mon: Mon, j: JobId)
    requires j in mon.procs && !Complete(mon.procs[j])
    ensures TryFinalize(mon, j) == mon
  {
  }

  // ----- a finished job is not signalled -----

  /** The child's exit is on record, or the next waits report it. */
  predicate HasExited(mon: Mon, j: JobId, n: nat)
    requires j in mon.procs
  {
    mon.procs[j].exited ||
    (mon.procs[j].pid in mon.os.children && n < |mon.os.polls| && mon.os.polls[n].Gone? && forall i | 0 <= i < n :: mon.os.polls[i].PollInterrupted?)
  }

  lemma {:induction false} PollFinds(mon: Mon, j: JobId, n: nat)
    requires j in mon.procs && HasExited(mon, j, n) && !mon.procs[j].exited
    ensures var r, status := PollExit(mon, j), mon.os.polls[n].status;
      && r.procs == mon.procs[j := mon.procs[j].(exited := true, status := status)]
      && r.os.log == Then(mon.os.log, Reaped(mon.os.children[mon.procs[j].pid], status))
      && r == mon.(procs := r.procs, os := r.os) && r.os.inputs == mon.os.inputs && r.os.kills == mon.os.kills
    decreases n
  {
    var next := mon.(os := Poll(mon.os, mon.procs[j].pid));
    if n == 0 {
      assert PollExit(mon, j) == SetExited(next, j, mon.os.polls[0].status);
    } else {
      assert mon.os.polls[0].PollInterrupted?;
      assert forall i | 0 <= i < |mon.os.polls| - 1 :: next.os.polls[i] == mon.os.polls[i + 1];
      PollFinds(next, j, n - 1);
    }
  }

  /** The answers for one pipe: none if it has ended already. */
  predicate Rests(e: End, s: seq<ReadAnswer>) {
    if e.eof then s == [] else Ends(s)
  }

  lemma DrainOpenTakes(mon: Mon, j: JobId, k: Kind, s: seq<ReadAnswer>, rest: seq<ReadAnswer>)
    requires j in mon.procs && mon.os.inputs == s + rest && Rests(mon.procs[j].At(k), s)
    requires mon.procs[j].At(k).fd == -1 <==> mon.procs[j].At(k).eof
    ensures var r := DrainOpen(mon, j, k); var e := mon.procs[j].At(k);
      && r.procs == mon.procs[j := mon.procs[j].Set(k, End(-1, true, e.bytes + DataOf(s)))]
      && r == mon.(procs := r.procs, os := mon.os.(inputs := rest, files := r.os.files))
  {
    var e := mon.procs[j].At(k);
    if e.eof {
      assert e.bytes + [] == e.bytes && s + rest == rest;
      assert mon.procs[j].Set(k, e) == mon.procs[j] && mon.procs[j := mon.procs[j]] == mon.procs;
      assert e == End(-1, true, e.bytes + DataOf(s));
    } else {
      DrainTakes(mon, j, k, s, rest);
    }
  }

  /** Everything a finished process still delivers. */
  predicate Delivers(mon: Mon, j: JobId, out: seq<ReadAnswer>, err: seq<ReadAnswer>, startup: seq<ReadAnswer>, rest: seq<ReadAnswer>)
    requires j in mon.procs
  {
    && mon.os.inputs == out + (err + (startup + rest))
    && Rests(mon.procs[j].out, out) && Rests(mon.procs[j].err, err) && Rests(mon.procs[j].startup, startup)
  }

  predicate Closed(e: End) {
    e.fd == -1 <==> e.eof
  }

  lemma PipesAreRead(mon: Mon, j: JobId, out: seq<ReadAnswer>, err: seq<ReadAnswer>, startup: seq<ReadAnswer>, rest: seq<ReadAnswer>)
    requires j in mon.procs && Delivers(mon, j, out, err, startup, rest)
    requires Closed(mon.procs[j].out) && Closed(mon.procs[j].err) && Closed(mon.procs[j].startup)
    ensures var r := DrainOpen(DrainOpen(DrainOpen(mon, j, Stdout), j, Stderr), j, StartupError); var p := mon.procs[j];
      && r.procs == mon.procs[j := Drained(p, out, err, startup)]
      && r == mon.(procs := r.procs, os := mon.os.(inputs := rest, files := r.os.files))
  {
    hide DrainOpen;
    DrainOpenTakes(mon, j, Stdout, out, err + (startup + rest));
    var m1 := DrainOpen(mon, j, Stdout);
    DrainOpenTakes(m1, j, Stderr, err, startup + rest);
    var m2 := DrainOpen(m1, j, Stderr);
    DrainOpenTakes(m2, j, StartupError, startup, rest);
  }

  function Drained(p: Proc, out: seq<ReadAnswer>, err: seq<ReadAnswer>, startup: seq<ReadAnswer>): Proc {
    p.(out := End(-1, true, p.out.bytes + DataOf(out)),
       err := End(-1, true, p.err.bytes + DataOf(err)),
       startup := End(-1, true, p.startup.bytes + DataOf(startup)))
  }

  /** The record of a job that settles keeps the bytes of its pipes and takes a state that fits the one it was in. */
  lemma SettledRecord(mon: Mon, j: JobId)
    requires j in mon.procs && j in mon.jobs && Complete(mon.procs[j]) && JobOk(mon.jobs[j]) && IsActive(mon.jobs[j].state)
    ensures var r, p := TryFinalize(mon, j), mon.procs[j];
      && j !in r.procs && j in r.jobs && r.os == Note(mon.os, Settled(j))
      && r.jobs[j].stdout == p.out.bytes && r.jobs[j].stderr == p.err.bytes
      && (mon.jobs[j].state.Running? ==> r.jobs[j].state.Succeeded? || r.jobs[j].state.Failed?)
      && (mon.jobs[j].state.Terminating? ==> r.jobs[j].state.Cancelled? || r.jobs[j].state.TimedOut?)
  {
  }

  /** The exit is known and all pipes end: the job settles with all its output, and the kernel is asked for no signal. */
  lemma FinishSettles(mon: Mon, j: JobId, n: nat, out: seq<ReadAnswer>, err: seq<ReadAnswer>, startup: seq<ReadAnswer>, rest: seq<ReadAnswer>)
    requires MonInv(mon) && j in mon.procs && HasExited(mon, j, n) && Delivers(mon, j, out, err, startup, rest)
    ensures var r := FinishExited(mon, j); var p := mon.procs[j];
      && j !in r.procs && j in mon.jobs && j in r.jobs && r.os.kills == mon.os.kills
      && r.jobs[j].stdout == p.out.bytes + DataOf(out) && r.jobs[j].stderr == p.err.bytes + DataOf(err)
      && (mon.jobs[j].state.Running? ==> r.jobs[j].state.Succeeded? || r.jobs[j].state.Failed?)
      && (mon.jobs[j].state.Terminating? ==> r.jobs[j].state.Cancelled? || r.jobs[j].state.TimedOut?)
      && (if p.exited then r.os.log == Then(mon.os.log, Settled(j))
          else r.os.log == Then(Then(mon.os.log, Reaped(mon.os.children[p.pid], mon.os.polls[n].status)), Settled(j)))
  {
    LiveEnds(mon, j);
    hide MonInv, JobOk, HasExited, FinishExited, Delivers, PollExit;
    var p := mon.procs[j];
    var m0 := PollExit(mon, j);
    if !p.exited {
      PollFinds(mon, j, n);
    } else {
      RecordedPoll(mon, j);
    }
    PolledDelivers(mon, m0, j, out, err, startup, rest);
    RecordedFinish(mon, m0, j, out, err, startup, rest);
  }

  lemma LiveEnds(mon: Mon, j: JobId)
    requires MonInv(mon) && j in mon.procs
    ensures j in mon.jobs && IsActive(mon.jobs[j].state) && JobOk(mon.jobs[j])
    ensures Closed(mon.procs[j].out) && Closed(mon.procs[j].err) && Closed(mon.procs[j].startup)
  {
    Live(mon, j);
    EofIsClosed(mon, j, Stdout);
    EofIsClosed(mon, j, Stderr);
    EofIsClosed(mon, j, StartupError);
  }

  lemma PolledDelivers(mon: Mon, m0: Mon, j: JobId, out: seq<ReadAnswer>, err: seq<ReadAnswer>, startup: seq<ReadAnswer>, rest: seq<ReadAnswer>)
    requires j in mon.procs && Delivers(mon, j, out, err, startup, rest) && m0.os.inputs == mon.os.inputs
    requires j in m0.procs && m0.procs[j] == mon.procs[j].(exited := true, status := m0.procs[j].status)
    ensures Delivers(m0, j, out, err, startup, rest)
  {
  }

  lemma RecordedFinish(mon: Mon, m0: Mon, j: JobId, out: seq<ReadAnswer>, err: seq<ReadAnswer>, startup: seq<ReadAnswer>, rest: seq<ReadAnswer>)
    requires j in mon.procs && m0 == PollExit(mon, j) && m0.procs[j].exited && Delivers(m0, j, out, err, startup, rest)
    requires Closed(m0.procs[j].out) && Closed(m0.procs[j].err) && Closed(m0.procs[j].startup)
    requires j in m0.jobs && JobOk(m0.jobs[j]) && IsActive(m0.jobs[j].state)
    ensures var r, p := FinishExited(mon, j), m0.procs[j];
      && j !in r.procs && j in r.jobs && r.os.kills == m0.os.kills && r.os.log == Then(m0.os.log, Settled(j))
      && r.jobs[j].stdout == p.out.bytes + DataOf(out) && r.jobs[j].stderr == p.err.bytes + DataOf(err)
      && (m0.jobs[j].state.Running? ==> r.jobs[j].state.Succeeded? || r.jobs[j].state.Failed?)
      && (m0.jobs[j].state.Terminating? ==> r.jobs[j].state.Cancelled? || r.jobs[j].state.TimedOut?)
  {
    hide PollExit, DrainOpen, JobOk, TryFinalize;
    PipesAreRead(m0, j, out, err, startup, rest);
    SettledRecord(DrainOpen(DrainOpen(DrainOpen(m0, j, Stdout), j, Stderr), j, StartupError), j);
  }

  lemma RecordedPoll(mon: Mon, j: JobId)
    requires j in mon.procs && mon.procs[j].exited
    ensures PollExit(mon, j) == mon
  {
  }

  /** Natural exit wins: a job whose exit is known and whose pipes end is settled and gets no signal, neither SIGTERM nor SIGKILL. */
  lemma FinishedIsNotSignalled(mon: Mon, j: JobId, cause: Cause, reason: Reason, n: nat, out: seq<ReadAnswer>, err: seq<ReadAnswer>, startup: seq<ReadAnswer>, rest: seq<ReadAnswer>)
    requires MonInv(mon) && j in mon.procs && HasExited(mon, j, n) && Delivers(mon, j, out, err, startup, rest)
    ensures forall r | r == RequestTerminate(mon, j, cause) || r == ForceKill(mon, j, reason) ::
      && r.1.Vanished? && j !in r.0.procs && j in r.0.jobs && r.0.os.kills == mon.os.kills
      && r.0.jobs[j].stdout == mon.procs[j].out.bytes + DataOf(out) && r.0.jobs[j].stderr == mon.procs[j].err.bytes + DataOf(err)
      && j in mon.jobs && (mon.jobs[j].state.Running? ==> r.0.jobs[j].state.Succeeded? || r.0.jobs[j].state.Failed?)
      && (mon.jobs[j].state.Terminating? ==> r.0.jobs[j].state.Cancelled? || r.0.jobs[j].state.TimedOut?)
  {
    hide MonInv, FinishExited, Delivers;
    FinishSettles(mon, j, n, out, err, startup, rest);
  }

  /** ... and CANCEL says so. */
  lemma FinishedIsNotCancelled(m: Machine, j: JobId, n: nat, out: seq<ReadAnswer>, err: seq<ReadAnswer>, startup: seq<ReadAnswer>, rest: seq<ReadAnswer>)
    requires Inv(m) && m.alive && j in m.mon.procs && j in m.mon.jobs && m.mon.jobs[j].state.Running?
    requires HasExited(m.mon, j, n) && Delivers(m.mon, j, out, err, startup, rest)
    ensures CancelReply(m, j) == Reply(Ascii("ERR job process already exited; retry status"))
    ensures var r := Step(m, Cancel(j)).mon; var p := m.mon.procs[j];
      && j in r.jobs && (r.jobs[j].state.Succeeded? || r.jobs[j].state.Failed?) && r.os.kills == m.mon.os.kills
      && r.jobs[j].stdout == p.out.bytes + DataOf(out) && r.jobs[j].stderr == p.err.bytes + DataOf(err)
  {
    hide MonInv, QueueOk, SlotsOk, TimersOk, BooksOk, RequestTerminate, ScheduleForceKill, HasExited, Delivers;
    FinishedIsNotSignalled(m.mon, j, CauseCancelled, OnGrace, n, out, err, startup, rest);
  }

  // ----- an unfinished job is signalled -----

  /** The waits say that the child still runs, the signal calls are interrupted some times and then answered. */
  predicate StillRuns(mon: Mon, j: JobId, n: nat)
    requires j in mon.procs
  {
    && !mon.procs[j].exited && mon.procs[j].pid in mon.os.children
    && n < |mon.os.polls| && mon.os.polls[n].StillRunning? && forall i | 0 <= i < n :: mon.os.polls[i].PollInterrupted?
  }

  predicate AnswersKill(kills: seq<KillAnswer>, n: nat) {
    n < |kills| && !kills[n].KillInterrupted? && forall i | 0 <= i < n :: kills[i].KillInterrupted?
  }

  lemma {:induction false} PollFindsNothing(mon: Mon, j: JobId, n: nat)
    requires j in mon.procs && StillRuns(mon, j, n)
    ensures var r := PollExit(mon, j); r.procs == mon.procs && r == mon.(os := mon.os.(polls := r.os.polls))
    decreases n
  {
    var next := mon.(os := Poll(mon.os, mon.procs[j].pid));
    if n > 0 {
      assert mon.os.polls[0].PollInterrupted?;
      assert forall i | 0 <= i < |mon.os.polls| - 1 :: next.os.polls[i] == mon.os.polls[i + 1];
      PollFindsNothing(next, j, n - 1);
    }
  }

  lemma {:induction false} KillIsAnswered(os: Os, pid: Pid, j: JobId, signal: Signal, reason: Reason, n: nat)
    requires AnswersKill(os.kills, n)
    ensures var (r, a) := KillGroup(os, pid, j, signal, reason);
      && a == os.kills[n] && r.kills == os.kills[n + 1..] && r.arms == os.arms
      && r.log.Then? && r.log.last.Signalled? && r.log.last.job == j && r.log.last.signal == signal && r.log.last.answer == a
    decreases n
  {
    if n > 0 {
      assert os.kills[0].KillInterrupted?;
      var next := KillOnce(os, pid, j, signal, reason);
      assert next.kills == os.kills[1..];
      KillIsAnswered(next, pid, j, signal, reason, n - 1);
      assert os.kills[1..][n..] == os.kills[n + 1..];
    }
  }

  /** A job whose child still runs is signalled, however often the calls are interrupted: it is TERMINATING exactly if SIGTERM
      was sent, and a refusal or a vanished group leaves it RUNNING. */
  lemma RunningIsSignalled(mon: Mon, j: JobId, cause: Cause, n: nat, k: nat)
    requires j in mon.procs && j in mon.jobs && StillRuns(mon, j, n) && AnswersKill(mon.os.kills, k)
    ensures var (r, a) := RequestTerminate(mon, j, cause); var answer := mon.os.kills[k];
      && r.os.kills == mon.os.kills[k + 1..] && r.os.arms == mon.os.arms
      && r.os.log.Then? && r.os.log.last.Signalled? && r.os.log.last.job == j && r.os.log.last.signal.SigTerm? && r.os.log.last.answer == answer
      && (answer.Sent? ==> a.Delivered? && r.jobs == mon.jobs[j := mon.jobs[j].(state := Terminating, cause := Some(cause))])
      && (answer.NoGroup? ==> a.Vanished? && r.jobs == mon.jobs)
      && (answer.Denied? ==> a.Rejected? && r.jobs == mon.jobs)
  {
    hide KillGroup, PollExit;
    PollFindsNothing(mon, j, n);
    KillIsAnswered(PollExit(mon, j).os, mon.procs[j].pid, j, SigTerm, ReasonOf(cause), k);
  }

  /** The grace deadline is set if the generations are not used up and the timer can be set. */
  lemma GraceIsSet(m: Machine, j: JobId)
    requires m.generation != 0 && NextArm(m.mon.os)
    ensures var (r, ok) := ScheduleForceKill(m, j); ok && j in r.timers && r.mon.jobs == m.mon.jobs
  {
    hide TimerFor;
  }

  /** CANCEL of a job whose child still runs. */
  lemma RunningIsCancelled(m: Machine, j: JobId, n: nat, k: nat)
    requires Inv(m) && m.alive && j in m.mon.jobs && m.mon.jobs[j].state.Running? && j in m.mon.procs
    requires StillRuns(m.mon, j, n) && AnswersKill(m.mon.os.kills, k)
    ensures var r := Step(m, Cancel(j)); var answer := m.mon.os.kills[k];
      && (answer.Sent? && m.generation != 0 && NextArm(m.mon.os) ==>
            && CancelReply(m, j) == Reply(Ascii("OK terminating"))
            && j in r.mon.jobs && r.mon.jobs[j].state.Terminating? && r.mon.jobs[j].cause == Some(CauseCancelled)
            && j in r.timers && m.mon.os.now + 1_000_000_000 <= r.timers[j] <= r.mon.os.now + 1_000_000_000)
      && (answer.NoGroup? ==> CancelReply(m, j) == Reply(Ascii("ERR job process already exited; retry status")) && r.mon.jobs == m.mon.jobs)
      && (answer.Denied? ==> CancelReply(m, j) == Reply(Ascii("ERR failed to send SIGTERM: ")) && r.mon.jobs == m.mon.jobs)
  {
    hide Inv, ScheduleForceKill, Ascii, Advances, Terminate;
    RunningIsTerminated(m, j, n, k);
    if m.mon.os.kills[k].Sent? && m.generation != 0 && NextArm(m.mon.os) {
      CancelAdvances(m, j);
      NewGrace(m, Step(m, Cancel(j)), j);
    }
  }

  lemma RunningIsTerminated(m: Machine, j: JobId, n: nat, k: nat)
    requires j in m.mon.jobs && j in m.mon.procs && StillRuns(m.mon, j, n) && AnswersKill(m.mon.os.kills, k)
    ensures var (r, a, ok) := Terminate(m, j, CauseCancelled); var answer := m.mon.os.kills[k];
      && (answer.Sent? && m.generation != 0 && NextArm(m.mon.os) ==>
            a.Delivered? && ok && j in r.timers && j in r.mon.jobs && r.mon.jobs[j].state.Terminating? && r.mon.jobs[j].cause == Some(CauseCancelled))
      && (answer.NoGroup? ==> a.Vanished? && r.mon.jobs == m.mon.jobs)
      && (answer.Denied? ==> a.Rejected? && r.mon.jobs == m.mon.jobs)
  {
    RunningIsSignalled(m.mon, j, CauseCancelled, n, k);
    hide RequestTerminate, ScheduleForceKill, StillRuns;
    var (mon, a) := RequestTerminate(m.mon, j, CauseCancelled);
    if m.generation != 0 && NextArm(m.mon.os) && m.mon.os.kills[k].Sent? {
      assert NextArm(mon.os);
      GraceIsSet(m.(mon := mon), j);
    }
  }

  lemma NewGrace(a: Machine, b: Machine, j: JobId)
    requires Advances(a, b) && j in a.mon.jobs && a.mon.jobs[j].state.Running?
    requires j in b.mon.jobs && b.mon.jobs[j].state.Terminating? && j in b.timers
    ensures a.mon.os.now + 1_000_000_000 <= b.timers[j] <= b.mon.os.now + 1_000_000_000
  {
    hide Evolves, Watched;
    assert OldDeadline(a, b, j) || NewDeadline(a, b, j);
  }

  lemma RunningIsKilled(mon: Mon, j: JobId, reason: Reason, n: nat, k: nat)
    requires j in mon.procs && j in mon.jobs && StillRuns(mon, j, n) && AnswersKill(mon.os.kills, k)
    ensures var (r, a) := ForceKill(mon, j, reason); var answer := mon.os.kills[k];
      && r.os.kills == mon.os.kills[k + 1..] && r.jobs == mon.jobs
      && r.os.log.Then? && r.os.log.last.Signalled? && r.os.log.last.job == j && r.os.log.last.signal.SigKill? && r.os.log.last.answer == answer
      && (answer.Sent? <==> a.Delivered?) && (answer.NoGroup? <==> a.Vanished?) && (answer.Denied? <==> a.Rejected?)
  {
    hide KillGroup, PollExit;
    PollFindsNothing(mon, j, n);
    KillIsAnswered(PollExit(mon, j).os, mon.procs[j].pid, j, SigKill, reason, k);
  }

  // ----- SIGCHLD -----

  /** The first n answers tell of children that can be waited for, each once; some calls are interrupted. */
  predicate Reports(os: Os, n: nat) {
    && n <= |os.reaps|
    && (forall i | 0 <= i < n :: os.reaps[i].ReapInterrupted? || (os.reaps[i].Child? && os.reaps[i].pid in os.children))
    && (forall i, k | 0 <= i < k < n && os.reaps[i].Child? && os.reaps[k].Child? :: os.reaps[i].pid != os.reaps[k].pid)
  }

  predicate PipesEnded(p: Proc) {
    p.out.eof && p.err.eof && p.startup.eof
  }

  /** What becomes of job `j` and its child `pid` whose status was handed out: nobody waits for it any more; if the
      process id is in the index, the job has settled or, with pipes still open, carries the status. */
  ghost predicate Collected(a: Mon, b: Mon, pid: Pid, j: JobId, status: WaitStatus) {
    && Reaped(j, status) in Trace(b.os.log)
    && pid !in b.os.children
    && (pid in a.byPid && j in a.procs ==>
          if PipesEnded(a.procs[j]) then (j !in b.procs && j in b.jobs && IsTerminal(b.jobs[j].state) && Settled(j) in Trace(b.os.log))
          else (j in b.procs && b.procs[j] == a.procs[j].(exited := true, status := status)))
  }

  lemma ReapOnceIs(mon: Mon)
    requires MonInv(mon) && mon.os.reaps != [] && mon.os.reaps[0].Child? && mon.os.reaps[0].pid in mon.os.children
    ensures var r, pid, status := ReapOnce(mon), mon.os.reaps[0].pid, mon.os.reaps[0].status; var j := mon.os.children[pid];
      && r.os.reaps == mon.os.reaps[1..] && r.os.children == mon.os.children - {pid}
      && (r.os.log == Then(mon.os.log, Reaped(j, status)) || r.os.log == Then(Then(mon.os.log, Reaped(j, status)), Settled(j)))
      && (forall i | i != j :: (i in r.procs <==> i in mon.procs) && (i in mon.procs ==> r.procs[i] == mon.procs[i]))
      && (forall i | i != pid :: i in r.byPid <==> i in mon.byPid)
      && j in mon.procs && mon.procs[j].pid == pid && !mon.procs[j].exited
      && (pid in mon.byPid ==>
            if PipesEnded(mon.procs[j]) then (j !in r.procs && j in r.jobs && IsTerminal(r.jobs[j].state) && r.os.log.last == Settled(j))
            else (j in r.procs && r.procs[j] == mon.procs[j].(exited := true, status := status)))
  {
    var pid, status := mon.os.reaps[0].pid, mon.os.reaps[0].status;
    ChildOf(mon, pid);
    hide MonInv;
    ReapIs(mon.os);
    var j := mon.os.children[pid];
    if pid in mon.byPid {
      var next := mon.(os := Reap(mon.os));
      IndexedIs(mon, j);
      hide ReapOnce, Reap, JobOk;
      MarkedIs(next, j, status);
    } else {
      hide Reap, JobOk;
      assert ReapOnce(mon) == mon.(os := Reap(mon.os));
    }
  }

  lemma IndexedIs(mon: Mon, j: JobId)
    requires mon.os.reaps != [] && mon.os.reaps[0].Child? && mon.os.reaps[0].pid in mon.os.children && j in mon.procs
    requires mon.os.reaps[0].pid in mon.byPid && mon.byPid[mon.os.reaps[0].pid] == j
    ensures ReapOnce(mon) == TryFinalize(SetExited(mon.(os := Reap(mon.os)), j, mon.os.reaps[0].status), j)
  {
    hide TryFinalize, Reap;
  }

  lemma MarkedIs(mon: Mon, j: JobId, status: WaitStatus)
    requires j in mon.procs && j in mon.jobs && JobOk(mon.jobs[j]) && IsActive(mon.jobs[j].state)
    ensures var r := TryFinalize(SetExited(mon, j, status), j);
      && (forall i | i != j :: (i in r.procs <==> i in mon.procs) && (i in mon.procs ==> r.procs[i] == mon.procs[i]))
      && (forall i | i != mon.procs[j].pid :: i in r.byPid <==> i in mon.byPid)
      && if PipesEnded(mon.procs[j]) then (j !in r.procs && j in r.jobs && IsTerminal(r.jobs[j].state) && r.os == Note(mon.os, Settled(j)))
         else (j in r.procs && r.procs[j] == mon.procs[j].(exited := true, status := status) && r.os == mon.os)
  {
    hide TryFinalize, JobOk;
    FinalizeIs(SetExited(mon, j, status), j);
  }

  lemma ReapIs(os: Os)
    requires os.reaps != [] && os.reaps[0].Child? && os.reaps[0].pid in os.children
    ensures var r, pid := Reap(os), os.reaps[0].pid;
      && r.reaps == os.reaps[1..] && r.children == os.children - {pid}
      && r.log == Then(os.log, Reaped(os.children[pid], os.reaps[0].status))
  {
  }

  lemma FinalizeIs(mon: Mon, j: JobId)
    requires j in mon.procs && j in mon.jobs && JobOk(mon.jobs[j]) && IsActive(mon.jobs[j].state)
    ensures var r := TryFinalize(mon, j);
      if Complete(mon.procs[j]) then
        (r.procs == mon.procs - {j} && r.byPid == mon.byPid - {mon.procs[j].pid} && r.os == Note(mon.os, Settled(j))
         && j in r.jobs && IsTerminal(r.jobs[j].state))
      else r == mon
  {
    hide Result;
    ResultIsTerminal(mon.jobs[j], mon.procs[j]);
  }

  lemma ResultIsTerminal(job: Job, p: Proc)
    ensures IsTerminal(Result(job, p).state)
  {
  }

  lemma ChildOf(mon: Mon, pid: Pid)
    requires MonInv(mon) && pid in mon.os.children
    ensures var j := mon.os.children[pid];
      && j in mon.procs && mon.procs[j].pid == pid && !mon.procs[j].exited
      && j in mon.jobs && IsActive(mon.jobs[j].state) && JobOk(mon.jobs[j])
      && (pid in mon.byPid ==> mon.byPid[pid] == j)
  {
    hide TableOk, PipesOk, IdsOk, OutputOk, StatusOk, LedgerOk, LogOk, NoneComplete;
    Live(mon, mon.os.children[pid]);
  }

  /** The rest of the collection leaves a process alone whose child is no longer waited for, and what settled stays. */
  lemma {:induction false} ReapAllLeaves(mon: Mon, j: JobId, pid: Pid)
    requires MonInv(mon)
    ensures var r := ReapAll(mon);
      && (j in mon.procs && mon.procs[j].exited ==> j in r.procs && r.procs[j] == mon.procs[j])
      && (j in mon.jobs && IsTerminal(mon.jobs[j].state) ==> j !in r.procs && j in r.jobs && IsTerminal(r.jobs[j].state))
      && (pid !in mon.os.children ==> pid !in r.os.children)
      && forall x | x in Trace(mon.os.log) :: x in Trace(r.os.log)
    decreases |mon.os.reaps|
  {
    ReapOnceLeaves(mon, j, pid);
    ReapOnceKeeps(mon);
    hide MonInv, ReapOnce, Quiet;
    if !NextReap(mon.os).NoneReady? {
      ReapOnceGets(mon);
      ReapAllLeaves(ReapOnce(mon), j, pid);
    }
  }

  lemma ReapOnceGets(mon: Mon)
    ensures mon.os.reaps != [] ==> |ReapOnce(mon).os.reaps| < |mon.os.reaps|
  {
  }

  lemma ReapOnceLeaves(mon: Mon, j: JobId, pid: Pid)
    requires MonInv(mon)
    ensures var r := ReapOnce(mon);
      && (j in mon.procs && mon.procs[j].exited ==> j in r.procs && r.procs[j] == mon.procs[j])
      && (j in mon.jobs && IsTerminal(mon.jobs[j].state) ==> j !in r.procs && j in r.jobs && IsTerminal(r.jobs[j].state))
      && (pid !in mon.os.children ==> pid !in r.os.children)
      && forall x | x in Trace(mon.os.log) :: x in Trace(r.os.log)
  {
    ReapOnceGrows(mon);
    ExtendsIsPrefix(mon.os.log, ReapOnce(mon).os.log);
    RecordsStay(mon.os.log, ReapOnce(mon).os.log);
    ReapOnceKeeps(mon);
    ReapOnceTouches(mon, j);
    if j in mon.jobs {
      TerminalIsGone(mon, j);
      TerminalIsGone(ReapOnce(mon), j);
    }
    hide MonInv, ReapOnce;
  }

  lemma RecordsStay(a: Log, b: Log)
    requires Trace(a) <= Trace(b)
    ensures forall x | x in Trace(a) :: x in Trace(b)
  {
    assert forall i | 0 <= i < |Trace(a)| :: Trace(a)[i] == Trace(b)[i];
  }

  lemma TerminalIsGone(mon: Mon, j: JobId)
    requires MonInv(mon) && j in mon.jobs
    ensures IsTerminal(mon.jobs[j].state) ==> j !in mon.procs
  {
    hide NoneComplete;
    Known(mon, j);
  }

  lemma ReapOnceTouches(mon: Mon, j: JobId)
    requires MonInv(mon)
    ensures var r := ReapOnce(mon);
      && (j in mon.procs && mon.procs[j].exited ==> j in r.procs && r.procs[j] == mon.procs[j])
      && (forall pid | pid !in mon.os.children :: pid !in r.os.children)
  {
    var a := NextReap(mon.os);
    if a.Child? {
      ChildOf(mon, a.pid);
      ReapIs(mon.os);
      hide MonInv;
      if a.pid in mon.byPid {
        IndexedIs(mon, mon.byPid[a.pid]);
        hide ReapOnce, TryFinalize, Reap;
        FinalizeIs(SetExited(mon.(os := Reap(mon.os)), mon.byPid[a.pid], a.status), mon.byPid[a.pid]);
      }
    }
  }

  lemma ReportsRest(a: Os, b: Os, n: nat)
    requires Reports(a, n) && n > 0 && b.reaps == a.reaps[1..]
    requires b.children == if a.reaps[0].Child? then a.children - {a.reaps[0].pid} else a.children
    ensures Reports(b, n - 1)
  {
    assert forall k | 0 <= k < n - 1 :: b.reaps[k] == a.reaps[k + 1];
  }

  /** SIGCHLD collects every exit the kernel reports: of the first n answers, each that tells of a child is handed to its job. */
  lemma {:induction false} CollectsAll(mon: Mon, n: nat, i: nat)
    requires MonInv(mon) && Reports(mon.os, n) && i < n && mon.os.reaps[i].Child?
    ensures var pid := mon.os.reaps[i].pid; Collected(mon, ReapAll(mon), pid, mon.os.children[pid], mon.os.reaps[i].status)
    decreases n
  {
    hide MonInv, Quiet, ReapOnce, Collected;
    var a, r := mon.os.reaps[0], ReapOnce(mon);
    var pid := mon.os.reaps[i].pid;
    ReapOnceKeeps(mon);
    if a.ReapInterrupted? {
      InterruptedIs(mon);
      ReportsRest(mon.os, r.os, n);
      CollectsAll(r, n - 1, i - 1);
    } else {
      assert a.pid in mon.os.children;
      ReapOnceIs(mon);
      ReportsRest(mon.os, r.os, n);
      if i == 0 {
        CollectsFirst(mon);
      } else {
        CollectsAll(r, n - 1, i - 1);
        CollectedLater(mon, i);
      }
    }
  }

  lemma InterruptedIs(mon: Mon)
    requires mon.os.reaps != [] && mon.os.reaps[0].ReapInterrupted?
    ensures ReapOnce(mon) == mon.(os := mon.os.(reaps := mon.os.reaps[1..])) && ReapAll(mon) == ReapAll(ReapOnce(mon))
    ensures forall pid, j, status, b :: Collected(ReapOnce(mon), b, pid, j, status) ==> Collected(mon, b, pid, j, status)
  {
  }

  lemma CollectsFirst(mon: Mon)
    requires MonInv(mon) && mon.os.reaps != [] && mon.os.reaps[0].Child? && mon.os.reaps[0].pid in mon.os.children
    ensures var pid := mon.os.reaps[0].pid; Collected(mon, ReapAll(mon), pid, mon.os.children[pid], mon.os.reaps[0].status)
  {
    hide MonInv, Quiet, ReapOnce, Ascii;
    var r, pid := ReapOnce(mon), mon.os.reaps[0].pid;
    var j := mon.os.children[pid];
    ReapOnceKeeps(mon);
    ReapOnceIs(mon);
    ReapAllLeaves(r, j, pid);
    assert Reaped(j, mon.os.reaps[0].status) in Trace(r.os.log);
    assert r.os.log.last in Trace(r.os.log);
    assert ReapAll(mon) == ReapAll(r);
  }

  lemma CollectedLater(mon: Mon, i: nat)
    requires MonInv(mon) && 0 < i < |mon.os.reaps| && mon.os.reaps[i].Child? && mon.os.reaps[i].pid in mon.os.children
    requires mon.os.reaps[0].Child? && mon.os.reaps[0].pid in mon.os.children && mon.os.reaps[0].pid != mon.os.reaps[i].pid
    requires var pid := mon.os.reaps[i].pid; Collected(ReapOnce(mon), ReapAll(ReapOnce(mon)), pid, mon.os.children[pid], mon.os.reaps[i].status)
    ensures var pid := mon.os.reaps[i].pid; Collected(mon, ReapAll(mon), pid, mon.os.children[pid], mon.os.reaps[i].status)
  {
    ReapOnceIs(mon);
    ChildOf(mon, mon.os.reaps[0].pid);
    ChildOf(mon, mon.os.reaps[i].pid);
    hide MonInv, Quiet, ReapOnce;
    assert ReapAll(mon) == ReapAll(ReapOnce(mon));
  }

  // ----- the same for the whole event -----

  lemma StartLeaves(mon: Mon, i: JobId)
    requires i in mon.jobs && i !in mon.procs
    ensures forall j | j in mon.procs :: j in Start(mon, i).procs && Start(mon, i).procs[j] == mon.procs[j]
  {
    hide WatchAll, CanSpawn;
  }

  /** Filling free slots does nothing to the processes already there. */
  lemma {:induction false} PumpLeaves(m: Machine)
    requires Inv(m)
    ensures forall j | j in m.mon.procs :: j in Pump(m).0.mon.procs && Pump(m).0.mon.procs[j] == m.mon.procs[j]
    decreases |m.waiting|
  {
    if CanPump(m) {
      HeadIsFree(m);
      hide Inv, PumpOnce;
      PumpOnceLeaves(m);
      PumpOnceKeeps(m);
      if PumpOnce(m).1 {
        PumpLeaves(PumpOnce(m).0);
      }
    }
  }

  lemma PumpOnceLeaves(m: Machine)
    requires CanPump(m) && m.waiting[0] !in m.mon.procs
    ensures forall j | j in m.mon.procs :: j in PumpOnce(m).0.mon.procs && PumpOnce(m).0.mon.procs[j] == m.mon.procs[j]
  {
    var j := m.waiting[0];
    var t := Take(m).(mon := Start(Take(m).mon, j));
    StartLeaves(Take(m).mon, j);
    hide Start, Schedule;
    if t.mon.jobs[j].spec.timeout.Some? {
      ScheduleProcs(t, j, t.mon.jobs[j].spec.timeout.value);
    }
  }

  lemma ScheduleProcs(m: Machine, j: JobId, ms: int)
    ensures Schedule(m, j, ms).0.mon.procs == m.mon.procs
  {
  }

  lemma {:induction false} DeliverLeaves(m: Machine)
    requires Inv(m)
    ensures forall j | j in m.mon.procs :: j in Deliver(m).mon.procs && Deliver(m).mon.procs[j] == m.mon.procs[j]
    decreases |m.mon.pending|
  {
    if m.mon.pending != [] {
      RetireKeeps(m);
      RetireShrinks(m);
      PumpKeeps(Retire(m));
      PumpLeaves(Retire(m));
      hide Inv, Pump;
      assert Retire(m).mon.procs == m.mon.procs;
      if Pump(Retire(m)).1 {
        DeliverLeaves(Pump(Retire(m)).0);
      }
    }
  }

  /** A slot whose job has settled is free again when the daemon goes back to wait. */
  lemma DeliverFrees(m: Machine, j: JobId)
    requires Inv(m) && j in m.mon.jobs && IsTerminal(m.mon.jobs[j].state)
    ensures var r := Deliver(m);
      && j in r.mon.jobs && r.mon.jobs[j] == m.mon.jobs[j] && j !in r.mon.procs && (r.alive ==> j !in r.slots)
  {
    DeliverKeeps(m);
    DeliverAdvances(m);
    var r := Deliver(m);
    assert Evolved(m.mon.jobs[j], r.mon.jobs[j]);
    TerminalIsGone(r.mon, j);
    hide MonInv, QueueOk, TimersOk, BooksOk, Covered, Saturated;
  }

  /** A SIGCHLD event, however many exits are merged in it: each child the kernel reports is handed to its job.  A job in
      the index whose pipes have ended is settled and has given up its slot; one that is still being read carries the status. */
  lemma SigchldCollects(m: Machine, n: nat, i: nat)
    requires Inv(m) && m.alive && Reports(m.mon.os, n) && i < n && m.mon.os.reaps[i].Child?
    ensures var r := Step(m, ChildSignal); var pid, status := m.mon.os.reaps[i].pid, m.mon.os.reaps[i].status; var j := m.mon.os.children[pid];
      && Reaped(j, status) in Trace(r.mon.os.log)
      && j in m.mon.procs
      && (pid in m.mon.byPid && PipesEnded(m.mon.procs[j]) ==>
            Settled(j) in Trace(r.mon.os.log) && j in r.mon.jobs && IsTerminal(r.mon.jobs[j].state) && (r.alive ==> j !in r.slots))
      && (pid in m.mon.byPid && !PipesEnded(m.mon.procs[j]) ==>
            j in r.mon.procs && r.mon.procs[j] == m.mon.procs[j].(exited := true, status := status))
  {
    SignalIsDelivered(m);
    hide *;
    ReportedChild(m.mon, n, i);
    var pid, status := m.mon.os.reaps[i].pid, m.mon.os.reaps[i].status;
    MonOf(m);
    ChildOf(m.mon, pid);
    CollectKeepsInv(m);
    CollectsNow(m.mon, n, i);
    CollectedStays(m.(mon := Collect(m.mon)), m.mon, pid, m.mon.os.children[pid], status);
  }

  lemma SignalIsDelivered(m: Machine)
    requires m.alive
    ensures Step(m, ChildSignal) == Deliver(m.(mon := Collect(m.mon)))
  {
  }

  lemma MonOf(m: Machine)
    requires Inv(m)
    ensures MonInv(m.mon)
  {
    hide MonInv;
  }

  lemma ReportedChild(mon: Mon, n: nat, i: nat)
    requires Reports(mon.os, n) && i < n && mon.os.reaps[i].Child?
    ensures i < |mon.os.reaps| && mon.os.reaps[i].pid in mon.os.children
  {
  }

  lemma CollectKeepsInv(m: Machine)
    requires Inv(m)
    ensures Inv(m.(mon := Collect(m.mon)))
  {
    MonOf(m);
    CollectIsQuiet(m.mon);
    hide Inv, MonInv, Collect, Quiet;
    QuietKeeps(m, Collect(m.mon));
  }

  lemma CollectsNow(mon: Mon, n: nat, i: nat)
    requires MonInv(mon) && Reports(mon.os, n) && i < n && mon.os.reaps[i].Child?
    ensures var pid := mon.os.reaps[i].pid; Collected(mon, Collect(mon), pid, mon.os.children[pid], mon.os.reaps[i].status)
  {
    EmptiedInv(mon);
    hide MonInv, Collect, ReapAll, Trace;
    CollectsAll(mon.(os := ReadSignals(mon.os)), n, i);
  }

  lemma CollectedStays(t: Machine, a: Mon, pid: Pid, j: JobId, status: WaitStatus)
    requires Inv(t) && Collected(a, t.mon, pid, j, status) && j in a.procs
    ensures var r := Deliver(t);
      && Reaped(j, status) in Trace(r.mon.os.log)
      && (pid in a.byPid && PipesEnded(a.procs[j]) ==>
            Settled(j) in Trace(r.mon.os.log) && j in r.mon.jobs && IsTerminal(r.mon.jobs[j].state) && (r.alive ==> j !in r.slots))
      && (pid in a.byPid && !PipesEnded(a.procs[j]) ==>
            j in r.mon.procs && r.mon.procs[j] == a.procs[j].(exited := true, status := status))
  {
    hide Inv, Deliver;
    DeliverGrows(t);
    ExtendsIsPrefix(t.mon.os.log, Deliver(t).mon.os.log);
    RecordsStay(t.mon.os.log, Deliver(t).mon.os.log);
    DeliverLeaves(t);
    if j in t.mon.jobs && IsTerminal(t.mon.jobs[j].state) {
      DeliverFrees(t, j);
    }
  }

  lemma EmptiedInv(mon: Mon)
    requires MonInv(mon)
    ensures MonInv(mon.(os := ReadSignals(mon.os)))
    ensures Collect(mon) == ReapAll(mon.(os := ReadSignals(mon.os)))
  {
  }
}
