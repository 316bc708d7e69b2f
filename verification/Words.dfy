/** What the daemon answers, word for word, and what its requests look like, byte for byte
    (src/runnerd_main.cpp, src/job.cpp, src/protocol.cpp). */
module Words {
  import opened Jobs
  import opened Kernel
  import opened MonitorSpec
  import opened MonitorInvariant
  import opened Wire
  import opened Decimal
  import opened Protocol
  import opened Listing
  import opened Requests
  import opened Machine
  import opened MachineInvariant
  import opened Histories
  import opened Runs
  import opened Reactions
  import opened Frames
  import Ledger
  import Progress
  import Daemon

  /** The parts with the separator between them. */
  function Join(parts: seq<Bytes>, sep: Byte): Bytes {
    if parts == [] then []
    else if |parts| == 1 then parts[0]
    else Join(parts[..|parts| - 1], sep) + [sep] + parts[|parts| - 1]
  }

  lemma JoinAppend(parts: seq<Bytes>, sep: Byte, last: Bytes)
    requires parts != []
    ensures Join(parts + [last], sep) == Join(parts, sep) + [sep] + last
  {
    assert (parts + [last])[..|parts|] == parts;
  }

  // ----- LIST -----

  /** The line of a job in a listing. */
  function Says(j: JobId, word: string): Bytes {
    Ascii("id=") + Digits(j) + Ascii(" state=") + Ascii(word)
  }

  predicate IsUpper(word: string) {
    forall i | 0 <= i < |word| :: word[i] == '_' || 'A' <= word[i] <= 'Z'
  }

  lemma UpperIsReadable(a: string, b: string)
    requires IsUpper(a) && IsUpper(b)
    ensures Ascii(a) == Ascii(b) <==> a == b
  {
    if Ascii(a) == Ascii(b) {
      forall i | 0 <= i < |a|
        ensures a[i] == b[i]
      {
        assert Ascii(a)[i] == a[i] as int && Ascii(b)[i] == b[i] as int;
      }
    }
  }

  lemma EntryIs(job: Job, j: JobId, word: string)
    requires IsUpper(word)
    ensures Entry(job) == Says(j, word) <==> job.id == j && word == StateName(job.state)
  {
    var field := Ascii(" state=") + Ascii(word);
    NameIsUpper(job.state);
    StateFieldShape(job.state);
    assert Ascii(" state=")[0] == 32 && field[0] == 32;
    hide Digits, StateName, Ascii, IsUpper;
    UpperIsReadable(word, StateName(job.state));
    NumberOfDigits(j);
    NumberOfDigits(job.id);
    assert Entry(job)[3..] == Digits(job.id) + StateField(job.state);
    assert Says(j, word)[3..] == Digits(j) + field;
    assert field[7..] == Ascii(word) && StateField(job.state)[7..] == Ascii(StateName(job.state));
    if Entry(job) == Says(j, word) {
      DigitsEnd(Digits(job.id), StateField(job.state), Digits(j), field);
    } else if job.id == j && word == StateName(job.state) {
      Regroup(Ascii("id="), Digits(j), field);
      Regroup(Ascii("id=") + Digits(j), Ascii(" state="), Ascii(word));
    }
  }

  lemma NameIsUpper(s: JobState)
    ensures IsUpper(StateName(s))
  {
  }

  function Lines(jobs: map<JobId, Job>, ids: seq<JobId>): seq<Bytes>
    requires forall j | j in ids :: j in jobs
  {
    if ids == [] then [Ascii("OK")] else Lines(jobs, ids[..|ids| - 1]) + [Entry(jobs[ids[|ids| - 1]])]
  }

  lemma {:induction false} ListIsJoined(jobs: map<JobId, Job>, ids: seq<JobId>)
    requires forall j | j in ids :: j in jobs
    ensures ListText(jobs, ids) == Join(Lines(jobs, ids), 10)
    ensures var lines := Lines(jobs, ids);
      |lines| == |ids| + 1 && lines[0] == Ascii("OK") && forall i | 0 <= i < |ids| :: lines[i + 1] == Entry(jobs[ids[i]])
    decreases |ids|
  {
    hide Entry, Line;
    if ids != [] {
      var init, job := ids[..|ids| - 1], jobs[ids[|ids| - 1]];
      ListIsJoined(jobs, init);
      JoinAppend(Lines(jobs, init), 10, Entry(job));
      LineIsEntry(job);
      Regroup(ListText(jobs, init), [10], Entry(job));
    }
  }

  /** What the seven states are, told by the queue, the live processes, cause, result and history. */
  lemma StateMeans(m: Machine, j: JobId)
    requires Inv(m) && j in m.mon.jobs
    ensures var job := m.mon.jobs[j];
      && (job.state.Queued? <==> j in m.waiting)
      && (job.state.Running? <==> j in m.mon.procs && job.cause.None?)
      && (job.state.Terminating? <==> j in m.mon.procs && job.cause.Some?)
      && (job.state.Succeeded? <==> job.exitCode == Some(0) && job.cause.None?)
      && (job.state.Failed? <==> job.failed && job.cause.None?)
      && (job.state.Cancelled? <==> Withdrawn(j) in Trace(m.mon.os.log) || (j !in m.mon.procs && job.cause == Some(CauseCancelled)))
      && (job.state.TimedOut? <==> j !in m.mon.procs && job.cause == Some(CauseTimedOut))
  {
    Known(m.mon, j);
    LedgerIsHistory(m.mon.os.log, j);
    hide MonInv, SlotsOk, TimersOk;
  }

  /** The word tells where the job is. */
  ghost predicate Where(m: Machine, j: JobId, word: string) {
    && j in m.mon.jobs
    && var job, live := m.mon.jobs[j], j in m.mon.procs;
       || (word == "QUEUED" && j in m.waiting)
       || (word == "RUNNING" && live && job.cause.None?)
       || (word == "TERMINATING" && live && job.cause.Some?)
       || (word == "SUCCEEDED" && job.exitCode == Some(0) && job.cause.None?)
       || (word == "FAILED" && job.failed && job.cause.None?)
       || (word == "CANCELLED" && (Withdrawn(j) in Trace(m.mon.os.log) || (!live && job.cause == Some(CauseCancelled))))
       || (word == "TIMED_OUT" && !live && job.cause == Some(CauseTimedOut))
  }

  lemma NameTells(m: Machine, j: JobId, word: string)
    requires Inv(m) && j in m.mon.jobs
    ensures word == StateName(m.mon.jobs[j].state) <==> Where(m, j, word)
  {
    StateMeans(m, j);
    NoneIsInterrupted(m, j);
    hide Inv;
  }

  lemma NoneIsInterrupted(m: Machine, j: JobId)
    requires Inv(m) && j in m.mon.jobs
    ensures !m.mon.jobs[j].state.Interrupted?
  {
    Known(m.mon, j);
  }

  predicate IsLineOf(j: JobId, line: Bytes) {
    10 !in line && Ascii("id=") + Digits(j) <= line
  }

  /** The lines of a listing: "OK", then one for each job, in ascending order of JobId. */
  ghost predicate ListTells(m: Machine, lines: seq<Bytes>) {
    && |lines| == |m.mon.jobs| + 1 && lines[0] == Ascii("OK")
    && (exists ids :: Increasing(ids) && |ids| + 1 == |lines| && forall i | 0 <= i < |ids| :: IsLineOf(ids[i], lines[i + 1]))
    && (forall j, word | IsUpper(word) :: Says(j, word) in lines <==> Where(m, j, word))
  }

  /** A line is there exactly if the job is and has the state. */
  lemma LineMeans(jobs: map<JobId, Job>, ids: seq<JobId>, j: JobId, word: string)
    requires IsSorting(ids, jobs.Keys) && IsUpper(word) && forall i | i in jobs :: jobs[i].id == i
    ensures Says(j, word) in Lines(jobs, ids) <==> j in jobs && word == StateName(jobs[j].state)
  {
    hide Entry, StateName, Increasing, IsUpper;
    ListIsJoined(jobs, ids);
    var lines, line := Lines(jobs, ids), Says(j, word);
    assert line[0] == 105 && lines[0][0] == 79;
    if line in lines {
      var x :| 0 <= x < |lines| && lines[x] == line;
      assert x > 0 && ids[x - 1] in ids && lines[x - 1 + 1] == Entry(jobs[ids[x - 1]]);
      EntryIs(jobs[ids[x - 1]], j, word);
    }
    if j in jobs && word == StateName(jobs[j].state) {
      assert j in ids;
      var x :| 0 <= x < |ids| && ids[x] == j;
      EntryIs(jobs[j], j, word);
      assert lines[x + 1] == line;
    }
  }

  lemma LinesAreOrdered(jobs: map<JobId, Job>, ids: seq<JobId>)
    requires IsSorting(ids, jobs.Keys) && forall i | i in jobs :: jobs[i].id == i
    ensures var lines := Lines(jobs, ids);
      && |lines| == |jobs| + 1 && lines[0] == Ascii("OK")
      && |ids| + 1 == |lines| && forall i | 0 <= i < |ids| :: IsLineOf(ids[i], lines[i + 1])
  {
    ListIsJoined(jobs, ids);
    Counted(jobs, ids);
    hide Increasing, Lines, Entry, IsLineOf, ListText, IsSorting, Join;
    var lines := Lines(jobs, ids);
    forall i | 0 <= i < |ids|
      ensures IsLineOf(ids[i], lines[i + 1])
    {
      assert ids[i] in ids;
      EntryBegins(jobs[ids[i]]);
    }
  }

  lemma Counted(jobs: map<JobId, Job>, ids: seq<JobId>)
    requires IsSorting(ids, jobs.Keys)
    ensures |ids| == |jobs| && forall j :: j in ids <==> j in jobs
  {
    DistinctSize(ids);
    assert Members(ids) == jobs.Keys;
  }

  lemma EntryBegins(job: Job)
    ensures IsLineOf(job.id, Entry(job))
  {
    hide StateField, Digits;
    LineIsEntry(job);
    Regroup(Ascii("id="), Digits(job.id), StateField(job.state));
  }

  lemma ListingTells(m: Machine, ids: seq<JobId>)
    requires Inv(m) && IsSorting(ids, m.mon.jobs.Keys)
    ensures ListTells(m, Lines(m.mon.jobs, ids))
  {
    Tabling(m);
    LinesAreOrdered(m.mon.jobs, ids);
    var lines := Lines(m.mon.jobs, ids);
    forall j, word | IsUpper(word)
      ensures Says(j, word) in lines <==> Where(m, j, word)
    {
      LineMeans(m.mon.jobs, ids, j, word);
      if j in m.mon.jobs {
        NameTells(m, j, word);
      }
    }
  }

  lemma Tabling(m: Machine)
    requires Inv(m)
    ensures forall j | j in m.mon.jobs :: m.mon.jobs[j].id == j
    ensures forall j | j in m.waiting :: j in m.mon.jobs
    ensures forall j | j in m.mon.procs :: j in m.mon.jobs
    ensures Increasing(m.waiting)
  {
  }

  /** In every run, the answer to LIST tells of every job where it is. */
  lemma ListIsTruthful(max: nat, os: Os, events: seq<Event>)
    requires max > 0 && Fresh(os)
    ensures var m := Run(max, os, events);
      exists lines :: ListTells(m, lines) &&
        Answer(m, Ascii("LIST")) == Reply(if |Join(lines, 10)| <= 65536 then Join(lines, 10) else Ascii("ERR too many jobs to list"))
  {
    RunKeeps(max, os, events);
    hide Run, Inv, Healthy, ListTells, ListText;
    var m := Run(max, os, events);
    ListIsAsked();
    var ids := SortedBy(m.mon.jobs);
    ListingTells(m, ids);
    ListIsJoined(m.mon.jobs, ids);
  }

  lemma ListIsAsked()
    ensures Meaning(Ascii("LIST")) == ListJobs
  {
    assert Ascii("LIST")[0] == 76 && Ascii("PING")[0] == 80;
  }

  lemma SortedBy(jobs: map<JobId, Job>) returns (ids: seq<JobId>)
    ensures IsSorting(ids, jobs.Keys) && forall j | j in ids :: j in jobs
    ensures ListResponse(jobs) == if |ListText(jobs, ids)| <= 65536 then ListText(jobs, ids) else Ascii("ERR too many jobs to list")
  {
    assert IsListing(jobs, ListResponse(jobs));
    ids :| IsSorting(ids, jobs.Keys) &&
      ListResponse(jobs) == if |ListText(jobs, ids)| <= MAX_FRAME then ListText(jobs, ids) else Ascii(TOO_MANY);
  }

  // ----- STATUS -----

  function Word(name: string, value: Bytes): Bytes {
    Ascii(name) + [61] + value
  }

  function Optional(name: string, value: Option<int>): seq<Bytes> {
    if value.Some? then [Word(name, Signed(value.value))] else []
  }

  function StatusWords(job: Job): seq<Bytes> {
    [Ascii("OK"), Word("id", Digits(job.id)), Word("state", Ascii(StateName(job.state)))]
    + Optional("timeout_ms", job.spec.timeout) + Optional("pid", job.pid)
    + Optional("exit_code", job.exitCode) + Optional("exit_signal", job.exitSignal)
    + (if IsTerminal(job.state) then Optional("stdout_bytes", Some(|job.stdout|)) + Optional("stderr_bytes", Some(|job.stderr|)) else [])
    + (if job.failed then [Word("error", [])] else [])
  }

  lemma FieldIsWord(parts: seq<Bytes>, field: string, name: string, value: Option<int>)
    requires parts != [] && field == " " + name + "="
    ensures Join(parts, 32) + Field(field, value) == Join(parts + Optional(name, value), 32)
    ensures parts + Optional(name, value) != []
  {
    if value.Some? {
      FieldName(field, name);
      hide Ascii, Signed, Join;
      JoinAppend(parts, 32, Word(name, Signed(value.value)));
      LastField(Join(parts, 32), Ascii(name), Signed(value.value));
    } else {
      assert Join(parts, 32) + [] == Join(parts, 32) && parts + [] == parts;
    }
  }

  lemma FieldName(field: string, name: string)
    requires field == " " + name + "="
    ensures Ascii(field) == [32] + Ascii(name) + [61]
  {
  }

  lemma HeadIsJoined(job: Job)
    ensures Ascii("OK id=") + Digits(job.id) + StateField(job.state)
      == Join([Ascii("OK"), Word("id", Digits(job.id)), Word("state", Ascii(StateName(job.state)))], 32)
  {
    hide Digits, StateName;
    var ok, id, state := Ascii("OK"), Word("id", Digits(job.id)), Word("state", Ascii(StateName(job.state)));
    JoinAppend([ok], 32, id);
    JoinAppend([ok, id], 32, state);
    assert [ok] + [id] == [ok, id] && [ok, id] + [state] == [ok, id, state];
    assert Ascii("OK id=") == ok + [32] + Ascii("id") + [61];
    assert Ascii(" state=") == [32] + Ascii("state") + [61];
    JoinPieces(ok, Ascii("id"), Digits(job.id), Ascii("state"), Ascii(StateName(job.state)));
  }

  lemma JoinPieces(ok: Bytes, a: Bytes, x: Bytes, b: Bytes, y: Bytes)
    ensures (ok + [32] + a + [61]) + x + ([32] + b + [61] + y) == ok + [32] + (a + [61] + x) + [32] + (b + [61] + y)
  {
  }

  lemma StatusIsJoined(job: Job)
    ensures StatusText(job) == Join(StatusWords(job), 32)
  {
    hide Digits, StateField, StateName, Signed, Field, Optional, Join, Ascii;
    HeadIsJoined(job);
    var w0 := [Ascii("OK"), Word("id", Digits(job.id)), Word("state", Ascii(StateName(job.state)))];
    FieldIsWord(w0, " timeout_ms=", "timeout_ms", job.spec.timeout);
    var w1 := w0 + Optional("timeout_ms", job.spec.timeout);
    FieldIsWord(w1, " pid=", "pid", job.pid);
    var w2 := w1 + Optional("pid", job.pid);
    FieldIsWord(w2, " exit_code=", "exit_code", job.exitCode);
    var w3 := w2 + Optional("exit_code", job.exitCode);
    FieldIsWord(w3, " exit_signal=", "exit_signal", job.exitSignal);
    var w4 := w3 + Optional("exit_signal", job.exitSignal);
    OutputIsJoined(job, w4);
    var w5 := w4 + if IsTerminal(job.state) then Optional("stdout_bytes", Some(|job.stdout|)) + Optional("stderr_bytes", Some(|job.stderr|)) else [];
    ErrorIsJoined(job, w5);
  }

  lemma OutputIsJoined(job: Job, w: seq<Bytes>)
    requires w != []
    ensures Join(w, 32) + (if IsTerminal(job.state) then Field(" stdout_bytes=", Some(|job.stdout|)) + Field(" stderr_bytes=", Some(|job.stderr|)) else [])
      == Join(w + (if IsTerminal(job.state) then Optional("stdout_bytes", Some(|job.stdout|)) + Optional("stderr_bytes", Some(|job.stderr|)) else []), 32)
    ensures w + (if IsTerminal(job.state) then Optional("stdout_bytes", Some(|job.stdout|)) + Optional("stderr_bytes", Some(|job.stderr|)) else []) != []
  {
    hide Signed, Field, Optional, Join, Ascii;
    var x, y := Optional("stdout_bytes", Some(|job.stdout|)), Optional("stderr_bytes", Some(|job.stderr|));
    FieldIsWord(w, " stdout_bytes=", "stdout_bytes", Some(|job.stdout|));
    FieldIsWord(w + x, " stderr_bytes=", "stderr_bytes", Some(|job.stderr|));
    Regroup(Join(w, 32), Field(" stdout_bytes=", Some(|job.stdout|)), Field(" stderr_bytes=", Some(|job.stderr|)));
    assert w + x + y == w + (x + y);
    assert Join(w, 32) + [] == Join(w, 32) && w + [] == w;
  }

  lemma ErrorIsJoined(job: Job, w: seq<Bytes>)
    requires w != []
    ensures Join(w, 32) + (if job.failed then Ascii(" error=") else []) == Join(w + (if job.failed then [Word("error", [])] else []), 32)
  {
    FieldName(" error=", "error");
    hide Ascii, Join;
    if job.failed {
      JoinAppend(w, 32, Word("error", []));
      LastField(Join(w, 32), Ascii("error"), []);
      assert Ascii(" error=") + [] == Ascii(" error=");
    } else {
      assert Join(w, 32) + [] == Join(w, 32) && w + [] == w;
    }
  }

  lemma LastField(text: Bytes, name: Bytes, value: Bytes)
    ensures text + ([32] + name + [61] + value) == text + [32] + (name + [61] + value)
  {
  }

  // ----- what the words of STATUS tell -----

  predicate IsName(s: string) {
    forall i | 0 <= i < |s| :: s[i] == '_' || 'a' <= s[i] <= 'z'
  }

  /** A word belongs to one name and one value. */
  lemma WordIsReadable(a: string, v: Bytes, b: string, w: Bytes)
    requires IsName(a) && IsName(b) && Word(a, v) == Word(b, w)
    ensures a == b && v == w
  {
    var s, t := Word(a, v), Word(b, w);
    assert s[|a|] == 61 && t[|b|] == 61;
    assert forall i | 0 <= i < |a| :: s[i] == a[i] as int && s[i] != 61;
    assert forall i | 0 <= i < |b| :: t[i] == b[i] as int && t[i] != 61;
    assert v == s[|a| + 1..] && w == t[|b| + 1..];
  }

  lemma SignedIsReadable(a: int, b: nat)
    ensures Signed(a) == Digits(b) <==> a == b
  {
    assert IsDigit(Digits(b)[0]);
    if a >= 0 {
      NumberOfDigits(a);
      NumberOfDigits(b);
    }
  }

  lemma InOptional(name: string, v: Bytes, field: string, value: Option<int>)
    requires IsName(name) && IsName(field)
    ensures Word(name, v) in Optional(field, value) <==> name == field && value.Some? && v == Signed(value.value)
  {
    if value.Some? && Word(name, v) == Word(field, Signed(value.value)) {
      WordIsReadable(name, v, field, Signed(value.value));
    }
  }

  lemma SameWord(name: string, v: Bytes, field: string, w: Bytes)
    requires IsName(name) && IsName(field)
    ensures Word(name, v) == Word(field, w) <==> name == field && v == w
  {
    if Word(name, v) == Word(field, w) {
      WordIsReadable(name, v, field, w);
    }
  }

  lemma WordIn(job: Job, name: string, v: Bytes)
    requires IsName(name)
    ensures Word(name, v) in StatusWords(job) <==>
      || (name == "id" && v == Digits(job.id))
      || (name == "state" && v == Ascii(StateName(job.state)))
      || (name == "timeout_ms" && job.spec.timeout.Some? && v == Signed(job.spec.timeout.value))
      || (name == "pid" && job.pid.Some? && v == Signed(job.pid.value))
      || (name == "exit_code" && job.exitCode.Some? && v == Signed(job.exitCode.value))
      || (name == "exit_signal" && job.exitSignal.Some? && v == Signed(job.exitSignal.value))
      || (name == "stdout_bytes" && IsTerminal(job.state) && v == Signed(|job.stdout|))
      || (name == "stderr_bytes" && IsTerminal(job.state) && v == Signed(|job.stderr|))
      || (name == "error" && job.failed && v == [])
  {
    OkIsNoWord(name, v);
    assert IsName("id") && IsName("state") && IsName("timeout_ms") && IsName("pid") && IsName("exit_code");
    assert IsName("exit_signal") && IsName("stdout_bytes") && IsName("stderr_bytes") && IsName("error");
    hide Ascii, Digits, Signed, Word, Optional, IsName, StateName;
    SameWord(name, v, "id", Digits(job.id));
    SameWord(name, v, "state", Ascii(StateName(job.state)));
    InOptional(name, v, "timeout_ms", job.spec.timeout);
    InOptional(name, v, "pid", job.pid);
    InOptional(name, v, "exit_code", job.exitCode);
    InOptional(name, v, "exit_signal", job.exitSignal);
    InOptional(name, v, "stdout_bytes", Some(|job.stdout|));
    InOptional(name, v, "stderr_bytes", Some(|job.stderr|));
    SameWord(name, v, "error", []);
  }

  lemma OkIsNoWord(name: string, v: Bytes)
    ensures Word(name, v) != Ascii("OK")
  {
    assert 61 in Word(name, v);
    assert 61 !in Ascii("OK");
  }

  /** The words of a STATUS answer: which numbers are given, and what they are. */
  ghost predicate NumbersTold(job: Job, words: seq<Bytes>) {
    && (forall n: nat :: Word("timeout_ms", Digits(n)) in words <==> job.spec.timeout == Some(n))
    && (forall n: nat :: Word("pid", Digits(n)) in words <==> job.pid == Some(n))
    && (forall n: nat :: Word("exit_code", Digits(n)) in words <==> job.exitCode == Some(n))
    && (forall n: nat :: Word("exit_signal", Digits(n)) in words <==> job.exitSignal == Some(n))
    && (forall n: nat :: Word("stdout_bytes", Digits(n)) in words <==> IsTerminal(job.state) && n == |job.stdout|)
    && (forall n: nat :: Word("stderr_bytes", Digits(n)) in words <==> IsTerminal(job.state) && n == |job.stderr|)
    && (Word("error", []) in words <==> job.failed)
  }

  lemma WordsTellNumbers(job: Job)
    ensures NumbersTold(job, StatusWords(job))
  {
    hide StatusWords, Word, Digits, Ascii, IsTerminal;
    var words := StatusWords(job);
    forall n: nat
      ensures Word("timeout_ms", Digits(n)) in words <==> job.spec.timeout == Some(n)
      ensures Word("pid", Digits(n)) in words <==> job.pid == Some(n)
      ensures Word("exit_code", Digits(n)) in words <==> job.exitCode == Some(n)
      ensures Word("exit_signal", Digits(n)) in words <==> job.exitSignal == Some(n)
      ensures Word("stdout_bytes", Digits(n)) in words <==> IsTerminal(job.state) && n == |job.stdout|
      ensures Word("stderr_bytes", Digits(n)) in words <==> IsTerminal(job.state) && n == |job.stderr|
    {
      NumberIsTold(job, n);
    }
    WordIn(job, "error", []);
  }

  lemma NumberIsTold(job: Job, n: nat)
    ensures var words := StatusWords(job);
      && (Word("timeout_ms", Digits(n)) in words <==> job.spec.timeout == Some(n))
      && (Word("pid", Digits(n)) in words <==> job.pid == Some(n))
      && (Word("exit_code", Digits(n)) in words <==> job.exitCode == Some(n))
      && (Word("exit_signal", Digits(n)) in words <==> job.exitSignal == Some(n))
      && (Word("stdout_bytes", Digits(n)) in words <==> IsTerminal(job.state) && n == |job.stdout|)
      && (Word("stderr_bytes", Digits(n)) in words <==> IsTerminal(job.state) && n == |job.stderr|)
  {
    hide StatusWords, Word, Digits, Ascii, IsTerminal, Signed, StateName;
    SignedAre(job, n);
    WordIn(job, "timeout_ms", Digits(n));
    WordIn(job, "pid", Digits(n));
    WordIn(job, "exit_code", Digits(n));
    WordIn(job, "exit_signal", Digits(n));
    WordIn(job, "stdout_bytes", Digits(n));
    assert "stdout_bytes"[3] != "stderr_bytes"[3];
    WordIn(job, "stderr_bytes", Digits(n));
  }

  lemma SignedAre(job: Job, n: nat)
    ensures job.spec.timeout.Some? ==> (Digits(n) == Signed(job.spec.timeout.value) <==> job.spec.timeout.value == n)
    ensures job.pid.Some? ==> (Digits(n) == Signed(job.pid.value) <==> job.pid.value == n)
    ensures job.exitCode.Some? ==> (Digits(n) == Signed(job.exitCode.value) <==> job.exitCode.value == n)
    ensures job.exitSignal.Some? ==> (Digits(n) == Signed(job.exitSignal.value) <==> job.exitSignal.value == n)
    ensures Digits(n) == Signed(|job.stdout|) <==> |job.stdout| == n
    ensures Digits(n) == Signed(|job.stderr|) <==> |job.stderr| == n
  {
    forall a: int
      ensures Signed(a) == Digits(n) <==> a == n
    {
      SignedIsReadable(a, n);
    }
  }

  /** The words of a STATUS answer: "OK", the id, the word for where the job is, and its numbers. */
  ghost predicate StatusTells(m: Machine, j: JobId, words: seq<Bytes>)
    requires j in m.mon.jobs
  {
    && |words| >= 3 && words[0] == Ascii("OK") && words[1] == Word("id", Digits(j))
    && (forall word | IsUpper(word) :: words[2] == Word("state", Ascii(word)) <==> Where(m, j, word))
    && NumbersTold(m.mon.jobs[j], words)
  }

  lemma StatusWordsTell(m: Machine, j: JobId)
    requires Inv(m) && j in m.mon.jobs
    ensures StatusTells(m, j, StatusWords(m.mon.jobs[j]))
  {
    hide Inv, Where, NumbersTold, StateName, Digits, IsUpper;
    Tabling(m);
    var job := m.mon.jobs[j];
    WordsTellNumbers(job);
    NameIsUpper(job.state);
    forall word | IsUpper(word)
      ensures Word("state", Ascii(word)) == Word("state", Ascii(StateName(job.state))) <==> Where(m, j, word)
    {
      NameTells(m, j, word);
      UpperIsReadable(word, StateName(job.state));
      assert Word("state", Ascii(word))[6..] == Ascii(word) && Word("state", Ascii(StateName(job.state)))[6..] == Ascii(StateName(job.state));
    }
  }

  /** STATUS and CANCEL requests: the word and eight bytes of id. */
  lemma IdIsAsked(j: JobId)
    requires 0 < j < JOB_ID_SPACE
    ensures Meaning(Ascii("STATUS") + BigEndian(j, 8)) == StatusOf(j)
    ensures Meaning(Ascii("CANCEL") + BigEndian(j, 8)) == CancelOf(j)
  {
    hide Meaning;
    ClientAndDaemonAgree(StatusOf(j), Ascii("STATUS") + BigEndian(j, 8));
    ClientAndDaemonAgree(CancelOf(j), Ascii("CANCEL") + BigEndian(j, 8));
  }

  /** In every run, the answer to STATUS tells where the job is and its numbers. */
  lemma StatusIsTruthful(max: nat, os: Os, events: seq<Event>, j: JobId)
    requires max > 0 && Fresh(os) && 0 < j < JOB_ID_SPACE
    ensures var m := Run(max, os, events); var answer := Answer(m, Ascii("STATUS") + BigEndian(j, 8));
      if j in m.mon.jobs then
        exists words :: StatusTells(m, j, words) &&
          answer == Reply(if |Join(words, 32)| <= 65536 then Join(words, 32) else Ascii("ERR status response exceeds maximum frame size"))
      else answer == Reply(Ascii("ERR job not found"))
  {
    RunKeeps(max, os, events);
    hide Run, Inv, Healthy, StatusTells, Answer, Join;
    StatusIsAnswered(Run(max, os, events), j);
  }

  lemma StatusIsAnswered(m: Machine, j: JobId)
    requires Inv(m) && 0 < j < JOB_ID_SPACE
    ensures var answer := Answer(m, Ascii("STATUS") + BigEndian(j, 8));
      if j in m.mon.jobs then
        exists words :: StatusTells(m, j, words) &&
          answer == Reply(if |Join(words, 32)| <= 65536 then Join(words, 32) else Ascii("ERR status response exceeds maximum frame size"))
      else answer == Reply(Ascii("ERR job not found"))
  {
    hide Inv, StatusTells, StatusText, StatusWords, Meaning, Join;
    IdIsAsked(j);
    if j in m.mon.jobs {
      StatusWordsTell(m, j);
      StatusIsJoined(m.mon.jobs[j]);
    }
  }

  // ----- PING and CANCEL -----

  lemma PingIsAnswered(m: Machine)
    ensures Answer(m, [80, 73, 78, 71]) == Reply([80, 79, 78, 71]) && After(m, [80, 73, 78, 71]) == m
  {
    assert Ascii("PING") == [80, 73, 78, 71] && Ascii("PONG") == [80, 79, 78, 71];
  }

  /** The job leaves the queue as CANCELLED, and no signal is sent. */
  ghost predicate Withdraws(a: Machine, b: Machine, j: JobId) {
    && j in b.mon.jobs && b.mon.jobs[j].state.Cancelled? && b.mon.os.kills == a.mon.os.kills
    && forall i :: i in b.waiting <==> i in a.waiting && i != j
  }

  /** CANCEL of a job that has no live process: a waiting job is withdrawn, any other is left alone. */
  lemma CancelIsAnswered(m: Machine, j: JobId)
    requires Inv(m) && m.alive && 0 < j < JOB_ID_SPACE && !(j in m.mon.jobs && m.mon.jobs[j].state.Running?)
    ensures var request := Ascii("CANCEL") + BigEndian(j, 8); var answer, r := Answer(m, request), After(m, request);
      && (j !in m.mon.jobs ==> answer == Reply(Ascii("ERR job not found")) && r == m)
      && (j in m.waiting ==> answer == Reply(Ascii("OK cancelled")) && Withdraws(m, r, j))
      && (j in m.mon.procs ==> answer == Reply(Ascii("ERR job is already terminating")) && r == m)
      && (j in m.mon.jobs && j !in m.waiting && j !in m.mon.procs ==> answer == Reply(Ascii("ERR job is already terminal")) && r == m)
  {
    hide Inv, Meaning, Terminate;
    IdIsAsked(j);
    Tabling(m);
    if j in m.mon.jobs {
      StateMeans(m, j);
      NoneIsInterrupted(m, j);
      RemoveSpec(m.waiting, j);
    }
  }

  // ----- SUBMIT, byte for byte -----

  /** The four bytes of a number, the most significant first. */
  function Four(n: nat): (b: Bytes)
    requires n < 4294967296
    ensures |b| == 4
  {
    [n / 16777216, n / 65536 % 256, n / 256 % 256, n % 256]
  }

  lemma FourIsBigEndian(n: nat)
    requires n < 4294967296
    ensures BigEndian(n, 4) == Four(n) && U32(n) == Four(n)
  {
    LastFour(n);
  }

  /** The eight bytes of an id in a STATUS or CANCEL request, the most significant first. */
  lemma EightBytes(j: JobId)
    requires j < JOB_ID_SPACE
    ensures BigEndian(j, 8) == Four(j / 4294967296) + Four(j % 4294967296)
  {
    TwoHalves(j);
    FourIsBigEndian(j / 4294967296);
    FourIsBigEndian(j % 4294967296);
    LowHalf(j);
  }

  lemma TwoHalves(n: nat)
    ensures BigEndian(n, 8) == BigEndian(n / 4294967296, 4) + BigEndian(n, 4)
  {
    var a := n / 256;
    var b := a / 256;
    var c := b / 256;
    var d := c / 256;
    assert d == n / 4294967296;
    hide BigEndian;
    Unfolded(n, 8); Unfolded(a, 7); Unfolded(b, 6); Unfolded(c, 5);
    Unfolded(n, 4); Unfolded(a, 3); Unfolded(b, 2); Unfolded(c, 1);
    assert BigEndian(c, 1) == [c % 256] by { Unfolded(d, 0); }
  }

  lemma Unfolded(n: nat, width: nat)
    ensures width == 0 ==> BigEndian(n, width) == []
    ensures width > 0 ==> BigEndian(n, width) == BigEndian(n / 256, width - 1) + [n % 256]
  {
  }

  lemma LowHalf(n: nat)
    ensures BigEndian(n, 4) == BigEndian(n % 4294967296, 4)
  {
    var q, r := n / 4294967296, n % 4294967296;
    LastFour(n);
    LastFour(r);
    hide BigEndian;
    SameByte(q, r, 16777216, 1);
    SameByte(q, r, 65536, 256);
    SameByte(q, r, 256, 65536);
    SameByte(q, r, 1, 16777216);
  }

  lemma SameByte(q: nat, r: nat, d: nat, e: nat)
    requires d > 0 && d * (e * 256) == 4294967296
    ensures (q * 4294967296 + r) / d % 256 == r / d % 256
  {
    var s := r / d;
    assert q * 4294967296 + r == d * (q * (e * 256) + s) + r % d by {
      assert q * (d * (e * 256)) == d * (q * (e * 256));
    }
    DivIs(q * 4294967296 + r, d, q * (e * 256) + s, r % d);
    assert q * (e * 256) + s == 256 * (q * e) + s;
    DivIs(256 * (q * e) + s, 256, q * e + s / 256, s % 256);
  }

  lemma DivIs(n: nat, d: nat, q: nat, r: nat)
    requires d > 0 && n == d * q + r && r < d
    ensures n / d == q
  {
    Multiple(d, n / d - q);
    assert d * (n / d - q) == r - n % d;
  }

  lemma Multiple(d: nat, e: int)
    requires d > 0
    ensures e >= 1 ==> d * e >= d
    ensures e <= -1 ==> d * e <= 0 - d
  {
    if e >= 1 {
      assert d * e == d + d * (e - 1);
    } else if e <= -1 {
      assert d * e == d * (e + 1) - d;
    }
  }

  lemma LastFour(n: nat)
    ensures BigEndian(n, 4) == [n / 16777216 % 256, n / 65536 % 256, n / 256 % 256, n % 256]
  {
    assert BigEndian(n / 256, 3) == BigEndian(n / 65536, 2) + [n / 256 % 256];
    assert BigEndian(n / 65536, 2) == BigEndian(n / 16777216, 1) + [n / 65536 % 256];
    assert BigEndian(n / 16777216, 1) == [n / 16777216 % 256];
  }

  /** A frame: four bytes of length, then the payload. */
  lemma FrameLayout(payload: Bytes)
    requires |payload| <= 65536
    ensures Frame(payload) == Four(|payload|) + payload
  {
    FourIsBigEndian(|payload|);
  }

  /** The digits of a number, the most significant first. */
  lemma DigitsAreDecimal()
    ensures Digits(9876543210) == [57, 56, 55, 54, 53, 52, 51, 50, 49, 48]
  {
    assert Digits(98) == [57, 56];
    assert Digits(9876) == Digits(98) + [55, 54];
    assert Digits(987654) == Digits(9876) + [53, 52];
    assert Digits(98765432) == Digits(987654) + [51, 50];
  }

  /** Where the length of argument k stands in the payload. */
  function Offset(argv: seq<Bytes>, k: nat): nat
    requires k <= |argv|
  {
    if k == 0 then 14 else Offset(argv, k - 1) + 4 + |argv[k - 1]|
  }

  lemma {:induction false} ArgumentStands(argv: seq<Bytes>, k: nat)
    requires ShortArguments(argv) && k <= |argv|
    ensures ShortArguments(argv[..k]) && ShortArguments(argv[k..])
    ensures Arguments(argv) == Arguments(argv[..k]) + Arguments(argv[k..]) && 14 + |Arguments(argv[..k])| == Offset(argv, k)
  {
    if k == 0 {
      assert argv[k..] == argv && argv[..k] == [];
    } else {
      ArgumentStands(argv, k - 1);
      var last := argv[k - 1];
      assert argv[..k] == argv[..k - 1] + [last];
      ArgumentsAppend(argv[..k - 1], last);
      assert argv[k - 1..] == [last] + argv[k..];
      ArgumentsCons(last, argv[k..]);
      Regroup(Arguments(argv[..k - 1]), U32(|last|) + last, Arguments(argv[k..]));
    }
  }

  /** The bytes of a SUBMIT request: the word, the timeout in milliseconds or zero, the number of arguments, and each argument
      with its length in front. */
  lemma SubmitLayout(spec: JobSpec, k: nat)
    requires Encodable(spec) && k < |spec.argv|
    ensures Expressible(spec)
    ensures var p := SubmitPayload(spec); var o := Offset(spec.argv, k);
      && p[..6] == [83, 85, 66, 77, 73, 84]
      && |p| == Offset(spec.argv, |spec.argv|) && o + 4 + |spec.argv[k]| <= |p|
      && p[6..10] == Four(if spec.timeout.Some? then spec.timeout.value else 0)
      && p[10..14] == Four(|spec.argv|)
      && p[o..o + 4] == Four(|spec.argv[k]|) && p[o + 4..o + 4 + |spec.argv[k]|] == spec.argv[k]
  {
    hide Encodable, Expressible, Arguments, U32, SubmitPayload, Offset;
    EncodableIsExpressible(spec);
    HeaderStands(spec);
    var p, argv := SubmitPayload(spec), spec.argv;
    assert p == p[..14] + p[14..];
    SplitsAt(argv, k);
    ArgumentCut(p[..14], Arguments(argv[..k]), argv[k], Arguments(argv[k + 1..]));
  }

  lemma SplitsAt(argv: seq<Bytes>, k: nat)
    requires ShortArguments(argv) && k < |argv|
    ensures ShortArguments(argv[..k]) && ShortArguments(argv[k + 1..])
    ensures Arguments(argv) == Arguments(argv[..k]) + (Four(|argv[k]|) + argv[k] + Arguments(argv[k + 1..]))
    ensures Offset(argv, k) == 14 + |Arguments(argv[..k])| && Offset(argv, |argv|) == 14 + |Arguments(argv)|
  {
    EndOfArguments(argv);
    ArgumentStands(argv, k);
    ArgumentStands(argv, k + 1);
    OneMore(argv, k);
    hide *;
    ThreePieces(Arguments(argv), Arguments(argv[..k + 1]), Arguments(argv[..k]), Four(|argv[k]|) + argv[k], Arguments(argv[k + 1..]));
  }

  lemma OneMore(argv: seq<Bytes>, k: nat)
    requires ShortArguments(argv) && k < |argv| && ShortArguments(argv[..k])
    ensures ShortArguments(argv[..k + 1]) && Arguments(argv[..k + 1]) == Arguments(argv[..k]) + (Four(|argv[k]|) + argv[k])
  {
    assert argv[..k + 1] == argv[..k] + [argv[k]];
    ArgumentsAppend(argv[..k], argv[k]);
    FourIsBigEndian(|argv[k]|);
  }

  lemma ThreePieces(whole: Bytes, first: Bytes, before: Bytes, piece: Bytes, after: Bytes)
    requires whole == first + after && first == before + piece
    ensures whole == before + (piece + after)
  {
  }

  lemma EndOfArguments(argv: seq<Bytes>)
    requires ShortArguments(argv)
    ensures Offset(argv, |argv|) == 14 + |Arguments(argv)|
  {
    ArgumentStands(argv, |argv|);
    assert argv[..|argv|] == argv;
  }

  lemma HeaderStands(spec: JobSpec)
    requires Expressible(spec)
    ensures var p := SubmitPayload(spec);
      && ShortArguments(spec.argv) && |p| >= 14 && p[..6] == [83, 85, 66, 77, 73, 84] && p[14..] == Arguments(spec.argv)
      && p[6..10] == Four(if spec.timeout.Some? then spec.timeout.value else 0) && p[10..14] == Four(|spec.argv|)
  {
    FourIsBigEndian(TimeoutField(spec));
    FourIsBigEndian(|spec.argv|);
    assert SubmitCommand() == [83, 85, 66, 77, 73, 84];
  }

  lemma ArgumentCut(head: Bytes, before: Bytes, argument: Bytes, after: Bytes)
    requires |head| == 14 && |argument| < 4294967296
    ensures var o := 14 + |before|; var p := head + (before + (Four(|argument|) + argument + after));
      p[o..o + 4] == Four(|argument|) && p[o + 4..o + 4 + |argument|] == argument
  {
    var o := 14 + |before|;
    var p := head + (before + (Four(|argument|) + argument + after));
    assert p[o..] == Four(|argument|) + argument + after;
    assert p[o..o + 4] == p[o..][..4];
    assert p[o + 4..o + 4 + |argument|] == p[o..][4..4 + |argument|];
  }

  /** The answer to SUBMIT of a valid job: "OK" and the next id, unless the ids are used up or a timer was refused. */
  lemma SubmitIsAnswered(m: Machine, spec: JobSpec)
    requires Inv(m) && m.alive && Encodable(spec)
    ensures Expressible(spec)
    ensures var answer, r := Answer(m, SubmitPayload(spec)), After(m, SubmitPayload(spec));
      && (m.nextId == 0 ==> answer.Dropped? && r == m)
      && (m.nextId != 0 ==> m.nextId !in m.mon.jobs && m.nextId in r.mon.jobs && r.mon.jobs[m.nextId].spec == spec)
      && (m.nextId != 0 && !r.degraded ==> answer.Reply?)
      && (answer.Reply? ==> answer.text == Ascii("OK ") + Digits(m.nextId))
  {
    SubmitIsAsked(spec);
    AskedToSubmit(m, spec, SubmitPayload(spec));
    if m.nextId != 0 {
      SubmitIsEntered(m, spec);
    }
    hide Answer, After, Inv, Meaning, Pump, Enqueue, Expressible, Encodable, SubmitPayload, Digits;
  }

  lemma AskedToSubmit(m: Machine, spec: JobSpec, payload: Bytes)
    requires Meaning(payload) == Request.SubmitOf(spec) && m.alive
    ensures Answer(m, payload) == SubmitReply(m, spec) && After(m, payload) == DoSubmit(m, spec)
  {
    hide Meaning, SubmitReply, DoSubmit;
  }

  lemma SubmitIsEntered(m: Machine, spec: JobSpec)
    requires Inv(m) && ValidSpec(spec) && m.nextId != 0
    ensures var (r, ok) := Pump(Enqueue(m, spec));
      m.nextId !in m.mon.jobs && m.nextId in r.mon.jobs && r.mon.jobs[m.nextId].spec == spec && (!ok ==> r.degraded)
  {
    hide Inv, Pump, ValidSpec;
    Daemon.IdIsBounded(m);
    EnqueueKeeps(m, spec);
    PumpKeeps(Enqueue(m, spec));
    Progress.PumpAdvances(Enqueue(m, spec));
    assert Evolved(Enqueue(m, spec).mon.jobs[m.nextId], Pump(Enqueue(m, spec)).0.mon.jobs[m.nextId]);
  }

  lemma SubmitIsAsked(spec: JobSpec)
    requires Encodable(spec)
    ensures Expressible(spec) && ValidSpec(spec) && Meaning(SubmitPayload(spec)) == Request.SubmitOf(spec)
  {
    hide Meaning;
    EncodableIsExpressible(spec);
    ClientAndDaemonAgree(Request.SubmitOf(spec), SubmitPayload(spec));
  }

  // ----- refusals -----

  function Error(message: string): Bytes {
    Ascii("ERR ") + Ascii(message)
  }

  /** A job that breaks a rule is refused with the first rule it breaks. */
  lemma InvalidJobIsAnswered(m: Machine, spec: JobSpec)
    requires Expressible(spec) && |SubmitPayload(spec)| <= MAX_FRAME
    ensures var answer := Answer(m, SubmitPayload(spec)); var argv := spec.argv;
      && (argv == [] ==> answer == Reply(Error("job argv must not be empty")))
      && (argv != [] && argv[0] == [] ==> answer == Reply(Error("job argv[0] must not be empty")))
      && (argv != [] && argv[0] != [] && argv[0][0] != 47 ==> answer == Reply(Error("job argv[0] must be an absolute path")))
      && (argv != [] && argv[0] != [] && argv[0][0] == 47 && (exists i | 0 <= i < |argv| :: 0 in argv[i]) ==>
            answer == Reply(Error("job argument contains a NUL byte")))
  {
    var payload := SubmitPayload(spec);
    SubmitIsBijective(payload, spec);
    HeaderStands(spec);
    assert SubmitCommand() == [83, 85, 66, 77, 73, 84];
    SubmitBranch(payload);
    FaultTexts();
    hide SubmitPayload, Expressible, Meaning, Protocol.SubmitOf, Answer, Message, Ascii, MeaningOfSubmit;
    FaultIsAnswered(m, payload, spec);
  }

  lemma FaultTexts()
    ensures Message(NoArgv, SubmitCommand()) == "job argv must not be empty"
    ensures Message(EmptyProgram, SubmitCommand()) == "job argv[0] must not be empty"
    ensures Message(RelativeProgram, SubmitCommand()) == "job argv[0] must be an absolute path"
    ensures Message(NulByte, SubmitCommand()) == "job argument contains a NUL byte"
  {
  }

  lemma FaultIsAnswered(m: Machine, payload: Bytes, spec: JobSpec)
    requires Protocol.SubmitOf(payload) == Ok(spec) && Meaning(payload) == MeaningOfSubmit(payload)
    ensures !ValidSpec(spec) ==> FirstFault(spec).Some? && Answer(m, payload) == Reply(Error(Message(FirstFault(spec).value, SubmitCommand())))
  {
    hide Meaning, Protocol.SubmitOf, Message;
  }

  /** A STATUS or CANCEL request of another length, or for the id zero, is refused; so is a request that is no command. */
  lemma MalformedIsAnswered(m: Machine, rest: Bytes)
    ensures |rest| != 8 ==>
      && Answer(m, Ascii("STATUS") + rest) == Reply(Error("STATUS request has invalid size"))
      && Answer(m, Ascii("CANCEL") + rest) == Reply(Error("CANCEL request has invalid size"))
    ensures |rest| == 8 && (forall i | 0 <= i < 8 :: rest[i] == 0) ==>
      && Answer(m, Ascii("STATUS") + rest) == Reply(Error("job id must be greater than zero"))
      && Answer(m, Ascii("CANCEL") + rest) == Reply(Error("job id must be greater than zero"))
  {
    IdIsRefused(rest, StatusCommand());
    IdIsRefused(rest, CancelCommand());
    CommandsAreDisjoint(Ascii("CANCEL") + rest);
    SizeTexts();
    hide IdOf, HasCommand, Message, Ascii;
  }

  lemma IdIsRefused(rest: Bytes, command: Bytes)
    requires |command| == COMMAND
    ensures HasCommand(command + rest, command) && |command + rest| >= COMMAND
    ensures |rest| != 8 ==> IdOf(command + rest, command) == Err(WrongSize)
    ensures |rest| == 8 && (forall i | 0 <= i < 8 :: rest[i] == 0) ==> IdOf(command + rest, command) == Err(ZeroId)
  {
    assert (command + rest)[..COMMAND] == command && (command + rest)[COMMAND..] == rest;
    if forall i | 0 <= i < |rest| :: rest[i] == 0 {
      ZerosAreZero(rest);
    }
  }

  lemma SizeTexts()
    ensures Message(WrongSize, StatusCommand()) == "STATUS request has invalid size"
    ensures Message(WrongSize, CancelCommand()) == "CANCEL request has invalid size"
    ensures forall command :: Message(ZeroId, command) == "job id must be greater than zero"
  {
    assert StatusCommand()[0] != CancelCommand()[0];
  }

  lemma {:induction false} ZerosAreZero(b: Bytes)
    requires forall i | 0 <= i < |b| :: b[i] == 0
    ensures Value(b) == 0
  {
    if b != [] {
      ZerosAreZero(b[..|b| - 1]);
    }
  }

  lemma UnknownIsAnswered(m: Machine, payload: Bytes)
    requires payload != Ascii("PING") && payload != Ascii("LIST")
    requires |payload| < 6 || (payload[..6] != Ascii("SUBMIT") && payload[..6] != Ascii("STATUS") && payload[..6] != Ascii("CANCEL"))
    ensures Answer(m, payload) == Reply(Ascii("ERR unknown request")) && After(m, payload) == m
  {
  }
}
