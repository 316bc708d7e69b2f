/** The LIST and STATUS responses (src/runnerd_main.cpp). */
module Listing {
  import opened Jobs
  import opened Wire
  import opened Decimal

  function StateName(s: JobState): string {
    match s
    case Queued => "QUEUED"
    case Running => "RUNNING"
    case Terminating => "TERMINATING"
    case Succeeded => "SUCCEEDED"
    case Failed => "FAILED"
    case Cancelled => "CANCELLED"
    case TimedOut => "TIMED_OUT"
    case Interrupted => "INTERRUPTED"
  }

  // ----- ascending ids -----

  /** `ids` is the set in ascending order. */
  ghost predicate IsSorting(ids: seq<JobId>, keys: set<JobId>) {
    Increasing(ids) && forall j :: j in ids <==> j in keys
  }

  /** There is only one such sequence. */
  lemma {:induction false} SortingIsUnique(a: seq<JobId>, b: seq<JobId>, keys: set<JobId>)
    requires IsSorting(a, keys) && IsSorting(b, keys)
    ensures a == b
    decreases |a|
  {
    HasMember(b);
    if a != [] {
      var last := a[|a| - 1];
      assert last in a && last in b;
      var y :| 0 <= y < |b| && b[y] == last;
      assert b[|b| - 1] in b && b[|b| - 1] in a;
      assert y == |b| - 1;
      DropLast(a, keys);
      DropLast(b, keys);
      SortingIsUnique(a[..|a| - 1], b[..|b| - 1], keys - {last});
      assert a == a[..|a| - 1] + [last] && b == b[..|b| - 1] + [last];
    }
  }

  lemma HasMember(ids: seq<JobId>)
    ensures ids == [] || exists j :: j in ids
  {
    if ids != [] {
      assert ids[0] in ids;
    }
  }

  lemma DropLast(a: seq<JobId>, keys: set<JobId>)
    requires IsSorting(a, keys) && a != []
    ensures IsSorting(a[..|a| - 1], keys - {a[|a| - 1]})
  {
    var init, last := a[..|a| - 1], a[|a| - 1];
    forall j
      ensures j in init <==> j in keys && j != last
    {
      if j in a && j != last {
        var x :| 0 <= x < |a| && a[x] == j;
        assert init[x] == j;
      }
      if j in init {
        var x :| 0 <= x < |init| && init[x] == j;
        assert a[x] == j;
      }
    }
  }

  /** `std::sort` of the keys, in whatever order the table yields them. */
  method SortedIds(keys: set<JobId>) returns (ids: seq<JobId>)
    ensures IsSorting(ids, keys)
  {
    ids := [];
    var rest := keys;
    while rest != {}
      invariant rest <= keys && IsSorting(ids, keys - rest)
      decreases rest
    {
      var j :| j in rest;
      ids := Insert(ids, j, keys - rest);
      rest := rest - {j};
      assert keys - rest == keys - (rest + {j}) + {j};
    }
    assert keys - {} == keys;
  }

  method Insert(ids: seq<JobId>, j: JobId, ghost keys: set<JobId>) returns (r: seq<JobId>)
    requires IsSorting(ids, keys) && j !in keys
    ensures IsSorting(r, keys + {j})
  {
    var i := |ids|;
    while i > 0 && ids[i - 1] > j
      invariant 0 <= i <= |ids| && forall x | i <= x < |ids| :: ids[x] > j
    {
      i := i - 1;
    }
    InsertSorts(ids, i, j, keys);
    r := ids[..i] + [j] + ids[i..];
  }

  lemma InsertSorts(ids: seq<JobId>, i: nat, j: JobId, keys: set<JobId>)
    requires IsSorting(ids, keys) && j !in keys && i <= |ids|
    requires (i > 0 ==> ids[i - 1] <= j) && forall x | i <= x < |ids| :: ids[x] > j
    ensures IsSorting(ids[..i] + [j] + ids[i..], keys + {j})
  {
    InsertAscends(ids, i, j, keys);
    InsertMembers(ids, i, j);
    hide Increasing;
  }

  lemma InsertAscends(ids: seq<JobId>, i: nat, j: JobId, keys: set<JobId>)
    requires IsSorting(ids, keys) && j !in keys && i <= |ids|
    requires (i > 0 ==> ids[i - 1] <= j) && forall x | i <= x < |ids| :: ids[x] > j
    ensures Increasing(ids[..i] + [j] + ids[i..])
  {
    var r := ids[..i] + [j] + ids[i..];
    assert i > 0 ==> ids[i - 1] in ids;
    assert forall x | 0 <= x < |r| :: r[x] == if x < i then ids[x] else if x == i then j else ids[x - 1];
  }

  lemma InsertMembers(ids: seq<JobId>, i: nat, j: JobId)
    requires i <= |ids|
    ensures forall k :: k in ids[..i] + [j] + ids[i..] <==> k in ids || k == j
  {
    assert ids == ids[..i] + ids[i..];
  }

  // ----- LIST -----

  function StateField(s: JobState): Bytes {
    Ascii(" state=") + Ascii(StateName(s))
  }

  function Line(job: Job): Bytes {
    Ascii("\nid=") + Digits(job.id) + StateField(job.state)
  }

  /** The full text: one line for each of the given jobs. */
  function ListText(jobs: map<JobId, Job>, ids: seq<JobId>): Bytes
    requires forall j | j in ids :: j in jobs
  {
    if ids == [] then Ascii("OK") else ListText(jobs, ids[..|ids| - 1]) + Line(jobs[ids[|ids| - 1]])
  }

  const TOO_MANY: string := "ERR too many jobs to list"

  lemma {:induction false} TextGrows(jobs: map<JobId, Job>, ids: seq<JobId>, n: nat)
    requires (forall j | j in ids :: j in jobs) && n <= |ids|
    ensures |ListText(jobs, ids[..n])| <= |ListText(jobs, ids)|
    decreases |ids|
  {
    if n == |ids| {
      assert ids[..n] == ids;
    } else {
      TextGrows(jobs, ids[..|ids| - 1], n);
      assert ids[..|ids| - 1][..n] == ids[..n];
    }
  }

  /** Every job once, in ascending order of JobId, or the error if that does not fit a frame. */
  ghost predicate IsListing(jobs: map<JobId, Job>, r: Bytes) {
    exists ids :: IsSorting(ids, jobs.Keys) &&
      r == if |ListText(jobs, ids)| <= MAX_FRAME then ListText(jobs, ids) else Ascii(TOO_MANY)
  }

  ghost function Position(ids: seq<JobId>, j: JobId): (i: nat)
    ensures i <= |ids| && (i > 0 ==> ids[i - 1] <= j) && forall x | i <= x < |ids| :: ids[x] > j
  {
    if ids == [] || ids[|ids| - 1] <= j then |ids| else Position(ids[..|ids| - 1], j)
  }

  lemma {:induction false} SortingExists(keys: set<JobId>) returns (ids: seq<JobId>)
    ensures IsSorting(ids, keys)
    decreases keys
  {
    ids := [];
    if keys != {} {
      var j :| j in keys;
      ids := SortingExists(keys - {j});
      var i := Position(ids, j);
      InsertSorts(ids, i, j, keys - {j});
      ids := ids[..i] + [j] + ids[i..];
      assert keys - {j} + {j} == keys;
    }
  }

  lemma ListingExists(jobs: map<JobId, Job>)
    ensures exists r :: IsListing(jobs, r)
  {
    var ids := SortingExists(jobs.Keys);
    assert IsListing(jobs, if |ListText(jobs, ids)| <= MAX_FRAME then ListText(jobs, ids) else Ascii(TOO_MANY));
  }

  ghost function ListResponse(jobs: map<JobId, Job>): (r: Bytes)
    ensures IsListing(jobs, r)
  {
    ListingExists(jobs);
    var r :| IsListing(jobs, r);
    r
  }

  /** The table determines the response. */
  lemma ListingIsUnique(jobs: map<JobId, Job>, a: Bytes, b: Bytes)
    requires IsListing(jobs, a) && IsListing(jobs, b)
    ensures a == b
  {
    var x :| IsSorting(x, jobs.Keys) && a == if |ListText(jobs, x)| <= MAX_FRAME then ListText(jobs, x) else Ascii(TOO_MANY);
    var y :| IsSorting(y, jobs.Keys) && b == if |ListText(jobs, y)| <= MAX_FRAME then ListText(jobs, y) else Ascii(TOO_MANY);
    SortingIsUnique(x, y, jobs.Keys);
  }

  method MakeListResponse(jobs: map<JobId, Job>) returns (r: Bytes)
    ensures IsListing(jobs, r) && |r| <= MAX_FRAME
  {
    var ids := SortedIds(jobs.Keys);
    Listed(ids, jobs.Keys);
    hide IsSorting;
    r := ListJobs(jobs, ids);
  }

  lemma Listed(ids: seq<JobId>, keys: set<JobId>)
    requires IsSorting(ids, keys)
    ensures forall j | j in ids :: j in keys
  {
  }

  /** The loop stops at the first line that does not fit: the full text does not fit either. */
  method ListJobs(jobs: map<JobId, Job>, ids: seq<JobId>) returns (r: Bytes)
    requires forall j | j in ids :: j in jobs
    ensures r == if |ListText(jobs, ids)| <= MAX_FRAME then ListText(jobs, ids) else Ascii(TOO_MANY)
    ensures |r| <= MAX_FRAME
  {
    hide Line;
    r := Ascii("OK");
    assert ids[..0] == [];
    for i := 0 to |ids|
      invariant r == ListText(jobs, ids[..i]) && |r| <= MAX_FRAME
    {
      var line := Line(jobs[ids[i]]);
      assert ids[..i + 1][..i] == ids[..i];
      TextGrows(jobs, ids, i + 1);
      if |line| > MAX_FRAME - |r| {
        return Ascii(TOO_MANY);
      }
      r := r + line;
    }
    assert ids[..|ids|] == ids;
  }

  // ----- a listing can be read back -----

  predicate OneLine(s: Bytes) {
    10 !in s
  }

  /** Where the last line of a text begins is visible in the text. */
  lemma LastLine(a: Bytes, x: Bytes, b: Bytes, y: Bytes)
    requires a + [10] + x == b + [10] + y && OneLine(x) && OneLine(y)
    ensures a == b && x == y
  {
    var s, t := a + [10] + x, b + [10] + y;
    assert s[|a|] == 10 && t[|b|] == 10;
    assert a == s[..|a|] && b == t[..|b|];
    assert x == s[|a| + 1..] && y == t[|b| + 1..];
  }

  /** A number ends where something else than a digit follows. */
  lemma DigitsEnd(a: Bytes, x: Bytes, b: Bytes, y: Bytes)
    requires AllDigits(a) && AllDigits(b) && x != [] && y != [] && !IsDigit(x[0]) && !IsDigit(y[0]) && a + x == b + y
    ensures a == b && x == y
  {
    assert (a + x)[|a|] == x[0] && (b + y)[|b|] == y[0];
    assert a == (a + x)[..|a|] && b == (b + y)[..|b|];
    assert x == (a + x)[|a|..] && y == (b + y)[|b|..];
  }

  lemma StatesDiffer(s: JobState, t: JobState)
    requires StateField(s) == StateField(t)
    ensures s == t
  {
    assert StateField(s)[7] == StateField(t)[7];
    assert StateField(s)[8] == StateField(t)[8];
  }

  lemma StateFieldShape(s: JobState)
    ensures |StateField(s)| > 8 && OneLine(StateField(s)) && !IsDigit(StateField(s)[0])
  {
    assert Ascii(" state=")[0] == 32;
    assert OneLine(Ascii(" state="));
    NameIsOneLine(s);
    hide Ascii;
  }

  lemma NameIsOneLine(s: JobState)
    ensures OneLine(Ascii(StateName(s))) && |StateName(s)| > 1
  {
    assert forall i | 0 <= i < |StateName(s)| :: Ascii(StateName(s))[i] != 10;
  }

  lemma DigitsAreOneLine(s: Bytes)
    requires AllDigits(s)
    ensures OneLine(s)
  {
  }

  function Entry(job: Job): Bytes {
    Ascii("id=") + (Digits(job.id) + StateField(job.state))
  }

  lemma LineIsEntry(job: Job)
    ensures Line(job) == [10] + Entry(job) && OneLine(Entry(job))
  {
    hide StateField, Digits;
    StateFieldShape(job.state);
    DigitsAreOneLine(Digits(job.id));
    assert Ascii("\nid=") == [10] + Ascii("id=");
    Regroup(Ascii("id="), Digits(job.id), StateField(job.state));
    Regroup([10], Ascii("id="), Digits(job.id) + StateField(job.state));
    Regroup([10] + Ascii("id="), Digits(job.id), StateField(job.state));
  }

  lemma EntryIsReadable(a: Job, b: Job)
    requires Entry(a) == Entry(b)
    ensures a.id == b.id && a.state == b.state
  {
    hide StateField, Digits, Ascii;
    var x, y := StateField(a.state), StateField(b.state);
    assert Entry(a)[3..] == Digits(a.id) + x;
    assert Entry(b)[3..] == Digits(b.id) + y;
    StateFieldShape(a.state);
    StateFieldShape(b.state);
    DigitsEnd(Digits(a.id), x, Digits(b.id), y);
    NumberOfDigits(a.id);
    NumberOfDigits(b.id);
    StatesDiffer(a.state, b.state);
  }

  /** Two tables with the same listing have the same jobs in the same states. */
  lemma {:induction false} ListingIsReadable(a: map<JobId, Job>, x: seq<JobId>, b: map<JobId, Job>, y: seq<JobId>)
    requires (forall j | j in x :: j in a && a[j].id == j) && (forall j | j in y :: j in b && b[j].id == j)
    requires ListText(a, x) == ListText(b, y)
    ensures x == y && forall j | j in x :: a[j].state == b[j].state
    decreases |x|
  {
    hide Line, Entry;
    if x != [] && y != [] {
      var i, k := a[x[|x| - 1]], b[y[|y| - 1]];
      LineIsEntry(i);
      LineIsEntry(k);
      var s, t := ListText(a, x[..|x| - 1]), ListText(b, y[..|y| - 1]);
      assert s + [10] + Entry(i) == s + Line(i) && t + [10] + Entry(k) == t + Line(k);
      LastLine(s, Entry(i), t, Entry(k));
      EntryIsReadable(i, k);
      ListingIsReadable(a, x[..|x| - 1], b, y[..|y| - 1]);
      assert x == x[..|x| - 1] + [i.id] && y == y[..|y| - 1] + [k.id];
    } else {
      EmptyListing(a, x);
      EmptyListing(b, y);
    }
  }

  lemma EmptyListing(jobs: map<JobId, Job>, ids: seq<JobId>)
    requires forall j | j in ids :: j in jobs
    ensures OneLine(ListText(jobs, ids)) <==> ids == []
  {
    if ids != [] {
      var job := jobs[ids[|ids| - 1]];
      LineIsEntry(job);
      assert ListText(jobs, ids)[|ListText(jobs, ids[..|ids| - 1])|] == 10;
    }
  }

  // ----- STATUS -----

  function Signed(n: int): Bytes {
    if n < 0 then Ascii("-") + Digits(-n) else Digits(n)
  }

  function Field(name: string, value: Option<int>): Bytes {
    if value.Some? then Ascii(name) + Signed(value.value) else []
  }

  /** Everything but the text of the failure message. */
  function StatusText(job: Job): Bytes {
    Ascii("OK id=") + Digits(job.id) + StateField(job.state)
    + Field(" timeout_ms=", job.spec.timeout) + Field(" pid=", job.pid)
    + Field(" exit_code=", job.exitCode) + Field(" exit_signal=", job.exitSignal)
    + (if IsTerminal(job.state) then Field(" stdout_bytes=", Some(|job.stdout|)) + Field(" stderr_bytes=", Some(|job.stderr|)) else [])
    + (if job.failed then Ascii(" error=") else [])
  }

  function StatusResponse(job: Job): (r: Bytes)
    ensures |r| <= MAX_FRAME
  {
    if |StatusText(job)| > MAX_FRAME then Ascii("ERR status response exceeds maximum frame size") else StatusText(job)
  }
}
