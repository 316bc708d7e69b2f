/** `TimeoutManager` (src/timeout_manager.cpp): a heap with stale entries and generation numbers
    that behaves like a plain map from job to deadline. */
module TimeoutManager {
  import opened Jobs
  import opened Kernel
  import opened Deadlines
  import opened Exceptions
  import opened Host
  import opened Heap
  import opened Machine

  lemma FirstIsUnique(t: Deadlines, j: JobId)
    requires IsFirst(t, j)
    ensures First(t) == j
  {
    assert Before(t, First(t), j) && Before(t, j, First(t));
  }

  class TimeoutManager {
    const host: Host
    var nextGeneration: nat
    var heap: seq<Entry>
    var active: map<JobId, nat>
    /** The meaning: the deadline of every job that has one. */
    ghost var deadlines: Deadlines

    ghost predicate Valid()
      reads this
    {
      && IsHeap(heap)
      && nextGeneration < GENERATION_SPACE
      && deadlines.Keys == active.Keys
      && (forall j | j in active :: Entry(deadlines[j], j, active[j]) in heap)
      && (forall e | e in heap :: nextGeneration == 0 || e.generation < nextGeneration)
      && (forall e | e in heap && IsCurrent(e) :: e.deadline == deadlines[e.job])
    }

    constructor (host: Host)
      ensures Valid() && deadlines == map[] && nextGeneration == 1 && this.host == host
    {
      this.host := host;
      nextGeneration := 1;
      heap := [];
      active := map[];
      deadlines := map[];
    }

    predicate IsCurrent(e: Entry)
      reads this
    {
      e.job in active && active[e.job] == e.generation
    }

    /** The top of the heap is the earliest deadline once no stale entry lies on it. */
    lemma TopIsFirst()
      requires Valid() && heap != [] && IsCurrent(heap[0])
      ensures heap[0].job in deadlines && deadlines[heap[0].job] == heap[0].deadline && IsFirst(deadlines, heap[0].job)
    {
      var top := heap[0];
      assert top in heap;
      TopIsEarliest(heap);
      forall j | j in deadlines
        ensures Before(deadlines, top.job, j)
      {
        assert NotAfter(top, Entry(deadlines[j], j, active[j]));
      }
    }

    lemma EmptyHeapEmptyMap()
      requires Valid() && heap == []
      ensures deadlines == map[]
    {
      assert forall j | j in deadlines :: Entry(deadlines[j], j, active[j]) in heap;
    }

    /** Drop the top entry, which is not the current one of any job. */
    method PopStale()
      requires Valid() && heap != [] && !IsCurrent(heap[0])
      modifies this`heap
      ensures Valid() && |heap| < |old(heap)|
    {
      ghost var before := heap;
      var h := Pop(heap);
      Members(before, h);
      heap := h;
    }

    method DiscardStaleEntries()
      requires Valid()
      modifies this`heap
      ensures Valid() && |heap| <= |old(heap)|
      ensures heap == [] || IsCurrent(heap[0])
    {
      while heap != [] && !IsCurrent(heap[0])
        invariant Valid() && |heap| <= |old(heap)|
        decreases |heap|
      {
        PopStale();
      }
    }

    static lemma Members(s: seq<Entry>, r: seq<Entry>)
      requires s != [] && multiset(s) == multiset(r) + multiset{s[0]}
      ensures |r| < |s|
      ensures forall e | e in r :: e in s
      ensures forall e | e in s && e != s[0] :: e in r
    {
      assert |multiset(s)| == |multiset(r)| + 1;
      forall e
        ensures e in r ==> e in s
        ensures e in s && e != s[0] ==> e in r
      {
        assert e in s <==> e in multiset(s);
        assert e in r <==> e in multiset(r);
      }
    }

    method ArmToNextDeadline() returns (r: Outcome)
      requires Valid()
      modifies this`heap, host
      ensures Valid()
      ensures host.os == ArmFor(old(host.os), deadlines)
      ensures r == if NextArm(old(host.os)) then Done else Threw(SystemError)
    {
      hide IsHeap, IsFirst;
      DiscardStaleEntries();
      var sec, nsec := 0, 0;
      if heap != [] {
        TopIsFirst();
        FirstIsUnique(deadlines, heap[0].job);
        var now := host.Now();
        var remaining := heap[0].deadline - now;
        if remaining <= 0 {
          remaining := 1;
        }
        sec, nsec := remaining / NS_PER_SECOND, remaining % NS_PER_SECOND;
        assert sec * NS_PER_SECOND + nsec == remaining;
      } else {
        EmptyHeapEmptyMap();
      }
      var ok := host.SetTime(sec, nsec);
      r := if ok then Done else Threw(SystemError);
    }

    method Schedule(job: JobId, ms: int) returns (r: Outcome)
      requires Valid()
      modifies this, host
      ensures Valid()
      ensures ms <= 0 ==> r == Threw(InvalidArgument) && deadlines == old(deadlines) && host.os == old(host.os) && nextGeneration == old(nextGeneration)
      ensures ms > 0 && old(nextGeneration) == 0 ==>
        r == Threw(Overflow) && deadlines == old(deadlines) && host.os == Note(old(host.os), Refused(job)) && nextGeneration == 0
      ensures ms > 0 && old(nextGeneration) != 0 ==>
        var os := Tick(old(host.os)); var armed := ArmFor(os, deadlines);
        && deadlines == old(deadlines)[job := os.now + ms * NS_PER_MS]
        && nextGeneration == (old(nextGeneration) + 1) % GENERATION_SPACE
        && r == (if NextArm(os) then Done else Threw(SystemError))
        && host.os == if r.Done? then armed else Note(armed, Refused(job))
    {
      hide IsHeap, ArmFor;
      if ms <= 0 {
        return Threw(InvalidArgument);
      }
      if nextGeneration == 0 {
        host.Log(Refused(job));
        return Threw(Overflow);
      }
      var now := host.Now();
      Insert(job, now + ms * NS_PER_MS);
      r := ArmToNextDeadline();
      if r.Threw? {
        host.Log(Refused(job));
      }
    }

    /** The new entry becomes the only current one of its job. */
    method Insert(job: JobId, deadline: Time)
      requires Valid() && nextGeneration != 0
      modifies this
      ensures Valid() && deadlines == old(deadlines)[job := deadline]
      ensures nextGeneration == (old(nextGeneration) + 1) % GENERATION_SPACE
    {
      var e := Entry(deadline, job, nextGeneration);
      ghost var before := heap;
      var h := Push(heap, e);
      Added(before, h, e);
      heap := h;
      active := active[job := nextGeneration];
      deadlines := deadlines[job := deadline];
      nextGeneration := (nextGeneration + 1) % GENERATION_SPACE;
    }

    static lemma Added(s: seq<Entry>, r: seq<Entry>, x: Entry)
      requires multiset(r) == multiset(s) + multiset{x}
      ensures forall e :: e in r <==> e in s || e == x
    {
      forall e
        ensures e in r <==> e in s || e == x
      {
        assert e in s <==> e in multiset(s);
        assert e in r <==> e in multiset(r);
      }
    }

    method Cancel(job: JobId)
      requires Valid()
      modifies this`active, this`deadlines
      ensures Valid() && deadlines == old(deadlines) - {job}
    {
      active := active - {job};
      deadlines := deadlines - {job};
    }

    /** Take the earliest deadline out of the heap and the map. */
    method TakeFirst() returns (j: JobId)
      requires Valid() && heap != [] && IsCurrent(heap[0])
      modifies this`heap, this`active, this`deadlines
      ensures Valid() && |heap| < |old(heap)|
      ensures j == old(heap[0].job) && deadlines == old(deadlines) - {j}
    {
      var top := heap[0];
      ghost var before := heap;
      var h := Pop(heap);
      Members(before, h);
      j := top.job;
      heap := h;
      active := active - {j};
      deadlines := deadlines - {j};
    }

    method HandleReadable() returns (r: Outcome, expired: seq<JobId>)
      requires Valid()
      modifies this`heap, this`active, this`deadlines, host
      ensures Valid()
      ensures var os := Tick(old(host.os));
        && expired == Due(old(deadlines), os.now)
        && deadlines == Later(old(deadlines), os.now)
        && host.os == ArmFor(os, deadlines)
        && r == if NextArm(os) then Done else Threw(SystemError)
    {
      hide IsHeap, Drawn, Due, Later, ArmFor, IsFirst;
      expired := [];
      EmptyDraw(deadlines, Tick(host.os).now);
      var now := host.Now();
      ghost var all := deadlines;
      DiscardStaleEntries();
      while heap != [] && heap[0].deadline <= now
        invariant Valid() && (heap == [] || IsCurrent(heap[0]))
        invariant Drawn(all, deadlines, now, expired)
        invariant host.os == Tick(old(host.os)) && all == old(deadlines)
        decreases |heap|
      {
        TopIsFirst();
        ghost var left := deadlines;
        var j := TakeFirst();
        DrawNext(all, left, now, expired, j);
        expired := expired + [j];
        DiscardStaleEntries();
      }
      if heap != [] {
        TopIsFirst();
      } else {
        EmptyHeapEmptyMap();
      }
      DrawnAll(all, deadlines, now, expired);
      r := ArmToNextDeadline();
    }
  }

  /** Some of the due jobs have been taken out of the map, earliest first. */
  ghost predicate Drawn(all: Deadlines, left: Deadlines, now: Time, taken: seq<JobId>) {
    && Ordered(all, taken)
    && (forall j | j in taken :: all[j] <= now)
    && (forall j :: j in left <==> j in all && j !in taken)
    && (forall j | j in left :: left[j] == all[j])
    && (forall i, j | i in taken && j in left :: Before(all, i, j))
  }

  lemma EmptyDraw(all: Deadlines, now: Time)
    ensures Drawn(all, all, now, [])
  {
  }

  lemma DrawNext(all: Deadlines, left: Deadlines, now: Time, taken: seq<JobId>, j: JobId)
    requires Drawn(all, left, now, taken) && IsFirst(left, j) && left[j] <= now
    ensures Drawn(all, left - {j}, now, taken + [j])
  {
    var longer := taken + [j];
    assert forall i :: i in longer <==> i in taken || i == j;
    forall x, y | 0 <= x < y < |longer|
      ensures longer[x] != longer[y] && Before(all, longer[x], longer[y])
    {
      assert longer[x] in taken;
      if y < |taken| {
        assert longer[y] in taken;
      }
    }
    forall i | i in left - {j}
      ensures Before(all, j, i)
    {
      assert Before(left, j, i);
    }
  }

  lemma DrawnAll(all: Deadlines, left: Deadlines, now: Time, taken: seq<JobId>)
    requires Drawn(all, left, now, taken)
    requires left == map[] || exists j :: IsFirst(left, j) && now < left[j]
    ensures taken == Due(all, now) && left == Later(all, now)
  {
    assert forall j | j in left :: now < left[j] by {
      if left != map[] {
        var f :| IsFirst(left, f) && now < left[f];
        assert forall j | j in left :: Before(left, f, j);
      }
    }
    DueUnique(all, now, taken);
  }
}
