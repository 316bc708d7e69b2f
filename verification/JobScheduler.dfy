/** `JobScheduler` (src/job_scheduler.cpp): the FIFO queue with its membership set, and the slots. */
module JobScheduler {
  import opened Jobs
  import opened Exceptions
  import opened MonitorInvariant
  import opened Machine

  class JobScheduler {
    const maxRunning: nat
    var waiting: seq<JobId>
    var waitingIds: set<JobId>
    var active: set<JobId>

    /** Queue and set hold the same ids, no id is queued twice, and none is both queued and active. */
    ghost predicate Valid()
      reads this
    {
      && maxRunning > 0
      && Distinct(waiting)
      && (forall j :: j in waitingIds <==> j in waiting)
      && waitingIds !! active
      && |active| <= maxRunning
    }

    constructor (maxRunning: nat)
      requires maxRunning > 0
      ensures Valid() && waiting == [] && active == {} && this.maxRunning == maxRunning
    {
      this.maxRunning := maxRunning;
      waiting, waitingIds, active := [], {}, {};
    }

    /** The source's constructor refuses a limit of zero. */
    static method Create(maxRunning: nat) returns (r: Outcome, s: JobScheduler?)
      ensures r == if maxRunning == 0 then Threw(InvalidArgument) else Done
      ensures r.Done? ==> s != null && fresh(s) && s.Valid() && s.waiting == [] && s.active == {} && s.maxRunning == maxRunning
    {
      if maxRunning == 0 {
        return Threw(InvalidArgument), null;
      }
      s := new JobScheduler(maxRunning);
      r := Done;
    }

    method Enqueue(job: JobId) returns (r: Outcome)
      requires Valid()
      modifies this
      ensures Valid() && active == old(active)
      ensures job == 0 ==> r == Threw(InvalidArgument)
      ensures job != 0 ==> (r == if job in old(waiting) || job in active then Threw(LogicError) else Done)
      ensures waiting == if r.Done? then old(waiting) + [job] else old(waiting)
    {
      if job == 0 {
        return Threw(InvalidArgument);
      }
      if job in waitingIds || job in active {
        return Threw(LogicError);
      }
      waitingIds := waitingIds + {job};
      waiting := waiting + [job];
      r := Done;
    }

    /** The head of the queue moves into a slot, if there is a head and a free slot. */
    method TakeNextJobToStart() returns (next: Option<JobId>)
      requires Valid()
      modifies this
      ensures Valid()
      ensures next.Some? <==> |old(active)| < maxRunning && old(waiting) != []
      ensures next.None? ==> waiting == old(waiting) && active == old(active)
      ensures next.Some? ==>
        && [next.value] + waiting == old(waiting)
        && next.value !in old(active) && active == old(active) + {next.value}
    {
      if |active| >= maxRunning {
        return None;
      }
      if waiting == [] {
        return None;
      }
      var job := waiting[0];
      HeadLeaves(waiting);
      active := active + {job};
      waiting := waiting[1..];
      waitingIds := waitingIds - {job};
      next := Some(job);
    }

    method OnJobReachedTerminalState(job: JobId) returns (r: Outcome)
      requires Valid()
      modifies this
      ensures Valid() && waiting == old(waiting) && active == old(active) - {job}
      ensures r == if job in old(active) then Done else Threw(LogicError)
    {
      if job !in active {
        return Threw(LogicError);
      }
      active := active - {job};
      r := Done;
    }

    /** Remove one id from the middle of the queue; the others keep their order. */
    method CancelQueuedJob(job: JobId) returns (found: bool)
      requires Valid()
      modifies this
      ensures Valid() && active == old(active)
      ensures found == (job in old(waiting)) && waiting == Remove(old(waiting), job)
    {
      if job !in waitingIds {
        Absent(waiting, job);
        return false;
      }
      var i := Find(waiting, job);
      RemoveAt(waiting, i, job);
      OneLeaves(waiting, i);
      waiting := waiting[..i] + waiting[i + 1..];
      waitingIds := waitingIds - {job};
      found := true;
    }

    /** `std::find` in the queue. */
    static method Find(q: seq<JobId>, j: JobId) returns (i: nat)
      requires j in q
      ensures i < |q| && q[i] == j && j !in q[..i]
    {
      i := 0;
      while q[i] != j
        invariant i < |q| && j !in q[..i] && j in q[i..]
        decreases |q| - i
      {
        i := i + 1;
      }
    }

    static lemma {:induction false} RemoveAt(q: seq<JobId>, i: nat, j: JobId)
      requires i < |q| && q[i] == j && j !in q[..i]
      ensures Remove(q, j) == q[..i] + q[i + 1..]
    {
      if i > 0 {
        assert q[0] in q[..i];
        assert q[1..][..i - 1] == q[..i][1..];
        RemoveAt(q[1..], i - 1, j);
        assert q[..i] + q[i + 1..] == [q[0]] + (q[1..][..i - 1] + q[1..][i..]);
      }
    }

    static lemma {:induction false} Absent(q: seq<JobId>, j: JobId)
      requires j !in q
      ensures Remove(q, j) == q
    {
      if q != [] {
        Absent(q[1..], j);
      }
    }

    static lemma OneLeaves(q: seq<JobId>, i: nat)
      requires i < |q| && Distinct(q)
      ensures var r := q[..i] + q[i + 1..]; Distinct(r) && forall j :: j in r <==> j in q && j != q[i]
    {
      var r := q[..i] + q[i + 1..];
      assert forall x | 0 <= x < |r| :: r[x] == q[if x < i then x else x + 1];
      forall j | j in q && j != q[i]
        ensures j in r
      {
        var x :| 0 <= x < |q| && q[x] == j;
        assert r[if x < i then x else x - 1] == j;
      }
    }
  }
}
