/** What the protocol rules mean for a log read as a plain sequence of records. */
module Histories {
  import opened Jobs
  import opened Kernel
  import opened Deadlines
  import opened Ledger

  function Trace(log: Log): seq<Record> {
    match log
    case Empty => []
    case Then(earlier, last) => Trace(earlier) + [last]
  }

  function Upto(log: Log, n: nat): (r: Log)
    ensures n <= |Trace(log)| ==> Trace(r) == Trace(log)[..n]
  {
    if n >= |Trace(log)| then log else Upto(log.earlier, n)
  }

  /** Each record was allowed by what came before it. */
  lemma {:induction false} AllowedAt(log: Log, i: nat)
    requires Good(log) && i < |Trace(log)|
    ensures Good(Upto(log, i)) && Allowed(Of(Upto(log, i)), Trace(log)[i])
  {
    if i < |Trace(log)| - 1 {
      AllowedAt(log.earlier, i);
    }
  }

  /** The ledger knows every record. */
  predicate Entered(l: Ledger, r: Record) {
    match r
    case Submitted(j) => j in l.submitted
    case Withdrawn(j) => j in l.withdrawn
    case Taken(j) => j in l.taken
    case Started(j, _, _, _) => j in l.running
    case Signalled(j, SigTerm, _, a, _, _) => a.Sent? ==> j in l.terminated
    case Signalled(j, SigKill, _, a, _, _) => a.KillInterrupted? || j in l.killed
    case Reaped(j, _) => j in l.reaped
    case Refused(_) => true
    case Settled(j) => j in l.settled
    case Released(j) => j in l.released
  }

  lemma {:induction false} AllEntered(log: Log, k: nat)
    requires k < |Trace(log)|
    ensures Entered(Of(log), Trace(log)[k])
  {
    if k < |Trace(log)| - 1 {
      AllEntered(log.earlier, k);
    }
  }

  /** ... and nothing else. */
  lemma {:induction false} StartOf(log: Log, j: JobId) returns (k: nat)
    requires j in Of(log).running
    ensures k < |Trace(log)| && Trace(log)[k] == Started(j, Of(log).running[j].pid, Of(log).running[j].timeout, Of(log).running[j].at)
  {
    if log.last.Started? && log.last.job == j {
      k := |Trace(log)| - 1;
    } else {
      k := StartOf(log.earlier, j);
    }
  }

  /** A SIGTERM that was delivered. */
  predicate IsTerm(r: Record, j: JobId) {
    r.Signalled? && r.job == j && r.signal.SigTerm? && r.answer.Sent?
  }

  lemma {:induction false} TermOf(log: Log, j: JobId) returns (k: nat)
    requires j in Of(log).terminated
    ensures k < |Trace(log)| && IsTerm(Trace(log)[k], j) && Trace(log)[k].at == Of(log).terminated[j]
  {
    if IsTerm(log.last, j) {
      k := |Trace(log)| - 1;
    } else {
      k := TermOf(log.earlier, j);
    }
  }

  lemma {:induction false} RefusalOf(log: Log, j: JobId) returns (t: nat, k: nat)
    requires j in Of(log).refused
    ensures t < k < |Trace(log)| && Trace(log)[k] == Refused(j)
    ensures IsTerm(Trace(log)[t], j)
  {
    if j in Of(log.earlier).refused {
      t, k := RefusalOf(log.earlier, j);
    } else {
      t := TermOf(log.earlier, j);
      k := |Trace(log)| - 1;
    }
  }

  lemma {:induction false} SettlingOf(log: Log, j: JobId) returns (k: nat)
    requires j in Of(log).settled
    ensures k < |Trace(log)| && Trace(log)[k] == Settled(j)
  {
    if log.last == Settled(j) {
      k := |Trace(log)| - 1;
    } else {
      k := SettlingOf(log.earlier, j);
    }
  }

  lemma {:induction false} TakingOf(log: Log, j: JobId) returns (k: nat)
    requires j in Of(log).taken
    ensures k < |Trace(log)| && Trace(log)[k] == Taken(j)
  {
    if log.last == Taken(j) {
      k := |Trace(log)| - 1;
    } else {
      k := TakingOf(log.earlier, j);
    }
  }

  /** The exit status of the job's child was handed out. */
  predicate WasReaped(h: seq<Record>, j: JobId) {
    exists i | 0 <= i < |h| :: h[i].Reaped? && h[i].job == j
  }

  lemma {:induction false} SettledIsHistory(log: Log, j: JobId)
    ensures j in Of(log).settled <==> Settled(j) in Trace(log)
    ensures j in Of(log).reaped <==> WasReaped(Trace(log), j)
    ensures j in Of(log).reaped ==> Reaped(j, Of(log).reaped[j]) in Trace(log)
  {
    if log.Then? {
      SettledIsHistory(log.earlier, j);
      SnocReaped(Trace(log.earlier), log.last, j);
    }
  }

  lemma SnocReaped(g: seq<Record>, r: Record, j: JobId)
    ensures WasReaped(g + [r], j) <==> WasReaped(g, j) || (r.Reaped? && r.job == j)
  {
    var h := g + [r];
    assert forall i | 0 <= i < |g| :: h[i] == g[i];
    assert h[|g|] == r;
  }

  // ----- process ids that come back -----

  /** At `i` a job is started with the process id that `j`, started at `k`, has and has not given up. */
  predicate ReusedAt(h: seq<Record>, j: JobId, k: nat, i: nat) {
    k < i < |h| && h[k].Started? && h[k].job == j && h[i].Started? && h[i].pid == h[k].pid && Settled(j) !in h[..i]
  }

  /** The process id of `j` was given to a later job before `j` settled. */
  ghost predicate Reused(h: seq<Record>, j: JobId) {
    exists k: nat, i: nat :: ReusedAt(h, j, k, i)
  }

  /** The job was started with the process id of an earlier job that had not settled. */
  ghost predicate Reusing(h: seq<Record>, j: JobId) {
    exists a: JobId, k: nat, i: nat :: ReusedAt(h, a, k, i) && h[i].job == j
  }

  lemma {:induction false} RunningIsHistory(log: Log, j: JobId, k: nat)
    requires Good(log) && k < |Trace(log)| && Trace(log)[k].Started? && Trace(log)[k].job == j
    ensures j in Of(log).running && Of(log).running[j].pid == Trace(log)[k].pid
  {
    if k < |Trace(log)| - 1 {
      RunningIsHistory(log.earlier, j, k);
    }
  }

  lemma {:induction false} ReusedIsHistory(log: Log, j: JobId)
    requires Good(log)
    ensures j in Of(log).reused <==> Reused(Trace(log), j)
    ensures j in Of(log).reusing <==> Reusing(Trace(log), j)
  {
    if log.Then? {
      ReusedIsHistory(log.earlier, j);
      var h, g, n := Trace(log), Trace(log.earlier), |Trace(log.earlier)|;
      ReuseGrows(g, log.last);
      if log.last.Started? {
        NewReuse(log.earlier, log.last);
      }
      ReusingGrows(g, log.last, j);
    }
  }

  lemma ReusingGrows(g: seq<Record>, r: Record, j: JobId)
    ensures Reusing(g + [r], j) <==> Reusing(g, j) || (r.Started? && r.job == j && exists a: JobId, k: nat :: ReusedAt(g + [r], a, k, |g|))
  {
    var h := g + [r];
    ReuseGrows(g, r);
    if a: JobId, k: nat, i: nat :| ReusedAt(g, a, k, i) && g[i].job == j {
      assert ReusedAt(h, a, k, i) && h[i].job == j;
    }
    if a: JobId, k: nat, i: nat :| ReusedAt(h, a, k, i) && h[i].job == j {
      assert i < |g| ==> ReusedAt(g, a, k, i) && g[i].job == j;
    }
  }

  /** A longer history keeps the reuses it has; a new one ends with the new record. */
  lemma ReuseGrows(g: seq<Record>, r: Record)
    ensures forall a: JobId, k: nat, i: nat | i < |g| :: ReusedAt(g + [r], a, k, i) <==> ReusedAt(g, a, k, i)
    ensures forall a: JobId, k: nat, i: nat | ReusedAt(g + [r], a, k, i) && i >= |g| :: i == |g| && r.Started?
  {
    forall a: JobId, k: nat, i: nat | i < |g|
      ensures ReusedAt(g + [r], a, k, i) <==> ReusedAt(g, a, k, i)
    {
      assert (g + [r])[..i] == g[..i];
    }
  }

  lemma NewReuse(log: Log, r: Record)
    requires Good(log) && r.Started?
    ensures forall a :: a in Namesakes(Of(log), r.pid) <==> exists k: nat :: ReusedAt(Trace(log) + [r], a, k, |Trace(log)|)
    ensures Namesakes(Of(log), r.pid) != {} <==> exists a: JobId, k: nat :: ReusedAt(Trace(log) + [r], a, k, |Trace(log)|)
  {
    var g := Trace(log);
    assert (g + [r])[..|g|] == g;
    forall a: JobId
      ensures a in Namesakes(Of(log), r.pid) <==> exists k: nat :: ReusedAt(g + [r], a, k, |g|)
    {
      SettledIsHistory(log, a);
      if a in Namesakes(Of(log), r.pid) {
        var k := StartOf(log, a);
        assert ReusedAt(g + [r], a, k, |g|);
      }
      if k: nat :| ReusedAt(g + [r], a, k, |g|) {
        RunningIsHistory(log, a, k);
      }
    }
    if a :| a in Namesakes(Of(log), r.pid) {
      var k: nat :| ReusedAt(g + [r], a, k, |g|);
    }
    if a: JobId, k: nat :| ReusedAt(g + [r], a, k, |g|) {
      assert a in Namesakes(Of(log), r.pid);
    }
  }

  /** A signal that got through reached its own job's group as long as the exit of the job's child was not handed
      out.  After that a group of ours that it reached is one launched with the job's process id: its own exactly if
      the id was not given to a later job, and that of a later job otherwise. */
  lemma SignalsAreAimed(log: Log, i: nat)
    requires Good(log) && i < |Trace(log)|
    requires Trace(log)[i].Signalled? && Trace(log)[i].answer.Sent?
    ensures var h := Trace(log); var j := h[i].job;
      && (!WasReaped(h[..i], j) ==> h[i].target == Own(j))
      && (h[i].target.Own? ==>
            && (exists k, t :: 0 <= k < i && 0 <= t < i && h[k].Started? && h[k].job == j &&
                  h[t].Started? && h[t].job == h[i].target.job && h[t].pid == h[k].pid && j <= h[t].job)
            && (h[i].target == Own(j) <==> !Reused(h[..i], j)))
  {
    AllowedAt(log, i);
    var before := Upto(log, i);
    var j := Trace(log)[i].job;
    assert Trace(before) == Trace(log)[..i];
    ReusedIsHistory(before, j);
    SettledIsHistory(before, j);
    if Trace(log)[i].target.Own? {
      var k := StartOf(before, j);
      var t := StartOf(before, Trace(log)[i].target.job);
      assert Trace(before)[k] == Trace(log)[k] && Trace(before)[t] == Trace(log)[t];
    }
  }

  // ----- the protocol, record by record -----

  /** A SIGTERM goes to a started, unsettled job; for a timeout, not before the timeout has run
      from the moment the job became RUNNING. */
  lemma TermFollowsStart(log: Log, i: nat)
    requires Good(log) && i < |Trace(log)|
    requires var r := Trace(log)[i]; r.Signalled? && r.signal.SigTerm?
    ensures var h := Trace(log);
      exists k :: 0 <= k < i && h[k].Started? && h[k].job == h[i].job && h[k].at <= h[i].at &&
        (h[i].reason.OnTimeout? ==> h[k].timeout.Some? && h[k].at + ToNs(h[k].timeout.value) <= h[i].at)
  {
    AllowedAt(log, i);
    var k := StartOf(Upto(log, i), Trace(log)[i].job);
    assert Trace(Upto(log, i))[k] == Trace(log)[k];
  }

  /** A SIGKILL follows a delivered SIGTERM by at least the grace period, unless setting the
      grace deadline was refused in between. */
  lemma KillFollowsTerm(log: Log, i: nat)
    requires Good(log) && i < |Trace(log)|
    requires var r := Trace(log)[i]; r.Signalled? && r.signal.SigKill?
    ensures var h := Trace(log);
      exists t :: 0 <= t < i && IsTerm(h[t], h[i].job) &&
        (h[t].at + GRACE_MS * NS_PER_MS <= h[i].at || exists k :: t < k < i && h[k] == Refused(h[i].job))
  {
    AllowedAt(log, i);
    var j := Trace(log)[i].job;
    var before := Upto(log, i);
    assert Trace(before) == Trace(log)[..i];
    if Trace(log)[i].reason.OnGrace? {
      var t := TermOf(before, j);
      assert Trace(before)[t] == Trace(log)[t];
    } else {
      var t, k := RefusalOf(before, j);
      assert Trace(before)[t] == Trace(log)[t] && Trace(before)[k] == Trace(log)[k];
    }
  }

  /** Events that happen at most once to a job. */
  predicate SameMilestone(a: Record, b: Record) {
    && a.job == b.job
    && match a
       case Signalled(_, SigTerm, _, Sent, _, _) => b.Signalled? && b.signal.SigTerm?
       case Signalled(_, SigKill, _, answer, _, _) => !answer.KillInterrupted? && b.Signalled? && b.signal.SigKill?
       case Submitted(_) => b.Submitted?
       case Withdrawn(_) => b.Withdrawn? || b.Taken?
       case Taken(_) => b.Taken? || b.Withdrawn?
       case Started(_, _, _, _) => b.Started?
       case Reaped(_, _) => b.Reaped? || b.Started?
       case Settled(_) => b.Settled? || b.Signalled? || b.Started?
       case Released(_) => b.Released?
       case _ => false
  }

  /** One SIGTERM gets through, one SIGKILL is answered, no signal follows settlement, a job is
      either withdrawn or taken and that once, and its slot is released once. */
  lemma AtMostOnce(log: Log, k: nat, i: nat)
    requires Good(log) && k < i < |Trace(log)|
    ensures !SameMilestone(Trace(log)[k], Trace(log)[i])
  {
    AllowedAt(log, i);
    assert Trace(Upto(log, i))[k] == Trace(log)[k];
    AllEntered(Upto(log, i), k);
  }

  /** Jobs are submitted, and later taken, in strictly increasing order of JobId. */
  lemma FirstComeFirstServed(log: Log, k: nat, i: nat)
    requires Good(log) && k < i < |Trace(log)|
    ensures var h := Trace(log);
      (h[k].Taken? && h[i].Taken?) || (h[k].Submitted? && h[i].Submitted?) ==> h[k].job < h[i].job
  {
    AllowedAt(log, i);
    assert Trace(Upto(log, i))[k] == Trace(log)[k];
    AllEntered(Upto(log, i), k);
  }

  /** A slot is released only after its job was taken and then settled. */
  lemma ReleaseFollowsSettlement(log: Log, i: nat)
    requires Good(log) && i < |Trace(log)| && Trace(log)[i].Released?
    ensures var h := Trace(log); var j := h[i].job;
      exists t, k :: 0 <= t < k < i && h[t] == Taken(j) && h[k] == Settled(j)
  {
    AllowedAt(log, i);
    var j := Trace(log)[i].job;
    var before := Upto(log, i);
    assert Trace(before) == Trace(log)[..i];
    var k := SettlingOf(before, j);
    assert Trace(before)[k] == Trace(log)[k];
    AllowedAt(log, k);
    var t := TakingOf(Upto(log, k), j);
    assert Trace(Upto(log, k))[t] == Trace(log)[t];
  }
}
