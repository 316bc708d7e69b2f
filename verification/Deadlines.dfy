/** One-shot deadlines as a plain map from job to time: the meaning of the timeout manager. */
module Deadlines {
  import opened Jobs
  import opened Kernel

  type Deadlines = map<JobId, Time>

  /** Deadline first, then JobId. */
  predicate Before(t: Deadlines, i: JobId, j: JobId)
    requires i in t && j in t
  {
    t[i] < t[j] || (t[i] == t[j] && i <= j)
  }

  ghost predicate IsFirst(t: Deadlines, j: JobId) {
    j in t && forall i | i in t :: Before(t, j, i)
  }

  lemma {:induction false} FirstExists(t: Deadlines)
    requires t != map[]
    ensures exists j :: IsFirst(t, j)
    decreases |t|
  {
    var j :| j in t;
    var rest := t - {j};
    assert forall x | x in t :: x == j || x in rest;
    if rest == map[] {
      assert IsFirst(t, j);
    } else {
      FirstExists(rest);
      var i :| IsFirst(rest, i);
      assert forall x | x in rest :: Before(rest, i, x);
      if Before(t, i, j) {
        assert IsFirst(t, i);
      } else {
        assert IsFirst(t, j);
      }
    }
  }

  ghost function First(t: Deadlines): (j: JobId)
    requires t != map[]
    ensures IsFirst(t, j)
  {
    FirstExists(t);
    var j :| IsFirst(t, j);
    j
  }

  /** The jobs whose deadline has passed, earliest first. */
  ghost function Due(t: Deadlines, now: Time): (r: seq<JobId>)
    ensures forall j :: j in r <==> j in t && t[j] <= now
    decreases |t|
  {
    if t == map[] then [] else
      var j := First(t);
      if now < t[j] then [] else [j] + Due(t - {j}, now)
  }

  /** Each due job appears once, in order of deadline and then JobId. */
  ghost predicate Ordered(t: Deadlines, r: seq<JobId>) {
    && (forall j | j in r :: j in t)
    && (forall x, y | 0 <= x < y < |r| :: r[x] != r[y] && Before(t, r[x], r[y]))
  }

  lemma {:induction false} DueOrdered(t: Deadlines, now: Time)
    ensures Ordered(t, Due(t, now))
    decreases |t|
  {
    if t != map[] && t[First(t)] <= now {
      var j := First(t);
      DueOrdered(t - {j}, now);
      assert Due(t, now) == [j] + Due(t - {j}, now);
      FirstThenRest(t, j, Due(t - {j}, now));
    }
  }

  lemma FirstThenRest(t: Deadlines, j: JobId, rest: seq<JobId>)
    requires IsFirst(t, j) && Ordered(t - {j}, rest)
    ensures Ordered(t, [j] + rest)
  {
    var all := [j] + rest;
    assert forall i | i in rest :: i in t && i != j;
    forall x, y | 0 <= x < y < |all|
      ensures all[x] != all[y] && Before(t, all[x], all[y])
    {
      assert all[y] == rest[y - 1] && all[y] in rest;
      if x > 0 {
        assert all[x] == rest[x - 1] && all[x] in rest;
      }
    }
  }

  /** A list with the right members in the right order is the only one. */
  lemma {:induction false} DueUnique(t: Deadlines, now: Time, r: seq<JobId>)
    requires Ordered(t, r)
    requires forall j :: j in r <==> j in t && t[j] <= now
    ensures r == Due(t, now)
    decreases |t|
  {
    if t == map[] || now < t[First(t)] {
      if r != [] {
        assert r[0] in r;
      }
    } else {
      var j := First(t);
      assert j in r;
      var x :| 0 <= x < |r| && r[x] == j;
      assert r[0] in r && Before(t, j, r[0]);
      assert x == 0;
      var rest := r[1..];
      assert r == [j] + rest;
      forall i
        ensures i in rest <==> i in t - {j} && (t - {j})[i] <= now
      {
        if i in rest {
          var y :| 0 <= y < |rest| && rest[y] == i;
          assert r[y + 1] == i && r[0] != r[y + 1];
        }
        if i in t - {j} && t[i] <= now {
          assert i in r && i != r[0];
        }
      }
      assert Ordered(t - {j}, rest) by {
        forall a, b | 0 <= a < b < |rest|
          ensures rest[a] != rest[b] && rest[a] in t - {j} && rest[b] in t - {j} && Before(t - {j}, rest[a], rest[b])
        {
          assert r[a + 1] == rest[a] && r[b + 1] == rest[b];
          assert rest[a] in rest && rest[b] in rest;
        }
      }
      DueUnique(t - {j}, now, rest);
    }
  }

  /** What is left when the due jobs are taken out. */
  function Later(t: Deadlines, now: Time): Deadlines {
    map j | j in t && now < t[j] :: t[j]
  }

  /** The timer setting for the earliest deadline: at the deadline, but never in the past or present. */
  ghost function TimerFor(t: Deadlines, now: Time): Timer {
    if t == map[] then Disarmed
    else
      var d := t[First(t)];
      Armed(if now < d then d else now + 1, now)
  }

  /** The timer fires at the earliest deadline; if that has passed already, one nanosecond from now. */
  lemma TimerIsExact(t: Deadlines, now: Time)
    ensures t == map[] <==> TimerFor(t, now).Disarmed?
    ensures t != map[] ==> var fireAt := TimerFor(t, now).fireAt;
      && now < fireAt
      && (forall j | j in t :: fireAt <= t[j] || fireAt == now + 1)
      && exists j :: j in t && (fireAt == t[j] || (t[j] <= now && fireAt == now + 1))
  {
    if t != map[] {
      assert IsFirst(t, First(t));
    }
  }

  /** The clock is read only when there is a deadline to wait for. */
  ghost function ArmFor(os: Os, t: Deadlines): Os {
    var os := if t == map[] then os else Tick(os);
    SetTimer(os, TimerFor(t, os.now))
  }

  function ToNs(ms: int): Time {
    if ms <= 0 then 0 else ms * NS_PER_MS
  }
}
