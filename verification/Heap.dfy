/** The priority queue of deadlines: a binary heap in a sequence, as `std::priority_queue` keeps
    it in a vector, under the order of include/runnerd/timeout_manager.h.

    Entries of the same job with the same deadline are not ordered among themselves.  The
    contracts promise only that the top is some earliest entry, so what is proved with them
    holds for every way of breaking such ties. */
module Heap {
  import opened Jobs
  import opened Kernel

  datatype Entry = Entry(deadline: Time, job: JobId, generation: nat)

  /** `a` may come out before `b`: earlier deadline, or the same deadline and no larger JobId. */
  predicate NotAfter(a: Entry, b: Entry) {
    a.deadline < b.deadline || (a.deadline == b.deadline && a.job <= b.job)
  }

  function Parent(i: nat): (p: nat)
    requires i > 0
    ensures p < i
  {
    (i - 1) / 2
  }

  ghost predicate IsHeap(s: seq<Entry>) {
    forall i | 0 < i < |s| :: NotAfter(s[Parent(i)], s[i])
  }

  lemma {:induction false} TopAt(s: seq<Entry>, i: nat)
    requires IsHeap(s) && i < |s|
    ensures NotAfter(s[0], s[i])
  {
    if i > 0 {
      TopAt(s, Parent(i));
    }
  }

  lemma TopIsEarliest(s: seq<Entry>)
    requires IsHeap(s) && s != []
    ensures forall e | e in s :: NotAfter(s[0], e)
  {
    forall e | e in s
      ensures NotAfter(s[0], e)
    {
      var i :| 0 <= i < |s| && s[i] == e;
      TopAt(s, i);
    }
  }

  function Swap(s: seq<Entry>, i: nat, j: nat): (r: seq<Entry>)
    requires i < |s| && j < |s|
    ensures multiset(r) == multiset(s) && |r| == |s|
  {
    s[i := s[j]][j := s[i]]
  }

  /** A heap except that the entry at `i` may be earlier than its parent. */
  ghost predicate HeapAbove(s: seq<Entry>, i: nat) {
    && i < |s|
    && (forall k | 0 < k < |s| && k != i :: NotAfter(s[Parent(k)], s[k]))
    && (forall k | 0 < k < |s| && Parent(k) == i && i > 0 :: NotAfter(s[Parent(i)], s[k]))
  }

  lemma RiseStep(s: seq<Entry>, i: nat)
    requires HeapAbove(s, i) && i > 0 && !NotAfter(s[Parent(i)], s[i])
    ensures HeapAbove(Swap(s, i, Parent(i)), Parent(i))
  {
    var p := Parent(i);
    var r := Swap(s, i, p);
    forall k | 0 < k < |r| && k != p
      ensures NotAfter(r[Parent(k)], r[k])
    {
      if k != i {
        assert NotAfter(s[Parent(k)], s[k]);
      }
    }
    forall k | 0 < k < |r| && Parent(k) == p && p > 0
      ensures NotAfter(r[Parent(p)], r[k])
    {
      assert NotAfter(s[Parent(p)], s[p]);
      if k != i {
        assert NotAfter(s[Parent(k)], s[k]);
      }
    }
  }

  lemma RiseDone(s: seq<Entry>, i: nat)
    requires HeapAbove(s, i) && (i > 0 ==> NotAfter(s[Parent(i)], s[i]))
    ensures IsHeap(s)
  {
  }

  lemma Appended(s: seq<Entry>, e: Entry)
    requires IsHeap(s)
    ensures HeapAbove(s + [e], |s|)
  {
  }

  method Push(s: seq<Entry>, e: Entry) returns (r: seq<Entry>)
    requires IsHeap(s)
    ensures IsHeap(r) && multiset(r) == multiset(s) + multiset{e}
  {
    hide HeapAbove, IsHeap;
    Appended(s, e);
    r := s + [e];
    var i: nat := |s|;
    while i > 0 && !NotAfter(r[Parent(i)], r[i])
      invariant i < |r| && multiset(r) == multiset(s) + multiset{e} && HeapAbove(r, i)
    {
      RiseStep(r, i);
      r := Swap(r, i, Parent(i));
      i := Parent(i);
    }
    RiseDone(r, i);
  }

  /** A heap except that the entry at `i` may be later than its children. */
  ghost predicate HeapBelow(s: seq<Entry>, i: nat) {
    && i < |s|
    && (forall k | 0 < k < |s| && Parent(k) != i :: NotAfter(s[Parent(k)], s[k]))
    && (forall k | 0 < k < |s| && Parent(k) == i && i > 0 :: NotAfter(s[Parent(i)], s[k]))
  }

  lemma SiftStep(s: seq<Entry>, i: nat, child: nat)
    requires HeapBelow(s, i) && 0 < child < |s| && Parent(child) == i && !NotAfter(s[i], s[child])
    requires forall k | 0 < k < |s| && Parent(k) == i :: NotAfter(s[child], s[k])
    ensures HeapBelow(Swap(s, i, child), child)
  {
    var r := Swap(s, i, child);
    forall k | 0 < k < |r| && Parent(k) != child
      ensures NotAfter(r[Parent(k)], r[k])
    {
      if k == i {
        assert NotAfter(s[Parent(i)], s[child]);
      }
    }
  }

  /** The child that may come out first. */
  function FirstChild(s: seq<Entry>, i: nat): (c: nat)
    requires 2 * i + 1 < |s|
    ensures 0 < c < |s| && Parent(c) == i
    ensures forall k | 0 < k < |s| && Parent(k) == i :: NotAfter(s[c], s[k])
  {
    var c := 2 * i + 1;
    assert forall k | 0 < k < |s| && Parent(k) == i :: k == 2 * i + 1 || k == 2 * i + 2;
    if c + 1 < |s| && !NotAfter(s[c], s[c + 1]) then c + 1 else c
  }

  lemma SiftDone(s: seq<Entry>, i: nat)
    requires HeapBelow(s, i) && (2 * i + 1 < |s| ==> NotAfter(s[i], s[FirstChild(s, i)]))
    ensures IsHeap(s)
  {
  }

  method SiftDown(s: seq<Entry>) returns (r: seq<Entry>)
    requires s != [] && HeapBelow(s, 0)
    ensures IsHeap(r) && multiset(r) == multiset(s)
  {
    hide HeapBelow, IsHeap;
    r := s;
    var i := 0;
    while 2 * i + 1 < |r| && !NotAfter(r[i], r[FirstChild(r, i)])
      invariant i < |r| == |s| && multiset(r) == multiset(s) && HeapBelow(r, i)
      decreases |s| - i
    {
      var child := FirstChild(r, i);
      SiftStep(r, i, child);
      r := Swap(r, i, child);
      i := child;
    }
    SiftDone(r, i);
  }

  method Pop(s: seq<Entry>) returns (r: seq<Entry>)
    requires IsHeap(s) && s != []
    ensures IsHeap(r) && multiset(s) == multiset(r) + multiset{s[0]}
  {
    var n := |s| - 1;
    if n == 0 {
      r := [];
    } else {
      LastOnTop(s);
      r := SiftDown([s[n]] + s[1..n]);
    }
  }

  lemma LastOnTop(s: seq<Entry>)
    requires IsHeap(s) && |s| > 1
    ensures var r := [s[|s| - 1]] + s[1..|s| - 1]; HeapBelow(r, 0) && multiset(s) == multiset(r) + multiset{s[0]}
  {
    var n := |s| - 1;
    assert s == [s[0]] + s[1..n] + [s[n]];
  }
}
