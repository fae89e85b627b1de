/** internal/core/dispatcher.go: the delay heap, ordered by RunAt with Go's container/heap. */
module DelayHeaps {
  import opened Wrappers
  import opened Jobs

  /** Go divides toward zero: the root is its own parent. */
  function Parent(k: nat): nat {
    if k == 0 then 0 else (k - 1) / 2
  }

  predicate Less(h: seq<Job>, i: int, j: int)
    requires 0 <= i < |h| && 0 <= j < |h|
  {
    h[i].runAt < h[j].runAt
  }

  /** Entry k does not run before its parent. */
  predicate Ordered(h: seq<Job>, k: nat)
    requires k < |h|
  {
    h[Parent(k)].runAt <= h[k].runAt
  }

  ghost predicate IsHeap(h: seq<Job>) {
    forall k :: 0 <= k < |h| ==> Ordered(h, k)
  }

  function Swapped(h: seq<Job>, i: int, j: int): seq<Job>
    requires 0 <= i < |h| && 0 <= j < |h|
  {
    h[i := h[j]][j := h[i]]
  }

  lemma SwapKeeps(h: seq<Job>, i: int, j: int)
    requires 0 <= i < |h| && 0 <= j < |h|
    ensures multiset(Swapped(h, i, j)) == multiset(h)
  {
  }

  /** Only entry j may run before its parent, and its children do not run before j's parent. */
  ghost predicate HeapButUp(h: seq<Job>, j: nat)
  {
    && j < |h|
    && (forall k :: 0 <= k < |h| && k != j ==> Ordered(h, k))
    && (j > 0 ==> forall k :: 0 < k < |h| && Parent(k) == j ==> h[Parent(j)].runAt <= h[k].runAt)
  }

  /** Only the children of entry i may run before i. */
  ghost predicate HeapButDown(h: seq<Job>, n: nat, i: nat)
  {
    && i < n <= |h|
    && (forall k :: 0 < k < n && Parent(k) != i ==> Ordered(h, k))
    && (i > 0 ==> forall k :: 0 < k < n && Parent(k) == i ==> h[Parent(i)].runAt <= h[k].runAt)
  }

  /** Like HeapButDown, but entry i itself may also run before its parent. */
  ghost predicate HeapButBoth(h: seq<Job>, n: nat, i: nat)
  {
    && i < n <= |h|
    && (forall k :: 0 < k < n && Parent(k) != i && k != i ==> Ordered(h, k))
    && (i > 0 ==> forall k :: 0 < k < n && Parent(k) == i ==> h[Parent(i)].runAt <= h[k].runAt)
  }

  /** The root of a heap runs first. */
  lemma {:induction false} RootIsFirst(h: seq<Job>, k: nat)
    requires IsHeap(h) && k < |h|
    ensures h[0].runAt <= h[k].runAt
  {
    assert Ordered(h, k);
    if k > 0 {
      RootIsFirst(h, Parent(k));
    }
  }

  /** The first n entries are ordered, except perhaps entry i. */
  ghost predicate OrderedBut(h: seq<Job>, n: nat, i: nat) {
    n <= |h| && forall k :: 0 < k < n && k != i ==> Ordered(h, k)
  }

  class DelayHeap {
    var h: seq<Job>

    ghost predicate Valid()
      reads this
    {
      IsHeap(h)
    }

    ghost function Contents(): multiset<Job>
      reads this
    {
      multiset(h)
    }

    constructor ()
      ensures Valid() && h == []
    {
      h := [];
    }

    method Swap(i: nat, j: nat)
      requires i < |h| && j < |h|
      modifies this
      ensures h == Swapped(old(h), i, j) && Contents() == old(Contents())
    {
      SwapKeeps(h, i, j);
      h := h[i := h[j]][j := h[i]];
    }

    method Up(start: nat)
      requires HeapButUp(h, start)
      modifies this
      ensures Valid() && Contents() == old(Contents())
    {
      var j := start;
      while true
        invariant HeapButUp(h, j) && Contents() == old(Contents())
        decreases j
      {
        var i := Parent(j);
        if i == j || !Less(h, j, i) {
          break;
        }
        UpStep(h, j);
        Swap(i, j);
        j := i;
      }
    }

    /** The child of entry i that runs earlier. */
    method EarlierChild(i: nat, n: nat) returns (j: nat)
      requires 2 * i + 1 < n <= |h|
      ensures 0 < j < n && Parent(j) == i
      ensures forall k :: 0 < k < n && Parent(k) == i ==> h[j].runAt <= h[k].runAt
    {
      j := 2 * i + 1;
      if j + 1 < n && Less(h, j + 1, j) {
        j := j + 1;
      }
      forall k | 0 < k < n && Parent(k) == i ensures k == 2 * i + 1 || k == 2 * i + 2 {
      }
    }

    /** Sift entry start down within the first n entries; moved tells whether it went anywhere. */
    method Down(start: nat, n: nat) returns (moved: bool)
      requires HeapButBoth(h, n, start)
      modifies this
      ensures Contents() == old(Contents()) && |h| == |old(h)| && h[n..] == old(h)[n..]
      ensures moved ==> OrderedBut(h, n, 0)
      ensures !moved ==> h == old(h) && OrderedBut(h, n, start)
    {
      hide HeapButDown, OrderedBut, Ordered, Swapped;
      var i := start;
      while true
        invariant start <= i < n <= |h| && |h| == |old(h)|
        invariant Contents() == old(Contents()) && h[n..] == old(h)[n..]
        invariant HeapButBoth(h, n, i)
        invariant if i == start then h == old(h) else HeapButDown(h, n, i)
        decreases n - i
      {
        if 2 * i + 1 >= n {
          DownDone(h, n, i);
          break;
        }
        var j := EarlierChild(i, n);
        if !Less(h, j, i) {
          DownDone(h, n, i);
          break;
        }
        DownStep(h, n, i, j);
        SwapBelow(h, i, j, n);
        Swap(i, j);
        i := j;
      }
      moved := i > start;
    }

    method Push(e: Job)
      requires Valid()
      modifies this
      ensures Valid() && Contents() == old(Contents()) + multiset{e}
    {
      h := h + [e];
      forall k | 0 <= k < |h| && k != |h| - 1 ensures Ordered(h, k) {
        assert Ordered(old(h), k);
      }
      Up(|h| - 1);
    }

    /** Remove the entry at position i, wherever it is. */
    method RemoveAt(i: nat) returns (e: Job)
      requires Valid() && i < |h|
      modifies this
      ensures Valid() && e == old(h)[i] && old(Contents()) == Contents() + multiset{e}
    {
      hide Swapped, Ordered, OrderedBut, HeapButBoth, HeapButUp, IsHeap;
      var n := |h| - 1;
      if n != i {
        RemoveStep(h, i);
        SwapEnds(h, i);
        Swap(i, n);
        var moved := Down(i, n);
        e := h[n];
        assert h[n..][0] == e;
        Shrink(h);
        if !moved {
          UpAfterDown(h, i);
          h := h[..n];
          Up(i);
        } else {
          HeapPrefix(h, n);
          h := h[..n];
        }
      } else {
        e := h[n];
        Shrink(h);
        DropLast(h);
        h := h[..n];
      }
    }

    /** Remove an entry that runs first. */
    method Pop() returns (e: Job)
      requires Valid() && h != []
      modifies this
      ensures Valid() && e == old(h)[0] && old(Contents()) == Contents() + multiset{e}
      ensures forall k :: 0 <= k < |old(h)| ==> e.runAt <= old(h)[k].runAt
    {
      forall k | 0 <= k < |h| ensures h[0].runAt <= h[k].runAt {
        RootIsFirst(h, k);
      }
      e := RemoveAt(0);
    }
  }

  /** Moving entry j above its parent passes the problem to the parent's place. */
  lemma UpStep(h: seq<Job>, j: nat)
    requires HeapButUp(h, j) && j > 0 && h[j].runAt < h[Parent(j)].runAt
    ensures HeapButUp(Swapped(h, Parent(j), j), Parent(j))
  {
    var i := Parent(j);
    var g := Swapped(h, i, j);
    assert Ordered(h, i);
    forall k | 0 <= k < |g| && k != i ensures Ordered(g, k) {
      assert k != j ==> Ordered(h, k);
    }
    forall k | 0 < k < |g| && Parent(k) == i ensures g[Parent(i)].runAt <= g[k].runAt {
      assert k != j ==> Ordered(h, k);
    }
  }

  /** Moving the earlier child j above entry i passes the problem to the child's place. */
  lemma DownStep(h: seq<Job>, n: nat, i: nat, j: nat)
    requires HeapButBoth(h, n, i)
    requires 0 < j < n && Parent(j) == i && h[j].runAt < h[i].runAt
    requires forall k :: 0 < k < n && Parent(k) == i ==> h[j].runAt <= h[k].runAt
    ensures HeapButDown(Swapped(h, i, j), n, j) && HeapButBoth(Swapped(h, i, j), n, j)
  {
    var g := Swapped(h, i, j);
    forall k | 0 < k < n && Parent(k) != j ensures Ordered(g, k) {
      assert k != i && Parent(k) != i ==> Ordered(h, k);
    }
    forall k | 0 < k < n && Parent(k) == j ensures g[Parent(j)].runAt <= g[k].runAt {
      assert Ordered(h, k);
    }
  }

  /** With its children in order, entry i is the only one that may be out of place, and not at all once it
      has come down from above. */
  lemma DownDone(h: seq<Job>, n: nat, i: nat)
    requires HeapButBoth(h, n, i)
    requires forall k :: 0 < k < n && Parent(k) == i ==> h[i].runAt <= h[k].runAt
    ensures OrderedBut(h, n, i)
    ensures HeapButDown(h, n, i) ==> OrderedBut(h, n, 0)
  {
  }

  lemma SwapBelow(h: seq<Job>, i: nat, j: nat, n: nat)
    requires i < n <= |h| && j < n
    ensures |Swapped(h, i, j)| == |h| && Swapped(h, i, j)[n..] == h[n..]
  {
  }

  lemma RemoveStep(h: seq<Job>, i: nat)
    requires IsHeap(h) && i < |h| - 1
    ensures HeapButBoth(Swapped(h, i, |h| - 1), |h| - 1, i)
  {
    var n := |h| - 1;
    var g := Swapped(h, i, n);
    forall k | 0 < k < n && Parent(k) != i && k != i ensures Ordered(g, k) {
      assert Ordered(h, k);
    }
    if i > 0 {
      assert Ordered(h, i);
      forall k | 0 < k < n && Parent(k) == i ensures g[Parent(i)].runAt <= g[k].runAt {
        assert Ordered(h, k);
      }
    }
  }

  lemma Shrink(h: seq<Job>)
    requires h != []
    ensures multiset(h) == multiset(h[..|h| - 1]) + multiset{h[|h| - 1]}
  {
    assert h == h[..|h| - 1] + [h[|h| - 1]];
  }

  lemma UpAfterDown(h: seq<Job>, i: nat)
    requires |h| > 0 && HeapButBoth(h, |h| - 1, i) && OrderedBut(h, |h| - 1, i)
    ensures HeapButUp(h[..|h| - 1], i)
  {
    var g := h[..|h| - 1];
    forall k | 0 <= k < |g| && k != i ensures Ordered(g, k) {
      assert k > 0 ==> Ordered(h, k);
    }
  }

  lemma SwapEnds(h: seq<Job>, i: nat)
    requires i < |h|
    ensures |Swapped(h, i, |h| - 1)| == |h| && Swapped(h, i, |h| - 1)[|h| - 1..] == [h[i]]
  {
  }

  lemma HeapPrefix(h: seq<Job>, n: nat)
    requires OrderedBut(h, n, 0)
    ensures IsHeap(h[..n])
  {
    forall k | 0 <= k < n ensures Ordered(h[..n], k) {
      assert k > 0 ==> Ordered(h, k);
    }
  }

  lemma DropLast(h: seq<Job>)
    requires IsHeap(h) && h != []
    ensures IsHeap(h[..|h| - 1])
  {
    HeapPrefix(h, |h| - 1);
  }
}
