/**
 * The frontier queue of a shortest-path search: an array-backed binary
 * min-heap of path records ordered by their cumulative `total`.
 *
 * Insertion appends and sifts the new record up towards the root with a
 * loop that never exits early; removal deletes position 0 and shifts the
 * rest down, with no sift-down, so it can leave the heap out of order.
 */
module PathHeaps {
  import opened Wrappers

  /** A graph vertex. Its class is not part of this model: only its identity matters here. */
  datatype Vertex = Vertex(id: int)

  /** A frontier record: cumulative cost, destination and the record of the previous hop. */
  datatype PathDS = PathDS(total: int, destination: Vertex, previous: Option<PathDS>)

  /** Position of the parent of heap position `i`. */
  function Parent(i: nat): (p: nat)
    requires i > 0
    ensures p < i
  {
    (i - 1) / 2
  }

  /** Every record's total is at least its parent's. */
  predicate IsMinHeap(h: seq<PathDS>) {
    forall i :: 0 < i < |h| ==> h[Parent(i)].total <= h[i].total
  }

  /** `i` lies on the path from position `c` up to the root (`c` itself included). */
  predicate OnPath(c: nat, i: nat)
    decreases c
  {
    i == c || (c > 0 && OnPath(Parent(c), i))
  }

  /** The two records at positions `i` and `j` trade places. */
  function Swap(h: seq<PathDS>, i: nat, j: nat): seq<PathDS>
    requires i < |h| && j < |h|
  {
    h[i := h[j]][j := h[i]]
  }

  /**
   * The sift-up loop of `enQueue` from position `c`: at every level the record
   * at `c` is swapped with its parent when strictly cheaper, and the walk moves
   * on to the parent whether or not a swap happened, until it reaches the root.
   */
  function SiftUp(h: seq<PathDS>, c: nat): (r: seq<PathDS>)
    requires c < |h|
    ensures |r| == |h|
    decreases c
  {
    if c == 0 then h
    else
      var p := Parent(c);
      SiftUp(if h[c].total < h[p].total then Swap(h, p, c) else h, p)
  }

  /** The contents after `enQueue(key)`: append, then sift up from the new leaf. */
  function Enqueued(h: seq<PathDS>, key: PathDS): (r: seq<PathDS>)
    ensures |r| == |h| + 1
  {
    SiftUp(h + [key], |h|)
  }

  /** The heap obtained by enqueuing `keys` one after the other into an empty queue. */
  function Build(keys: seq<PathDS>): (h: seq<PathDS>)
    ensures |h| == |keys|
    decreases |keys|
  {
    if keys == [] then [] else Enqueued(Build(keys[..|keys| - 1]), keys[|keys| - 1])
  }

  /** Heap order holds everywhere except possibly between `c` and its parent,
      and `c`'s parent is no more costly than `c`'s children. */
  predicate HeapExcept(h: seq<PathDS>, c: nat)
    requires c < |h|
  {
    && (forall i :: 0 < i < |h| && i != c ==> h[Parent(i)].total <= h[i].total)
    && (c > 0 ==> forall i :: 0 < i < |h| && Parent(i) == c ==> h[Parent(c)].total <= h[i].total)
  }

  lemma SwapPermutes(h: seq<PathDS>, i: nat, j: nat)
    requires i < |h| && j < |h|
    ensures multiset(Swap(h, i, j)) == multiset(h)
  {
    var s := h[i := h[j]];
    assert multiset(s) == multiset(h) - multiset{h[i]} + multiset{h[j]};
    assert multiset(s[j := h[i]]) == multiset(s) - multiset{s[j]} + multiset{h[i]};
  }

  /** Sift-up only moves records around: the result is a permutation of its input. */
  lemma {:induction false} SiftUpPermutes(h: seq<PathDS>, c: nat)
    requires c < |h|
    ensures multiset(SiftUp(h, c)) == multiset(h)
    decreases c
  {
    if c > 0 {
      var p := Parent(c);
      if h[c].total < h[p].total {
        SwapPermutes(h, p, c);
        SiftUpPermutes(Swap(h, p, c), p);
      } else {
        SiftUpPermutes(h, p);
      }
    }
  }

  /** Sift-up touches only the positions on the path from `c` to the root. */
  lemma {:induction false} SiftUpOnlyTouchesPath(h: seq<PathDS>, c: nat, i: nat)
    requires c < |h| && i < |h| && !OnPath(c, i)
    ensures SiftUp(h, c)[i] == h[i]
    decreases c
  {
    if c > 0 {
      var p := Parent(c);
      var h' := if h[c].total < h[p].total then Swap(h, p, c) else h;
      assert h'[i] == h[i];
      SiftUpOnlyTouchesPath(h', p, i);
    }
  }

  /** Sift-up leaves a sequence that is already in heap order unchanged: a
      record is never swapped with a parent of equal (or smaller) total. */
  lemma {:induction false} SiftUpKeepsHeap(h: seq<PathDS>, c: nat)
    requires c < |h| && IsMinHeap(h)
    ensures SiftUp(h, c) == h
    decreases c
  {
    if c > 0 {
      SiftUpKeepsHeap(h, Parent(c));
    }
  }

  /** One level of the loop keeps the "heap except at the walking position" invariant. */
  lemma SiftUpStep(h: seq<PathDS>, c: nat)
    requires 0 < c < |h| && HeapExcept(h, c)
    ensures HeapExcept(if h[c].total < h[Parent(c)].total then Swap(h, Parent(c), c) else h, Parent(c))
  {
    var p := Parent(c);
    if h[c].total < h[p].total {
      var h' := Swap(h, p, c);
      forall i | 0 < i < |h'| && i != p
        ensures h'[Parent(i)].total <= h'[i].total
      {
        if i == c {
        } else if Parent(i) == c {
        } else if Parent(i) == p {
          assert h[p].total <= h[i].total;
        } else {
          assert h'[Parent(i)] == h[Parent(i)] && h'[i] == h[i];
        }
      }
      if p > 0 {
        forall i | 0 < i < |h'| && Parent(i) == p
          ensures h'[Parent(p)].total <= h'[i].total
        {
          assert h[Parent(p)].total <= h[p].total;
          if i != c {
            assert h[p].total <= h[i].total;
          }
        }
      }
    } else {
      if p > 0 {
        forall i | 0 < i < |h| && Parent(i) == p
          ensures h[Parent(p)].total <= h[i].total
        {
          assert h[Parent(p)].total <= h[p].total;
        }
      }
    }
  }

  /** From the "heap except at c" state, sifting up restores heap order everywhere. */
  lemma {:induction false} SiftUpRestoresHeap(h: seq<PathDS>, c: nat)
    requires c < |h| && HeapExcept(h, c)
    ensures IsMinHeap(SiftUp(h, c))
    decreases c
  {
    if c > 0 {
      var p := Parent(c);
      SiftUpStep(h, c);
      SiftUpRestoresHeap(if h[c].total < h[p].total then Swap(h, p, c) else h, p);
    }
  }

  /** Enqueuing into a min-heap gives a min-heap. */
  lemma EnqueuePreservesHeap(h: seq<PathDS>, key: PathDS)
    requires IsMinHeap(h)
    ensures IsMinHeap(Enqueued(h, key))
  {
    var g := h + [key];
    assert HeapExcept(g, |h|) by {
      forall i | 0 < i < |g| && i != |h|
        ensures g[Parent(i)].total <= g[i].total
      {
        assert g[i] == h[i] && g[Parent(i)] == h[Parent(i)];
      }
    }
    SiftUpRestoresHeap(g, |h|);
  }

  /** Enqueuing holds exactly the old records plus the new one. */
  lemma EnqueuePermutes(h: seq<PathDS>, key: PathDS)
    ensures multiset(Enqueued(h, key)) == multiset(h) + multiset{key}
  {
    SiftUpPermutes(h + [key], |h|);
  }

  /** A record that costs at least as much as its would-be parent stays at the end:
      ties are never swapped, because the loop compares with a strict `<`. */
  lemma EnqueueNoSwapWhenNotCheaper(h: seq<PathDS>, key: PathDS)
    requires IsMinHeap(h)
    requires |h| > 0 ==> h[Parent(|h|)].total <= key.total
    ensures Enqueued(h, key) == h + [key]
  {
    var g := h + [key];
    assert IsMinHeap(g) by {
      forall i | 0 < i < |g|
        ensures g[Parent(i)].total <= g[i].total
      {
        if i < |h| {
          assert g[i] == h[i] && g[Parent(i)] == h[Parent(i)];
        }
      }
    }
    SiftUpKeepsHeap(g, |h|);
  }

  /** In a min-heap the root is no more costly than any position. */
  lemma {:induction false} RootNoCostlier(h: seq<PathDS>, i: nat)
    requires IsMinHeap(h) && i < |h|
    ensures h[0].total <= h[i].total
    decreases i
  {
    if i > 0 {
      RootNoCostlier(h, Parent(i));
    }
  }

  /** In a min-heap the record at position 0 has the minimum total. */
  lemma RootIsMinimum(h: seq<PathDS>)
    ensures IsMinHeap(h) && |h| > 0 ==> forall i :: 0 <= i < |h| ==> h[0].total <= h[i].total
  {
    if IsMinHeap(h) && |h| > 0 {
      forall i | 0 <= i < |h| ensures h[0].total <= h[i].total {
        RootNoCostlier(h, i);
      }
    }
  }

  /** Enqueue-only histories from an empty queue yield a min-heap holding exactly the keys. */
  lemma {:induction false} BuildIsHeap(keys: seq<PathDS>)
    ensures IsMinHeap(Build(keys))
    ensures multiset(Build(keys)) == multiset(keys)
    decreases |keys|
  {
    if keys != [] {
      var n := |keys| - 1;
      BuildIsHeap(keys[..n]);
      EnqueuePreservesHeap(Build(keys[..n]), keys[n]);
      EnqueuePermutes(Build(keys[..n]), keys[n]);
      assert keys == keys[..n] + [keys[n]];
    }
  }

  /** After any enqueue-only history, the top record's total is at most every held total. */
  lemma BuildTopIsMinimum(keys: seq<PathDS>)
    requires |keys| > 0
    ensures forall k :: k in keys ==> Build(keys)[0].total <= k.total
  {
    BuildIsHeap(keys);
    var h := Build(keys);
    forall k | k in keys ensures h[0].total <= k.total {
      assert k in multiset(h);
      var i :| 0 <= i < |h| && h[i] == k;
      RootNoCostlier(h, i);
    }
  }

  /** Enqueuing the same records in any order yields the same minimum total at the top. */
  lemma BuildTopIndependentOfOrder(keys1: seq<PathDS>, keys2: seq<PathDS>)
    requires multiset(keys1) == multiset(keys2) && |keys1| > 0
    ensures |keys2| > 0 && Build(keys1)[0].total == Build(keys2)[0].total
  {
    assert |multiset(keys1)| == |keys1| && |multiset(keys2)| == |keys2|;
    BuildIsHeap(keys1);
    BuildIsHeap(keys2);
    BuildTopIsMinimum(keys1);
    BuildTopIsMinimum(keys2);
    var a, b := Build(keys1)[0], Build(keys2)[0];
    assert a in multiset(Build(keys1));
    assert b in multiset(Build(keys2));
    assert a in keys2 && b in keys1;
  }

  /** Removing position 0 without a sift-down can break heap order:
      the heap with totals [1, 5, 2] becomes [5, 2]. */
  lemma DeQueueCanBreakHeap()
    ensures var v := Vertex(0);
            var h := [PathDS(1, v, None), PathDS(5, v, None), PathDS(2, v, None)];
            IsMinHeap(h) && !IsMinHeap(h[1..])
  {
    var v := Vertex(0);
    var h := [PathDS(1, v, None), PathDS(5, v, None), PathDS(2, v, None)];
    assert h[1..][Parent(1)].total > h[1..][1].total;
  }

  /** The frontier queue. */
  class PathHeap {
    var heap: seq<PathDS>

    /** A new queue is empty. */
    constructor ()
      ensures heap == [] && Count() == 0
    {
      heap := [];
    }

    /** The number of frontier records. */
    function Count(): (n: nat)
      reads this
      ensures n == |heap|
      ensures n == 0 <==> heap == []
    {
      |heap|
    }

    /** The shortest path held, or nothing when the queue is empty. */
    function Peek(): (r: Option<PathDS>)
      reads this
      ensures r.None? <==> Count() == 0
      ensures r.Some? ==> r.value == heap[0]
      ensures r.Some? && IsMinHeap(heap) ==> forall i :: 0 <= i < |heap| ==> r.value.total <= heap[i].total
    {
      RootIsMinimum(heap);
      if |heap| > 0 then Some(heap[0]) else None
    }

    /** Removes position 0 by shifting the rest down; a no-op on an empty queue. */
    method DeQueue()
      modifies this
      ensures old(heap) == [] ==> heap == []
      ensures old(heap) != [] ==> heap == old(heap)[1..] && Count() == old(Count()) - 1
    {
      if |heap| > 0 {
        heap := heap[1..];
      }
    }

    /** Appends `key` and sifts it up to the root. */
    method EnQueue(key: PathDS)
      modifies this
      ensures heap == Enqueued(old(heap), key)
      ensures Count() == old(Count()) + 1
      ensures multiset(heap) == multiset(old(heap)) + multiset{key}
      ensures IsMinHeap(old(heap)) ==> IsMinHeap(heap)
      ensures forall i :: 0 <= i < old(|heap|) && !OnPath(old(|heap|), i) ==> heap[i] == old(heap)[i]
    {
      heap := heap + [key];
      var childIndex: nat := |heap| - 1;
      var parentIndex: nat := 0;
      if childIndex != 0 {
        parentIndex := (childIndex - 1) / 2;
      }
      while childIndex != 0
        invariant childIndex < |heap| == |old(heap)| + 1
        invariant childIndex != 0 ==> parentIndex == Parent(childIndex)
        invariant SiftUp(heap, childIndex) == Enqueued(old(heap), key)
        decreases childIndex
      {
        var childToUse := heap[childIndex];
        var parentToUse := heap[parentIndex];
        if childToUse.total < parentToUse.total {
          heap := heap[parentIndex := childToUse][childIndex := parentToUse];
        }
        childIndex := parentIndex;
        if childIndex != 0 {
          parentIndex := (childIndex - 1) / 2;
        }
      }
      EnqueuePermutes(old(heap), key);
      if IsMinHeap(old(heap)) {
        EnqueuePreservesHeap(old(heap), key);
      }
      forall i | 0 <= i < old(|heap|) && !OnPath(old(|heap|), i)
        ensures heap[i] == old(heap)[i]
      {
        SiftUpOnlyTouchesPath(old(heap) + [key], old(|heap|), i);
      }
    }
  }
}
