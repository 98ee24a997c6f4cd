/** The binary min-heap priority queue of the gossip daemon.

    Entries live in a growable array (the source grows it with
    `tal_arr_expand` and shrinks it with `tal_resize`), modelled as a `seq`
    field that the methods reassign.  The queue has no decrease-priority
    operation: a caller that finds a cheaper priority for an item that is
    already queued adds the item again, and the stale entry stays until it is
    popped. */
module PriorityQueue {
  import opened Wrappers
  import opened MachineInts

  /** `priority_type` is an unsigned 64-bit value. */
  type Priority = u64

  /** One slot of the heap array: a priority and the (never NULL) item. */
  datatype Entry<T> = Entry(priority: Priority, item: T)

  /** Index of the parent of heap position `i`. */
  function Parent(i: nat): (p: nat)
    requires i > 0
    ensures p < i && (2 * p + 1 == i || 2 * p + 2 == i)
  {
    (i - 1) / 2
  }

  /** The heap invariant: no entry has a smaller priority than its parent. */
  ghost predicate IsHeap<T>(s: seq<Entry<T>>) {
    forall i :: 0 < i < |s| ==> s[Parent(i)].priority <= s[i].priority
  }

  /** The heap invariant, except possibly between position `k` and its parent
      (the state during sift-up, where `k` is the entry moving up). */
  ghost predicate HeapExceptAt<T>(s: seq<Entry<T>>, k: nat) {
    forall i :: 0 < i < |s| && i != k ==> s[Parent(i)].priority <= s[i].priority
  }

  /** The heap invariant, except possibly between position `k` and its
      children (the state during sift-down, where `k` is the entry sinking). */
  ghost predicate HeapExceptBelow<T>(s: seq<Entry<T>>, k: nat) {
    forall i :: 0 < i < |s| && Parent(i) != k ==> s[Parent(i)].priority <= s[i].priority
  }

  /** Under the heap invariant every entry's priority is at least the root's. */
  lemma {:induction false} RootIsMinimum<T>(s: seq<Entry<T>>, k: nat)
    requires IsHeap(s) && k < |s|
    ensures s[0].priority <= s[k].priority
    decreases k
  {
    if k > 0 {
      RootIsMinimum(s, Parent(k));
    }
  }

  /** Exchanging two entries keeps the multiset of entries. */
  lemma SwapKeepsEntries<T>(s: seq<Entry<T>>, i: nat, j: nat)
    requires i < |s| && j < |s|
    ensures multiset(s[i := s[j]][j := s[i]]) == multiset(s)
  {
    if i != j {
      var t := s[i := s[j]];
      assert multiset(t) == multiset(s) - multiset{s[i]} + multiset{s[j]};
      assert multiset(t[j := s[i]]) == multiset(t) - multiset{t[j]} + multiset{s[i]};
    }
  }

  /** One upsift swap: the rising entry at `i` is strictly smaller than its
      parent and exchanges places with it; the exception moves up to the
      parent's position. */
  lemma RiseStep<T>(r: seq<Entry<T>>, i: nat)
    requires 0 < i < |r| && HeapExceptAt(r, i)
    requires i > 0 ==> forall c :: 0 < c < |r| && Parent(c) == i ==>
               r[Parent(i)].priority <= r[c].priority
    requires r[i].priority < r[Parent(i)].priority
    ensures var p := Parent(i);
            var t := r[i := r[p]][p := r[i]];
            && HeapExceptAt(t, p)
            && (p > 0 ==> forall c :: 0 < c < |t| && Parent(c) == p ==> t[Parent(p)].priority <= t[c].priority)
  {
    var p := Parent(i);
    var t := r[i := r[p]][p := r[i]];
    forall c | 0 < c < |t| && c != p
      ensures t[Parent(c)].priority <= t[c].priority
    {
      if c == i {
      } else if Parent(c) == i {
        assert r[Parent(i)].priority <= r[c].priority;
      } else if Parent(c) == p {
        assert r[p].priority <= r[c].priority;
      } else {
        assert Parent(c) != i && Parent(c) != p;
      }
    }
    if p > 0 {
      forall c | 0 < c < |t| && Parent(c) == p
        ensures t[Parent(p)].priority <= t[c].priority
      {
        assert r[Parent(p)].priority <= r[p].priority;
        if c != i {
          assert r[p].priority <= r[c].priority;
        }
      }
    }
  }

  /** The "upsift" loop of `priority_queue_add`: the entry just appended at
      the end of `s` moves towards the root while it is strictly smaller than
      its parent. */
  method SiftUp<T>(s: seq<Entry<T>>) returns (r: seq<Entry<T>>)
    requires |s| > 0 && IsHeap(s[..|s| - 1])
    ensures |r| == |s| && multiset(r) == multiset(s)
    ensures IsHeap(r)
  {
    r := s;
    var i: nat := |r| - 1;
    while i > 0
      invariant |r| == |s| && i < |r|
      invariant multiset(r) == multiset(s)
      invariant HeapExceptAt(r, i)
      invariant i > 0 ==> forall c :: 0 < c < |r| && Parent(c) == i ==>
                  r[Parent(i)].priority <= r[c].priority
    {
      var parent := Parent(i);
      if r[i].priority < r[parent].priority {
        RiseStep(r, i);
        SwapKeepsEntries(r, i, parent);
        r := r[i := r[parent]][parent := r[i]];
        i := parent;
      } else {
        break;
      }
    }
  }

  /** One downsink swap: the sinking entry at `i` exchanges places with its
      child `child`, which is no larger than its sibling and strictly smaller
      than the sinking entry; the exception moves down to `child`. */
  lemma SinkStep<T>(r: seq<Entry<T>>, i: nat, child: nat)
    requires child < |r| && (child == 2 * i + 1 || child == 2 * i + 2)
    requires HeapExceptBelow(r, i)
    requires i > 0 ==> forall c :: 0 < c < |r| && Parent(c) == i ==>
               r[Parent(i)].priority <= r[c].priority
    requires forall c :: 0 < c < |r| && Parent(c) == i ==> r[child].priority <= r[c].priority
    requires r[child].priority < r[i].priority
    ensures HeapExceptBelow(r[i := r[child]][child := r[i]], child)
    ensures forall c :: 0 < c < |r| && Parent(c) == child ==>
              r[i := r[child]][child := r[i]][i].priority <= r[i := r[child]][child := r[i]][c].priority
  {
    var t := r[i := r[child]][child := r[i]];
    assert Parent(child) == i;
    forall c | 0 < c < |t| && Parent(c) != child
      ensures t[Parent(c)].priority <= t[c].priority
    {
      if c == child {
      } else if Parent(c) == i {
      } else if c == i {
        assert r[Parent(i)].priority <= r[child].priority;
      } else {
        assert Parent(c) != i && Parent(c) != child;
      }
    }
  }

  /** Moving the last entry of a heap to the root removes exactly the old
      root and leaves the heap invariant broken only below the root. */
  lemma LastToRoot<T>(s: seq<Entry<T>>)
    requires |s| > 1 && IsHeap(s)
    ensures var moved := s[0 := s[|s| - 1]][..|s| - 1];
            && multiset(moved) == multiset(s) - multiset{s[0]}
            && HeapExceptBelow(moved, 0)
  {
    var n := |s|;
    var moved := s[0 := s[n - 1]][..n - 1];
    assert s == [s[0]] + s[1..n - 1] + [s[n - 1]];
    assert moved == [s[n - 1]] + s[1..n - 1];
    forall i | 0 < i < |moved| && Parent(i) != 0
      ensures moved[Parent(i)].priority <= moved[i].priority
    {
      assert moved[i] == s[i] && moved[Parent(i)] == s[Parent(i)];
    }
  }

  /** The "downsink" loop of `priority_queue_get_min`: the entry at the root
      sinks, swapping with its smaller child (the second child on a tie)
      while that child is strictly smaller. */
  method SiftDown<T>(s: seq<Entry<T>>) returns (r: seq<Entry<T>>)
    requires HeapExceptBelow(s, 0)
    ensures |r| == |s| && multiset(r) == multiset(s)
    ensures IsHeap(r)
  {
    r := s;
    var i: nat := 0;
    while i < |r|
      invariant |r| == |s|
      invariant multiset(r) == multiset(s)
      invariant HeapExceptBelow(r, i)
      invariant i > 0 ==> forall c :: 0 < c < |r| && Parent(c) == i ==>
                  r[Parent(i)].priority <= r[c].priority
      decreases |r| - i
    {
      var child1, child2 := i * 2 + 1, i * 2 + 2;
      if child1 >= |r| {
        assert forall c :: 0 < c < |r| ==> Parent(c) != i;
        break;
      }
      var child;
      if child2 >= |r| {
        child := child1;
      } else if r[child1].priority < r[child2].priority {
        child := child1;
      } else {
        child := child2;
      }
      assert forall c :: 0 < c < |r| && Parent(c) == i ==> c == child1 || c == child2;
      if r[child].priority < r[i].priority {
        SinkStep(r, i, child);
        SwapKeepsEntries(r, i, child);
        r := r[i := r[child]][child := r[i]];
        i := child;
      } else {
        break;
      }
    }
  }

  /** `struct priority_queue`: a binary min-heap of entries. */
  class PriorityQueue<T> {
    var entries: seq<Entry<T>>

    ghost predicate Valid()
      reads this
    {
      IsHeap(entries)
    }

    /** The multiset of (priority, item) entries the queue holds. */
    ghost function Contents(): multiset<Entry<T>>
      reads this
    {
      multiset(entries)
    }

    /** `priority_queue_new`: an empty queue. */
    constructor ()
      ensures Valid() && entries == []
    {
      entries := [];
    }

    /** `priority_queue_add`: append the entry, then sift it up.  Exactly one
        entry is added; entries already present for the same item stay. */
    method Add(item: T, priority: Priority)
      requires Valid()
      modifies this
      ensures Valid()
      ensures |entries| == old(|entries|) + 1
      ensures Contents() == old(Contents()) + multiset{Entry(priority, item)}
    {
      var grown := entries + [Entry(priority, item)];
      assert grown[..|grown| - 1] == entries;
      entries := SiftUp(grown);
    }

    /** `priority_queue_get_min`: remove and return an entry of least
        priority, or `None` (NULL) when the queue is empty.  The ghost
        out-parameter names the priority of the removed entry. */
    method GetMin() returns (item: Option<T>, ghost priority: Priority)
      requires Valid()
      modifies this
      ensures Valid()
      ensures old(entries) == [] ==> item == None && entries == []
      ensures old(entries) != [] ==>
                && item.Some?
                && Entry(priority, item.value) in old(Contents())
                && (forall e | e in old(Contents()) :: priority <= e.priority)
                && Contents() == old(Contents()) - multiset{Entry(priority, item.value)}
                && |entries| == old(|entries|) - 1
    {
      var s := |entries|;
      if s == 0 {
        return None, 0;
      }
      var top := entries[0];
      item, priority := Some(top.item), top.priority;
      forall e | e in multiset(entries)
        ensures priority <= e.priority
      {
        var k :| 0 <= k < |entries| && entries[k] == e;
        RootIsMinimum(entries, k);
      }
      if s == 1 {
        entries := [];
        return;
      }
      var moved := entries[0 := entries[s - 1]][..s - 1];
      LastToRoot(entries);
      entries := SiftDown(moved);
    }
  }
}
