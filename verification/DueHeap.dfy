/**
 The array binary heap of due entries (core/due_heap.h). Clients see only the multiset of
 entries; the heap order is what makes the root a minimum-epoch entry.
 */
module DueHeaps {

  datatype DueEntry = DueEntry(epoch: int, slot: nat, generation: nat)

  function Parent(i: int): int
    requires i > 0
  {
    (i - 1) / 2
  }

  ghost predicate OrderedAt(s: seq<DueEntry>, i: int) {
    0 < i < |s| ==> s[Parent(i)].epoch <= s[i].epoch
  }

  ghost predicate HeapOrder(s: seq<DueEntry>) {
    forall i :: OrderedAt(s, i)
  }

  /** Heap order but for the edge above k; the children of k still sit below the parent of k. */
  ghost predicate OrderedButAbove(s: seq<DueEntry>, k: int) {
    (forall i :: i != k ==> OrderedAt(s, i)) &&
    (forall i :: 0 < k && 0 < i < |s| && Parent(i) == k ==> s[Parent(k)].epoch <= s[i].epoch)
  }

  /** Heap order but for the edges below k; the children of k still sit below the parent of k. */
  ghost predicate OrderedButBelow(s: seq<DueEntry>, k: int) {
    (forall i :: 0 < i && Parent(i) != k ==> OrderedAt(s, i)) &&
    (forall i :: 0 < k < |s| && 0 < i < |s| && Parent(i) == k ==> s[Parent(k)].epoch <= s[i].epoch)
  }

  function Swap(s: seq<DueEntry>, i: nat, j: nat): (t: seq<DueEntry>)
    requires i < |s| && j < |s|
    ensures |t| == |s| && multiset(t) == multiset(s)
  {
    s[i := s[j]][j := s[i]]
  }

  ghost predicate Minimal(e: DueEntry, m: multiset<DueEntry>) {
    e in m && forall f :: f in m ==> e.epoch <= f.epoch
  }

  lemma {:induction false} RootBelow(s: seq<DueEntry>, i: nat)
    requires HeapOrder(s) && i < |s|
    ensures s[0].epoch <= s[i].epoch
  {
    if i > 0 {
      RootBelow(s, Parent(i));
      assert OrderedAt(s, i);
    }
  }

  /** The root of a heap is a minimum-epoch entry. */
  lemma RootIsMinimal(s: seq<DueEntry>)
    requires HeapOrder(s) && |s| > 0
    ensures Minimal(s[0], multiset(s))
  {
    forall f | f in multiset(s)
      ensures s[0].epoch <= f.epoch
    {
      var i :| 0 <= i < |s| && s[i] == f;
      RootBelow(s, i);
    }
  }

  lemma SiftUpStep(s: seq<DueEntry>, k: nat)
    requires 0 < k < |s| && OrderedButAbove(s, k) && s[Parent(k)].epoch > s[k].epoch
    ensures OrderedButAbove(Swap(s, Parent(k), k), Parent(k))
  {
    var p := Parent(k);
    var t := Swap(s, p, k);
    forall i | i != p
      ensures OrderedAt(t, i)
    {
      if 0 < i < |t| && i != k {
        assert OrderedAt(s, i);
      }
    }
    forall i | 0 < p && 0 < i < |t| && Parent(i) == p
      ensures t[Parent(p)].epoch <= t[i].epoch
    {
      assert OrderedAt(s, p) && (i != k ==> OrderedAt(s, i));
    }
  }

  lemma SiftDownStep(s: seq<DueEntry>, k: nat, c: nat)
    requires OrderedButBelow(s, k) && 0 < c < |s| && Parent(c) == k && s[k].epoch > s[c].epoch
    requires forall i :: 0 < i < |s| && Parent(i) == k ==> s[c].epoch <= s[i].epoch
    ensures OrderedButBelow(Swap(s, k, c), c)
  {
    var t := Swap(s, k, c);
    forall i | 0 < i && Parent(i) != c
      ensures OrderedAt(t, i)
    {
      if i < |t| && i != c {
        assert Parent(i) != k ==> OrderedAt(s, i);
      }
    }
    forall i | 0 < i < |t| && Parent(i) == c
      ensures t[Parent(c)].epoch <= t[i].epoch
    {
      assert OrderedAt(s, i);
    }
  }

  class DueHeap {
    var entries: seq<DueEntry>

    ghost predicate Valid()
      reads this
    {
      HeapOrder(entries)
    }

    constructor ()
      ensures Valid() && entries == []
    {
      entries := [];
    }

    /** `grow` is the allocator's answer when the storage has to grow. */
    method Push(entry: DueEntry, grow: bool) returns (ok: bool)
      requires Valid()
      modifies this
      ensures Valid() && ok == grow
      ensures !ok ==> entries == old(entries)
      ensures ok ==> multiset(entries) == old(multiset(entries)) + multiset{entry}
    {
      ok := grow;
      if !ok {
        return;
      }
      assert forall i :: OrderedAt(entries, i);
      entries := entries + [entry];
      var index := |entries| - 1;
      assert OrderedButAbove(entries, index) by {
        forall i | i != index
          ensures OrderedAt(entries, i)
        {
          assert OrderedAt(old(entries), i);
        }
      }
      while index > 0
        invariant 0 <= index < |entries|
        invariant OrderedButAbove(entries, index)
        invariant multiset(entries) == old(multiset(entries)) + multiset{entry}
      {
        var parent := Parent(index);
        if !(entries[parent].epoch > entries[index].epoch) {
          assert OrderedAt(entries, index);
          return;
        }
        SiftUpStep(entries, index);
        entries := Swap(entries, parent, index);
        index := parent;
      }
      assert OrderedAt(entries, 0);
    }

    method Top() returns (entry: DueEntry)
      requires Valid() && entries != []
      ensures entry == entries[0] && Minimal(entry, multiset(entries))
    {
      RootIsMinimal(entries);
      entry := entries[0];
    }

    method Pop() returns (entry: DueEntry)
      requires Valid() && entries != []
      modifies this
      ensures Valid()
      ensures entry == old(entries)[0] && Minimal(entry, old(multiset(entries)))
      ensures multiset(entries) == old(multiset(entries)) - multiset{entry}
      ensures |entries| == |old(entries)| - 1
    {
      RootIsMinimal(entries);
      entry := entries[0];
      var last := |entries| - 1;
      if last == 0 {
        assert entries == [entry];
        entries := [];
        return;
      }
      RemoveRoot(entries);
      entries := [entries[last]] + entries[1..last];
      SiftDown();
    }

    /** Restores the order after the root was replaced. */
    method SiftDown()
      requires OrderedButBelow(entries, 0) && entries != []
      modifies this
      ensures Valid() && multiset(entries) == old(multiset(entries)) && |entries| == |old(entries)|
    {
      var index := 0;
      while true
        invariant 0 <= index < |entries| == |old(entries)|
        invariant OrderedButBelow(entries, index)
        invariant multiset(entries) == old(multiset(entries))
        decreases |entries| - index
      {
        var left := index * 2 + 1;
        var right := left + 1;
        var candidate := index;
        if left < |entries| && entries[candidate].epoch > entries[left].epoch {
          candidate := left;
        }
        if right < |entries| && entries[candidate].epoch > entries[right].epoch {
          candidate := right;
        }
        assert forall i :: 0 < i < |entries| && Parent(i) == index ==> i == left || i == right;
        if candidate == index {
          assert forall i :: i > 0 ==> OrderedAt(entries, i);
          return;
        }
        SiftDownStep(entries, index, candidate);
        entries := Swap(entries, index, candidate);
        index := candidate;
      }
    }
  }

  /** Moving the last entry over the root removes exactly the root. */
  lemma RemoveRoot(s: seq<DueEntry>)
    requires HeapOrder(s) && |s| > 1
    ensures var t := [s[|s| - 1]] + s[1..|s| - 1];
      multiset(t) == multiset(s) - multiset{s[0]} && OrderedButBelow(t, 0)
  {
    var last := |s| - 1;
    var t := [s[last]] + s[1..last];
    assert s == [s[0]] + s[1..last] + [s[last]];
    assert multiset(s) == multiset{s[0]} + multiset(s[1..last]) + multiset{s[last]};
    forall i | 0 < i && Parent(i) != 0
      ensures OrderedAt(t, i)
    {
      if i < |t| {
        assert OrderedAt(s, i);
      }
    }
  }
}
