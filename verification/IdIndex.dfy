/**
 SchedulerIdIndex, the open-addressing hash table from job ids to slots
 (core/runtime_containers.h), proved for an arbitrary hash function. The capacity is
 always 8 * 2^k, so the source's `& mask` is the remainder by the capacity; a table that
 was never allocated has capacity 0.
 */
module IdIndexes {
  import opened Wrappers

  datatype Cell = Empty | Deleted | Occupied(id: nat, slot: nat)

  predicate CapacityOk(n: nat) {
    n == 0 || n == 8 || (n > 8 && n % 2 == 0 && CapacityOk(n / 2))
  }

  lemma CapacityDoubles(n: nat)
    requires CapacityOk(n) && n > 0
    ensures n >= 8 && CapacityOk(n * 2)
  {
    assert n * 2 / 2 == n;
  }

  /** Position start + offset of the circular table. */
  function At(cells: seq<Cell>, start: nat, offset: nat): Cell
    requires start < |cells| && offset <= |cells|
  {
    cells[Wrap(start + offset, |cells|)]
  }

  function Wrap(i: nat, n: nat): (r: nat)
    requires i < 2 * n
    ensures r < n
  {
    if i < n then i else i - n
  }

  /** Number of probe steps from start to position j. */
  function Distance(start: nat, j: nat, n: nat): (d: nat)
    requires start < n && j < n
    ensures d < n && Wrap(start + d, n) == j
  {
    if start <= j then j - start else j + n - start
  }

  /** No empty cell is crossed on the way from start to j. */
  ghost predicate Reachable(cells: seq<Cell>, start: nat, j: nat) {
    start < |cells| && j < |cells| &&
    forall o: nat :: o < Distance(start, j, |cells|) ==> !At(cells, start, o).Empty?
  }

  function Home(hash: nat -> nat, id: nat, n: nat): (h: nat)
    requires n > 0
    ensures h < n
  {
    hash(id) % n
  }

  ghost predicate Holds(cells: seq<Cell>, j: int, id: nat, slot: nat) {
    0 <= j < |cells| && cells[j] == Occupied(id, slot)
  }

  /** The table stores exactly m: every key once, reachable from its hash, and nothing else. */
  ghost predicate Stores(cells: seq<Cell>, hash: nat -> nat, m: map<nat, nat>) {
    CellsIn(cells, m) && AllHeld(cells, m) &&
    (forall j :: 0 <= j < |cells| && cells[j].Occupied? ==>
      Reachable(cells, Home(hash, cells[j].id, |cells|), j)) &&
    (forall i, j :: 0 <= i < j < |cells| && cells[i].Occupied? && cells[j].Occupied? ==> cells[i].id != cells[j].id)
  }

  function Live(cells: seq<Cell>): nat {
    if cells == [] then 0 else Live(cells[..|cells| - 1]) + if cells[|cells| - 1].Occupied? then 1 else 0
  }

  function Dead(cells: seq<Cell>): nat {
    if cells == [] then 0 else Dead(cells[..|cells| - 1]) + if cells[|cells| - 1].Deleted? then 1 else 0
  }

  lemma {:induction false} CountUpdate(cells: seq<Cell>, j: nat, c: Cell)
    requires j < |cells|
    ensures Live(cells[j := c]) == Live(cells) - (if cells[j].Occupied? then 1 else 0) + (if c.Occupied? then 1 else 0)
    ensures Dead(cells[j := c]) == Dead(cells) - (if cells[j].Deleted? then 1 else 0) + (if c.Deleted? then 1 else 0)
    decreases |cells|
  {
    var last := |cells| - 1;
    if j == last {
      assert cells[j := c][..last] == cells[..last];
    } else {
      CountUpdate(cells[..last], j, c);
      assert cells[j := c][..last] == cells[..last][j := c];
    }
  }

  lemma {:induction false} CountEmpty(cells: seq<Cell>)
    requires forall j :: 0 <= j < |cells| ==> cells[j].Empty?
    ensures Live(cells) == 0 && Dead(cells) == 0
    decreases |cells|
  {
    if cells != [] {
      CountEmpty(cells[..|cells| - 1]);
    }
  }

  /** While the counters leave room, some cell is empty. */
  lemma {:induction false} EmptyCell(cells: seq<Cell>) returns (j: nat)
    requires Live(cells) + Dead(cells) < |cells|
    ensures j < |cells| && cells[j].Empty?
    decreases |cells|
  {
    var last := |cells| - 1;
    if cells[last].Empty? {
      j := last;
    } else {
      j := EmptyCell(cells[..last]);
    }
  }

  /** The first `probe` cells from start do not hold id. */
  ghost predicate Passed(cells: seq<Cell>, start: nat, id: nat, probe: nat) {
    start < |cells| && probe <= |cells| &&
    forall o: nat :: o < probe ==> var c := At(cells, start, o); !(c.Occupied? && c.id == id)
  }

  /** A stored id not yet met lies ahead, with no empty cell before it. */
  lemma ProbeContinues(cells: seq<Cell>, start: nat, j: nat, id: nat, slot: nat, probe: nat)
    requires Holds(cells, j, id, slot) && Reachable(cells, start, j) && Passed(cells, start, id, probe)
    ensures probe < |cells| && !At(cells, start, probe).Empty?
  {
    assert At(cells, start, Distance(start, j, |cells|)) == Occupied(id, slot);
  }

  /** A probe that meets an empty cell, or comes full circle, without meeting id proves its absence. */
  lemma ProbeMisses(cells: seq<Cell>, hash: nat -> nat, m: map<nat, nat>, id: nat, probe: nat)
    requires Stores(cells, hash, m) && 0 < |cells| && Passed(cells, Home(hash, id, |cells|), id, probe)
    requires probe == |cells| || At(cells, Home(hash, id, |cells|), probe).Empty?
    ensures id !in m
  {
    if id in m {
      var j :| Holds(cells, j, id, m[id]);
      ProbeContinues(cells, Home(hash, id, |cells|), j, id, m[id], probe);
    }
  }

  /** Stepping over a non-empty cell keeps the path unbroken. */
  lemma ReachableNext(cells: seq<Cell>, start: nat, probe: nat)
    requires start < |cells| && probe + 1 < |cells|
    requires Reachable(cells, start, Wrap(start + probe, |cells|)) && !At(cells, start, probe).Empty?
    ensures Reachable(cells, start, Wrap(start + probe + 1, |cells|))
  {
    var next := Wrap(start + probe + 1, |cells|);
    forall o: nat | o < Distance(start, next, |cells|)
      ensures !At(cells, start, o).Empty?
    {
      assert o < Distance(start, Wrap(start + probe, |cells|), |cells|) || o == probe;
    }
  }

  /** Writing a non-empty cell never cuts a probe path. */
  lemma StillReachable(cells: seq<Cell>, start: nat, j: nat, k: nat, c: Cell)
    requires Reachable(cells, start, j) && k < |cells| && !c.Empty?
    ensures Reachable(cells[k := c], start, j)
  {
    var next := cells[k := c];
    forall o: nat | o < Distance(start, j, |next|)
      ensures !At(next, start, o).Empty?
    {
      assert !At(cells, start, o).Empty?;
    }
  }

  lemma StillReachableAll(cells: seq<Cell>, hash: nat -> nat, m: map<nat, nat>, k: nat, c: Cell)
    requires Stores(cells, hash, m) && k < |cells| && !c.Empty?
    ensures forall j :: 0 <= j < |cells| && cells[j].Occupied? ==>
      Reachable(cells[k := c], Home(hash, cells[j].id, |cells|), j)
  {
    forall j | 0 <= j < |cells| && cells[j].Occupied?
      ensures Reachable(cells[k := c], Home(hash, cells[j].id, |cells|), j)
    {
      StillReachable(cells, Home(hash, cells[j].id, |cells|), j, k, c);
    }
  }

  lemma StoresRemoved(cells: seq<Cell>, hash: nat -> nat, m: map<nat, nat>, k: nat)
    requires Stores(cells, hash, m) && k < |cells| && cells[k].Occupied?
    ensures Stores(cells[k := Deleted], hash, m - {cells[k].id})
  {
    StillReachableAll(cells, hash, m, k, Deleted);
    var next, rest := cells[k := Deleted], m - {cells[k].id};
    forall id | id in rest
      ensures exists j :: Holds(next, j, id, rest[id])
    {
      var j :| Holds(cells, j, id, m[id]);
      assert Holds(next, j, id, rest[id]);
    }
  }

  lemma StoresInserted(cells: seq<Cell>, hash: nat -> nat, m: map<nat, nat>, k: nat, id: nat, slot: nat)
    requires Stores(cells, hash, m) && k < |cells| && id != 0 && id !in m && !cells[k].Occupied?
    requires Reachable(cells, Home(hash, id, |cells|), k)
    ensures Stores(cells[k := Occupied(id, slot)], hash, m[id := slot])
  {
    StillReachableAll(cells, hash, m, k, Occupied(id, slot));
    StillReachable(cells, Home(hash, id, |cells|), k, k, Occupied(id, slot));
    var next, more := cells[k := Occupied(id, slot)], m[id := slot];
    forall i | i in more
      ensures exists j :: Holds(next, j, i, more[i])
    {
      if i == id {
        assert Holds(next, k, i, more[i]);
      } else {
        var j :| Holds(cells, j, i, m[i]);
        assert Holds(next, j, i, more[i]);
      }
    }
  }

  lemma StoresAssigned(cells: seq<Cell>, hash: nat -> nat, m: map<nat, nat>, k: nat, slot: nat)
    requires Stores(cells, hash, m) && k < |cells| && cells[k].Occupied?
    ensures Stores(cells[k := Occupied(cells[k].id, slot)], hash, m[cells[k].id := slot])
  {
    var id := cells[k].id;
    StillReachableAll(cells, hash, m, k, Occupied(id, slot));
    var next, more := cells[k := Occupied(id, slot)], m[id := slot];
    forall i | i in more
      ensures exists j :: Holds(next, j, i, more[i])
    {
      if i == id {
        assert Holds(next, k, i, more[i]);
      } else {
        var j :| Holds(cells, j, i, m[i]);
        assert Holds(next, j, i, more[i]);
      }
    }
  }

  lemma StoresNothing(cells: seq<Cell>, hash: nat -> nat)
    requires forall j :: 0 <= j < |cells| ==> cells[j].Empty?
    ensures Stores(cells, hash, map[])
  {
  }

  lemma {:induction false} SubsetSize<T>(a: set<T>, b: set<T>)
    requires a <= b
    ensures |a| <= |b|
    decreases |a|
  {
    if a != {} {
      var x :| x in a;
      SubsetSize(a - {x}, b - {x});
    }
  }

  /** The probe loop shared by get and remove. */
  method FindCell(entries: array<Cell>, start: nat, id: nat) returns (r: Option<nat>, ghost probe: nat)
    requires start < entries.Length
    ensures r.Some? ==> r.value < entries.Length && entries[r.value].Occupied? && entries[r.value].id == id
    ensures r.None? ==> Passed(entries[..], start, id, probe)
    ensures r.None? ==> probe == entries.Length || At(entries[..], start, probe).Empty?
  {
    ghost var cells := entries[..];
    var index := start;
    var step := 0;
    while step < entries.Length
      invariant 0 <= step <= entries.Length
      invariant index < entries.Length && index == Wrap(start + step, entries.Length)
      invariant Passed(cells, start, id, step)
    {
      var entry := entries[index];
      assert entry == At(cells, start, step);
      if entry.Empty? {
        return None, step;
      }
      if entry.Occupied? && entry.id == id {
        return Some(index), step;
      }
      index := Wrap(index + 1, entries.Length);
      step := step + 1;
    }
    return None, step;
  }

  /** The probe loop of insertOrAssign: the cell already holding id, or the first free cell of its
      path. A hole bounds the search, so the source's code after its loop is never reached. */
  method FreeCell(entries: array<Cell>, start: nat, id: nat, ghost hole: nat)
    returns (index: nat, present: bool, ghost probe: nat)
    requires start < entries.Length && hole < entries.Length && entries[hole].Empty?
    ensures index < entries.Length
    ensures present ==> entries[index].Occupied? && entries[index].id == id
    ensures !present ==> !entries[index].Occupied? && Reachable(entries[..], start, index)
    ensures !present ==> Passed(entries[..], start, id, probe) && probe < entries.Length
    ensures !present ==> At(entries[..], start, probe).Empty?
  {
    ghost var cells := entries[..];
    var firstDeleted: nat := entries.Length;
    index, present, probe := start, false, 0;
    var step := 0;
    while step < entries.Length
      invariant 0 <= step <= Distance(start, hole, entries.Length)
      invariant index < entries.Length && index == Wrap(start + step, entries.Length)
      invariant Passed(cells, start, id, step) && Reachable(cells, start, index)
      invariant firstDeleted <= entries.Length
      invariant firstDeleted < entries.Length ==>
        cells[firstDeleted].Deleted? && Reachable(cells, start, firstDeleted)
    {
      var entry := entries[index];
      assert entry == At(cells, start, step);
      if entry.Empty? {
        return if firstDeleted != entries.Length then firstDeleted else index, false, step;
      }
      if entry.Deleted? {
        if firstDeleted == entries.Length {
          firstDeleted := index;
        }
      } else if entry.id == id {
        return index, true, step;
      }
      ReachableNext(cells, start, step);
      index := Wrap(index + 1, entries.Length);
      step := step + 1;
    }
    assert false;
  }

  class SchedulerIdIndex {
    const hash: nat -> nat
    var entries: array<Cell>
    var size: nat
    var deletedCount: nat
    ghost var Contents: map<nat, nat>

    ghost predicate Valid()
      reads this, entries
    {
      CapacityOk(entries.Length) &&
      Stores(entries[..], hash, Contents) &&
      size == |Contents| == Live(entries[..]) &&
      deletedCount == Dead(entries[..]) &&
      (entries.Length > 0 ==> size + deletedCount < entries.Length)
    }

    constructor (hash: nat -> nat)
      ensures Valid() && Contents == map[] && fresh(entries)
    {
      this.hash := hash;
      entries := new Cell[0];
      size, deletedCount, Contents := 0, 0, map[];
      new;
      StoresNothing(entries[..], hash);
    }

    /** The position of id, or none. */
    method Find(id: nat) returns (r: Option<nat>)
      requires Valid()
      ensures r.Some? <==> id in Contents
      ensures r.Some? ==> r.value < entries.Length && entries[r.value] == Occupied(id, Contents[id])
    {
      if entries.Length == 0 || id == 0 {
        return None;
      }
      ghost var probe;
      r, probe := FindCell(entries, Home(hash, id, entries.Length), id);
      if r.None? {
        ProbeMisses(entries[..], hash, Contents, id, probe);
      }
    }

    method Get(id: nat) returns (r: Option<nat>)
      requires Valid()
      ensures r == if id in Contents then Some(Contents[id]) else None
    {
      var j := Find(id);
      r := None;
      if j.Some? {
        r := Some(entries[j.value].slot);
      }
    }

    method Remove(id: nat) returns (ok: bool)
      requires Valid()
      modifies this`size, this`deletedCount, this`Contents, entries
      ensures Valid()
      ensures ok <==> id in old(Contents)
      ensures Contents == old(Contents) - {id}
    {
      var j := Find(id);
      if j.None? {
        return false;
      }
      Unset(j.value);
      return true;
    }

    method Unset(index: nat)
      requires Valid() && index < entries.Length && entries[index].Occupied?
      modifies this`size, this`deletedCount, this`Contents, entries
      ensures Valid() && Contents == old(Contents) - {old(entries[index]).id}
    {
      ghost var cells := entries[..];
      StoresRemoved(cells, hash, Contents, index);
      CountUpdate(cells, index, Deleted);
      Contents := Contents - {entries[index].id};
      entries[index] := Deleted;
      assert entries[..] == cells[index := Deleted];
      size := size - 1;
      deletedCount := deletedCount + 1;
    }

    method Clear()
      requires Valid()
      modifies this`size, this`deletedCount, this`Contents, entries
      ensures Valid() && Contents == map[]
    {
      for index := 0 to entries.Length
        invariant forall j :: 0 <= j < index ==> entries[j].Empty?
      {
        entries[index] := Empty;
      }
      size, deletedCount, Contents := 0, 0, map[];
      StoresNothing(entries[..], hash);
      CountEmpty(entries[..]);
    }

    /** Sets the mapping; `grow` is the allocator's answer if a rehash is needed. A failed set changes no mapping. */
    method Set(id: nat, slot: nat, grow: bool) returns (ok: bool)
      requires Valid()
      modifies this, entries
      ensures Valid() && (entries == old(entries) || fresh(entries))
      ensures ok ==> id != 0 && Contents == old(Contents)[id := slot]
      ensures ok ==> (size + deletedCount) * 10 < entries.Length * 7
      ensures !ok ==> Contents == old(Contents) && (id == 0 || !grow)
    {
      if id == 0 {
        return false;
      }
      ok := EnsureCapacityForInsert(grow);
      if !ok {
        return;
      }
      ok := InsertOrAssign(id, slot);
    }

    method EnsureCapacityForInsert(grow: bool) returns (ok: bool)
      requires Valid()
      modifies this, entries
      ensures Valid() && (entries == old(entries) || fresh(entries))
      ensures Contents == old(Contents)
      ensures ok ==> size + deletedCount + 1 < entries.Length
      ensures ok ==> (size + deletedCount + 1) * 10 < entries.Length * 7 && deletedCount <= size
      ensures !ok ==> !grow
    {
      ok := true;
      if entries.Length == 0 {
        ok := Rehash(8, grow);
      } else if (size + deletedCount + 1) * 10 >= entries.Length * 7 {
        CapacityDoubles(entries.Length);
        ok := Rehash(entries.Length * 2, grow);
      } else if deletedCount > size {
        ok := Rehash(entries.Length, grow);
      }
    }

    /** Always succeeds, because a non-null table keeps an empty cell. */
    method InsertOrAssign(id: nat, slot: nat) returns (ok: bool)
      requires Valid() && id != 0 && entries.Length > 0
      requires id !in Contents ==> size + deletedCount + 1 < entries.Length
      modifies this`size, this`deletedCount, this`Contents, entries
      ensures ok && Valid() && Contents == old(Contents)[id := slot]
      ensures deletedCount <= old(deletedCount) && size + deletedCount <= old(size) + old(deletedCount) + 1
    {
      ghost var hole := EmptyCell(entries[..]);
      var index, present;
      ghost var probe;
      index, present, probe := FreeCell(entries, Home(hash, id, entries.Length), id, hole);
      if present {
        Assign(index, slot);
      } else {
        ProbeMisses(entries[..], hash, Contents, id, probe);
        Place(index, id, slot);
      }
      return true;
    }

    method Assign(index: nat, slot: nat)
      requires Valid() && index < entries.Length && entries[index].Occupied?
      modifies this`Contents, entries
      ensures Valid() && Contents == old(Contents)[old(entries[index]).id := slot]
    {
      ghost var cells := entries[..];
      var id := entries[index].id;
      StoresAssigned(cells, hash, Contents, index, slot);
      CountUpdate(cells, index, Occupied(id, slot));
      entries[index] := Occupied(id, slot);
      assert entries[..] == cells[index := Occupied(id, slot)];
      Contents := Contents[id := slot];
    }

    /** Fills a free cell of the probe path. */
    method Place(index: nat, id: nat, slot: nat)
      requires Valid() && id != 0 && id !in Contents
      requires size + deletedCount + 1 < entries.Length
      requires index < entries.Length && !entries[index].Occupied?
      requires Reachable(entries[..], Home(hash, id, entries.Length), index)
      modifies this`size, this`deletedCount, this`Contents, entries
      ensures Valid() && Contents == old(Contents)[id := slot]
      ensures deletedCount <= old(deletedCount)
    {
      ghost var cells := entries[..];
      StoresInserted(cells, hash, Contents, index, id, slot);
      CountUpdate(cells, index, Occupied(id, slot));
      if entries[index].Deleted? {
        deletedCount := deletedCount - 1;
      }
      entries[index] := Occupied(id, slot);
      assert entries[..] == cells[index := Occupied(id, slot)];
      size := size + 1;
      Contents := Contents[id := slot];
    }

    /** Reinsertion cannot fail, so the source's rollback loop is never reached. */
    method Rehash(newCapacity: nat, grow: bool) returns (ok: bool)
      requires Valid() && newCapacity > 0 && CapacityOk(newCapacity) && size < newCapacity
      modifies this
      ensures Valid() && Contents == old(Contents) && ok == grow
      ensures !ok ==> entries == old(entries) && size == old(size) && deletedCount == old(deletedCount)
      ensures ok ==> fresh(entries) && entries.Length == newCapacity && deletedCount == 0 && size == old(size)
    {
      ok := grow;
      if !ok {
        return;
      }
      var previous := entries[..];
      ghost var all := Contents;
      entries := new Cell[newCapacity](_ => Empty);
      size, deletedCount, Contents := 0, 0, map[];
      StoresNothing(entries[..], hash);
      CountEmpty(entries[..]);
      Reinsert(previous, all);
      CoversAll(Contents, previous, all);
    }

    /** Copies every occupied cell of the previous table. */
    method Reinsert(previous: seq<Cell>, ghost all: map<nat, nat>)
      requires Valid() && Contents == map[] && deletedCount == 0
      requires |all| < entries.Length && CellsIn(previous, all)
      modifies this`size, this`deletedCount, this`Contents, entries
      ensures Valid() && deletedCount == 0 && Within(Contents, all) && Covers(Contents, previous, |previous|)
    {
      var index := 0;
      while index < |previous|
        invariant 0 <= index <= |previous|
        invariant Valid() && deletedCount == 0
        invariant Within(Contents, all) && Covers(Contents, previous, index)
      {
        ghost var before := Contents;
        if previous[index].Occupied? {
          ReinsertOne(previous[index].id, previous[index].slot, all);
        }
        CoversNext(before, Contents, previous, index);
        index := index + 1;
      }
    }

    method ReinsertOne(id: nat, slot: nat, ghost all: map<nat, nat>)
      requires Valid() && deletedCount == 0 && Within(Contents, all) && |all| < entries.Length
      requires id != 0 && id in all && all[id] == slot
      modifies this`size, this`deletedCount, this`Contents, entries
      ensures Valid() && deletedCount == 0 && Within(Contents, all) && Contents == old(Contents)[id := slot]
    {
      WithinInsert(Contents, all, id);
      var inserted := InsertOrAssign(id, slot);
      if !inserted {
        assert false;
      }
    }
  }

  /** Every id among the first n cells is in m. */
  ghost predicate Covers(m: map<nat, nat>, cells: seq<Cell>, n: nat) {
    forall j :: 0 <= j < n && j < |cells| && cells[j].Occupied? ==> cells[j].id in m
  }

  lemma CoversNext(m: map<nat, nat>, more: map<nat, nat>, cells: seq<Cell>, n: nat)
    requires Covers(m, cells, n) && m.Keys <= more.Keys && n < |cells|
    requires cells[n].Occupied? ==> cells[n].id in more
    ensures Covers(more, cells, n + 1)
  {
  }

  lemma CoversAll(m: map<nat, nat>, cells: seq<Cell>, all: map<nat, nat>)
    requires Within(m, all) && Covers(m, cells, |cells|) && AllHeld(cells, all)
    ensures m == all
  {
    forall id | id in all
      ensures id in m
    {
      var j :| Holds(cells, j, id, all[id]);
    }
  }

  ghost predicate Within(m: map<nat, nat>, all: map<nat, nat>) {
    m.Keys <= all.Keys && forall id :: id in m ==> m[id] == all[id]
  }

  lemma WithinInsert(m: map<nat, nat>, all: map<nat, nat>, id: nat)
    requires Within(m, all) && id in all
    ensures id !in m ==> |m| + 1 <= |all|
  {
    SubsetSize(m.Keys + {id}, all.Keys);
  }

  ghost predicate CellsIn(cells: seq<Cell>, m: map<nat, nat>) {
    forall j :: 0 <= j < |cells| && cells[j].Occupied? ==>
      cells[j].id != 0 && cells[j].id in m && m[cells[j].id] == cells[j].slot
  }

  ghost predicate AllHeld(cells: seq<Cell>, m: map<nat, nat>) {
    forall id :: id in m ==> exists j :: Holds(cells, j, id, m[id])
  }
}
