/** The chunk selector as it updates its fields in place. */
module HeapSelector {
  import opened Storage
  import opened ChunkSelector
  import opened ChunkGrants
  import opened SelectorRuns
  import opened SelectorBoot

  // ------------------------------------------------------------ plain scans

  /** The chunk with the most room, as the heap's top. */
  method Top(info: map<Chunk, Info>, heap: seq<Chunk>) returns (i: nat)
    requires heap != [] && forall c :: c in heap ==> c in info
    ensures i < |heap| && forall j :: 0 <= j < |heap| ==> FreeBlks(info[heap[j]]) <= FreeBlks(info[heap[i]])
  {
    i := 0;
    var k := 1;
    while k < |heap|
      invariant 1 <= k <= |heap| && i < k
      invariant forall j :: 0 <= j < k ==> FreeBlks(info[heap[j]]) <= FreeBlks(info[heap[i]])
    {
      if FreeBlks(info[heap[i]]) < FreeBlks(info[heap[k]]) { i := k; }
      k := k + 1;
    }
  }

  /** The device with the longest heap. */
  method MostAvailableDev(heaps: map<Dev, seq<Chunk>>, order: seq<Dev>) returns (d: Dev)
    requires order != [] && forall x :: x in order <==> x in heaps
    ensures d in heaps && forall x :: x in heaps ==> |heaps[x]| <= |heaps[d]|
  {
    d := order[0];
    var k := 1;
    while k < |order|
      invariant 1 <= k <= |order| && d in heaps
      invariant forall j :: 0 <= j < k ==> |heaps[order[j]]| <= |heaps[d]|
    {
      if |heaps[d]| < |heaps[order[k]]| { d := order[k]; }
      k := k + 1;
    }
  }

  predicate IsAvailable(info: map<Chunk, Info>, c: Chunk)
    requires c in info
  {
    info[c].state == Available
  }

  /** max_element under the comparator "not available, or less room than an available
      one". It is not a strict order, yet the scan finds an available chunk with the
      most room whenever one exists. */
  method MostAvailable(info: map<Chunk, Info>, slots: seq<Chunk>) returns (v: nat)
    requires slots != [] && forall c :: c in slots ==> c in info
    ensures v < |slots|
    ensures IsAvailable(info, slots[v]) <==> exists i :: 0 <= i < |slots| && IsAvailable(info, slots[i])
    ensures IsAvailable(info, slots[v]) ==>
      forall i :: 0 <= i < |slots| && IsAvailable(info, slots[i]) ==>
        FreeBlks(info[slots[i]]) <= FreeBlks(info[slots[v]])
  {
    v := 0;
    var k := 1;
    while k < |slots|
      invariant 1 <= k <= |slots| && v < k
      invariant (exists i :: 0 <= i < k && IsAvailable(info, slots[i])) ==> IsAvailable(info, slots[v])
      invariant IsAvailable(info, slots[v]) ==>
        forall i :: 0 <= i < k && IsAvailable(info, slots[i]) ==> FreeBlks(info[slots[i]]) <= FreeBlks(info[slots[v]])
    {
      if !IsAvailable(info, slots[v])
        || (IsAvailable(info, slots[k]) && FreeBlks(info[slots[v]]) < FreeBlks(info[slots[k]])) {
        v := k;
      }
      k := k + 1;
    }
  }

  /** The sanity checks of PG creation: the heap's chunks are empty and available. */
  ghost predicate HeapReady(info: map<Chunk, Info>, heap: seq<Chunk>) {
    NoDup(heap) && forall c :: c in heap ==> c in info && info[c].state == Available && info[c].used == 0
  }

  ghost predicate AllReady(info: map<Chunk, Info>, heaps: map<Dev, seq<Chunk>>) {
    forall d :: d in heaps ==> HeapReady(info, heaps[d]) && |heaps[d]| <= 0xFFFF
  }

  predicate SomeHeapHas(heaps: map<Dev, seq<Chunk>>, n: nat) {
    exists d :: d in heaps && |heaps[d]| >= n
  }

  predicate LongestHeap(heaps: map<Dev, seq<Chunk>>, d: Dev) {
    d in heaps && forall x :: x in heaps ==> |heaps[x]| <= |heaps[d]|
  }

  lemma SelectorReady(s: Selector)
    requires Ok(s) && ReservedSet(s.owner) != {} && forall c :: c in s.info ==> c < 0x1_0000
    ensures AllReady(s.info, s.heaps)
  {
    var r :| r in ReservedSet(s.owner);
    forall d | d in s.heaps ensures HeapReady(s.info, s.heaps[d]) && |s.heaps[d]| <= 0xFFFF {
      HeapsReady(s, d, r);
    }
  }

  /** In every reachable state the sanity checks pass, and a heap is short enough for
      the 16-bit loop variable. */
  lemma HeapsReady(s: Selector, d: Dev, r: Chunk)
    requires Ok(s) && d in s.heaps && r in s.owner && s.owner[r] == Reserved && forall c :: c in s.info ==> c < 0x1_0000
    ensures HeapReady(s.info, s.heaps[d]) && |s.heaps[d]| <= 0xFFFF
  {
    HeapChunks(s, d);
    forall c | c in s.heaps[d] ensures s.info[c].state == Available && s.info[c].used == 0 {
      assert ChunkOk(s.info, s.owner, s.tasks, c);
    }
    HeapFits(s.heaps[d], r, 0x1_0000);
  }

  /** The slot's chunk is in the given state. */
  ghost predicate SlotIs(info: map<Chunk, Info>, arr: Arrays, a: Slot, st: State) {
    IsSlot(arr, a) && ChunkAt(arr, a) in info && info[ChunkAt(arr, a)].state == st
  }

  /** Only the state of chunk `c` may differ. */
  ghost predicate OnlyState(i: map<Chunk, Info>, j: map<Chunk, Info>, c: Chunk) {
    i.Keys == j.Keys && forall x :: x in i ==> j[x] == i[x] || (x == c && j[x] == i[x].(state := j[x].state))
  }

  lemma SelectFollows(s: Selector, a: Slot)
    requires Ok(s)
    ensures IsSlot(s.arr, a) ==> ChunkAt(s.arr, a) in s.info && a.pg in s.num && a.pg in s.blks
    ensures Follows(s, SelectOp(a), SelectSpecific(s, a).0) && Follows(s, ReleaseOp(a), Release(s, a).0)
  {
    if IsSlot(s.arr, a) { SlotChunk(s, a); }
    Follow(s, SelectOp(a), SelectSpecific(s, a).0);
    Follow(s, ReleaseOp(a), Release(s, a).0);
  }

  ghost predicate TakenFor(s: Selector, a: Slot, t: Selector, r: Pick) {
    && (r == Missing <==> !IsSlot(s.arr, a)) && (r == Wait <==> SlotIs(s.info, s.arr, a, Gc))
    && (r.Picked? ==> SlotIs(t.info, s.arr, a, InUse) && r.c == ChunkAt(s.arr, a) && OnlyState(s.info, t.info, r.c))
    && (!SlotIs(s.info, s.arr, a, Available) ==> t == s)
  }

  lemma SelectMeans(s: Selector, a: Slot)
    requires IsSlot(s.arr, a) ==> ChunkAt(s.arr, a) in s.info && a.pg in s.num && a.pg in s.blks
    ensures TakenFor(s, a, SelectSpecific(s, a).0, SelectSpecific(s, a).1)
  {
  }

  ghost predicate ReturnedBy(s: Selector, a: Slot, t: Selector, r: bool) {
    && (r <==> IsSlot(s.arr, a)) && (!SlotIs(s.info, s.arr, a, InUse) ==> t == s)
    && (SlotIs(s.info, s.arr, a, InUse) ==>
          SlotIs(t.info, s.arr, a, Available) && OnlyState(s.info, t.info, ChunkAt(s.arr, a)))
  }

  lemma ReleaseMeans(s: Selector, a: Slot)
    requires IsSlot(s.arr, a) ==> ChunkAt(s.arr, a) in s.info && a.pg in s.num && a.pg in s.blks
    ensures ReturnedBy(s, a, Release(s, a).0, Release(s, a).1)
  {
  }

  ghost predicate MarkedFor(s: Selector, c: Chunk, force: bool, t: Selector, r: bool) {
    && (r <==> c in s.info && s.info[c].state != Gc && (s.info[c].state == InUse ==> force))
    && (r ==> c in t.info && t.info[c].state == Gc && OnlyState(s.info, t.info, c) && HoldsTask(t.owner, t.tasks, c))
    && (!r ==> t == s)
  }

  lemma MarkMeans(s: Selector, c: Chunk, force: bool)
    ensures MarkedFor(s, c, force, TryMark(s, c, force).0, TryMark(s, c, force).1)
  {
  }

  predicate OnHeap(owner: map<Chunk, Owner>, c: Chunk) {
    c in owner && owner[c] == Heap
  }

  lemma MarkFollows(s: Selector, c: Chunk, force: bool)
    requires Ok(s)
    ensures Ok(TryMark(s, c, force).0) <==> !OnHeap(s.owner, c)
    ensures !OnHeap(s.owner, c) ==> Follows(s, MarkOp(c, force), TryMark(s, c, force).0)
  {
    if OnHeap(s.owner, c) {
      HeapMarked(s, c, force);
    } else {
      Follow(s, MarkOp(c, force), TryMark(s, c, force).0);
    }
  }

  /** A chunk on a heap is available, so it is always marked, and the heap then holds a
      chunk in state GC. */
  lemma HeapMarked(s: Selector, c: Chunk, force: bool)
    requires Ok(s) && OnHeap(s.owner, c)
    ensures TryMark(s, c, force).1 && !Ok(TryMark(s, c, force).0)
  {
    var t := TryMark(s, c, force).0;
    assert ChunkOk(s.info, s.owner, s.tasks, c);
    assert t.owner == s.owner && t.info[c].state == Gc;
    assert !ChunkOk(t.info, t.owner, t.tasks, c);
  }

  lemma UnmarkFollows(s: Selector, a: Slot, final: State)
    requires Ok(s) && a in s.tasks && s.tasks[a] == Marked && final != Gc
    ensures IsSlot(s.arr, a) && ChunkAt(s.arr, a) in s.info && Follows(s, FailOp(a, final), Unmark(s, a, final))
  {
    SlotChunk(s, a);
    Follow(s, FailOp(a, final), Unmark(s, a, final));
  }

  lemma SwitchFollows(s: Selector, a: Slot, to: Chunk)
    requires Ok(s) && CanSwitch(s, a, to)
    ensures ChunkAt(s.arr, a) in s.info && a.pg in s.blks && s.info[ChunkAt(s.arr, a)].tag == Tagged(a)
    ensures to != ChunkAt(s.arr, a)
    ensures Follows(s, SwitchOp(a, to), Switch(s, a, to))
  {
    SlotChunk(s, a);
    assert ChunkOk(s.info, s.owner, s.tasks, ChunkAt(s.arr, a));
    Follow(s, SwitchOp(a, to), Switch(s, a, to));
  }

  /** Slot `a` points to `to`; the chunk it replaced, if any, is in the reserved pool. */
  ghost predicate SwitchedTo(s: Selector, a: Slot, from: Chunk, to: Chunk, t: Selector) {
    && IsSlot(t.arr, a) && ChunkAt(t.arr, a) == to && t.info == s.info
    && (IsSlot(s.arr, a) && ChunkAt(s.arr, a) == to ==> t == s)
    && (IsSlot(s.arr, a) && ChunkAt(s.arr, a) != to ==>
          && t.owner == s.owner[to := InPg(a)][from := Reserved]
          && forall b :: IsSlot(s.arr, b) && b != a ==> IsSlot(t.arr, b) && ChunkAt(t.arr, b) == ChunkAt(s.arr, b))
  }

  lemma SwitchMeans(s: Selector, a: Slot, from: Chunk, to: Chunk)
    requires IsSlot(s.arr, a) && ChunkAt(s.arr, a) == from && from in s.info && to in s.info && a.pg in s.blks
    requires from != to
    ensures SwitchedTo(s, a, from, to, Switch(s, a, to))
  {
  }

  lemma FinishFollows(s: Selector, a: Slot, from: Chunk, to: Chunk, final: State)
    requires Ok(s) && CanFinish(s, a, from, to) && final != Gc
    ensures from in s.info && to in s.info && from != to && s.info[from].tag == Tagged(a) && s.owner[from] == Reserved
    ensures Follows(s, FinishOp(a, from, to, final), AfterGc(s, a, from, to, final))
  {
    FinishChunksKnown(s, a, from, to);
    assert ChunkOk(s.info, s.owner, s.tasks, to);
    Follow(s, FinishOp(a, from, to, final), AfterGc(s, a, from, to, final));
  }

  class HeapChunkSelector {
    const dev: map<Chunk, Dev>
    const chunkSize: nat
    var order: seq<Dev>
    var info: map<Chunk, Info>
    var heaps: map<Dev, seq<Chunk>>
    var arr: Arrays
    var num: map<nat, int>
    var blks: map<nat, int>
    ghost var owner: map<Chunk, Owner>
    ghost var tasks: map<Slot, Task>
    ghost var frozen: set<Slot>

    ghost function View(): Selector reads this {
      Selector(dev, info, heaps, arr, num, blks, owner, tasks, frozen)
    }

    ghost predicate Valid() reads this {
      Ok(View()) && Listed(order, heaps.Keys)
    }

    /** Start-up from the superblocks: every chunk has one owner, every counter of every
        PG is exact, and arrays, chunk states, reserved chunks and heaps are those the
        superblocks and the open shards give. */
    constructor (dev: map<Chunk, Dev>, chunkSize: nat, chunks: map<Chunk, Info>, pgs: seq<PgRecord>,
                 reserved: seq<Chunk>, open: map<nat, set<nat>>)
      requires CanStart(Raw(dev, chunks), pgs, reserved, open)
      ensures Valid() && AllExact(View(), true)
      ensures this.dev == dev && this.chunkSize == chunkSize && tasks == map[]
      ensures Rebuilt(dev, chunks, info, heaps, arr, pgs, reserved, open)
    {
      var i, h, a, n, b;
      ghost var o;
      i, h, a, n, b, o := StartUp(dev, chunks, pgs, reserved, open);
      var l := ListOf(h.Keys);
      this.dev, this.chunkSize, order := dev, chunkSize, l;
      info, heaps, arr, num, blks := i, h, a, n, b;
      owner, tasks, frozen := o, map[], {};
    }

    /** Take the chunk of a slot for a shard. */
    method SelectSpecificChunk(a: Slot) returns (r: Pick)
      requires Valid()
      modifies this`info, this`num, this`blks
      ensures Valid() && Follows(old(View()), SelectOp(a), View())
      ensures TakenFor(old(View()), a, View(), r)
    {
      SelectFollows(View(), a);
      SelectMeans(View(), a);
      r := Take(a);
    }

    method Take(a: Slot) returns (r: Pick)
      requires IsSlot(arr, a) ==> ChunkAt(arr, a) in info && a.pg in num && a.pg in blks
      modifies this`info, this`num, this`blks
      ensures (View(), r) == SelectSpecific(old(View()), a)
    {
      if !IsSlot(arr, a) { return Missing; }
      var c := ChunkAt(arr, a);
      if info[c].state == Gc { return Wait; }
      if info[c].state == Available {
        blks := blks[a.pg := blks[a.pg] - FreeBlks(info[c])];
        num := num[a.pg := num[a.pg] - 1];
        info := info[c := info[c].(state := InUse)];
      }
      return Picked(c);
    }

    /** Give the chunk of a slot back: it is out of use afterwards, and a chunk that is
        not in use is left alone. */
    method ReleaseChunk(a: Slot) returns (r: bool)
      requires Valid()
      modifies this`info, this`num, this`blks
      ensures Valid() && Follows(old(View()), ReleaseOp(a), View())
      ensures ReturnedBy(old(View()), a, View(), r)
    {
      SelectFollows(View(), a);
      ReleaseMeans(View(), a);
      r := Return(a);
    }

    method Return(a: Slot) returns (r: bool)
      requires IsSlot(arr, a) ==> ChunkAt(arr, a) in info && a.pg in num && a.pg in blks
      modifies this`info, this`num, this`blks
      ensures (View(), r) == Release(old(View()), a)
    {
      if !IsSlot(arr, a) { return false; }
      var c := ChunkAt(arr, a);
      if info[c].state == InUse {
        info := info[c := info[c].(state := Available)];
        num := num[a.pg := num[a.pg] + 1];
        blks := blks[a.pg := blks[a.pg] + FreeBlks(info[c])];
      }
      return true;
    }

    /** Mark a chunk for GC: refused exactly when the chunk is unknown, under GC, or in
        use and not forced. No counter moves. The selector stays valid if and only if
        the chunk is not on a device heap, where a GC must not find it. */
    method TryMarkChunkToGc(c: Chunk, force: bool) returns (r: bool)
      requires Valid()
      modifies this`info, this`tasks, this`frozen
      ensures Valid() <==> !OnHeap(owner, c)
      ensures !OnHeap(owner, c) ==> Follows(old(View()), MarkOp(c, force), View())
      ensures MarkedFor(old(View()), c, force, View(), r)
    {
      MarkFollows(View(), c, force);
      MarkMeans(View(), c, force);
      r := Mark(c, force);
    }

    method Mark(c: Chunk, force: bool) returns (r: bool)
      modifies this`info, this`tasks, this`frozen
      ensures (View(), r) == TryMark(old(View()), c, force)
    {
      if c !in info || info[c].state == Gc || (info[c].state == InUse && !force) { return false; }
      if c in owner && owner[c].InPg? {
        frozen := if info[c].state == Available then frozen + {owner[c].slot} else frozen;
        tasks := tasks[owner[c].slot := Marked];
      }
      info := info[c := info[c].(state := Gc)];
      return true;
    }

    /** A GC of the chunk in slot `a` failed before it switched the slot: the chunk is
        out of the GC state and the slot has no task. */
    method MarkOutOfGc(c: Chunk, final: State, ghost a: Slot)
      requires Valid() && a in tasks && tasks[a] == Marked && IsSlot(arr, a) && ChunkAt(arr, a) == c && final != Gc
      modifies this`info, this`tasks, this`frozen
      ensures Valid() && Follows(old(View()), FailOp(a, final), View())
      ensures SlotIs(info, arr, a, final) && OnlyState(old(info), info, c) && a !in tasks
    {
      UnmarkFollows(View(), a, final);
      info := info[c := info[c].(state := final)];
      tasks := tasks - {a};
      frozen := frozen - {a};
    }

    /** Put the receiving chunk in the slot of the chunk it replaces; nothing to do when
        it is already there. The two chunks trade owners and no chunk's state moves. */
    method SwitchChunksForPg(pg: nat, from: Chunk, to: Chunk, ghost a: Slot)
      requires Valid() && a.pg == pg && IsSlot(arr, a) && from in info && info[from].tag == Tagged(a)
      requires ChunkAt(arr, a) == to || (ChunkAt(arr, a) == from && CanSwitch(View(), a, to))
      modifies this`arr, this`blks, this`owner, this`tasks
      ensures Valid() && SwitchedTo(old(View()), a, from, to, View())
      ensures old(ChunkAt(arr, a)) != to ==> Follows(old(View()), SwitchOp(a, to), View())
    {
      var v := info[from].tag.slot.v;
      if arr[pg][v] == to { return; }
      SwitchFollows(View(), a, to);
      SwitchMeans(View(), a, from, to);
      PutInSlot(Slot(pg, v), from, to);
    }

    method PutInSlot(a: Slot, from: Chunk, to: Chunk)
      requires IsSlot(arr, a) && ChunkAt(arr, a) == from && from in info && to in info && from != to && a.pg in blks
      modifies this`arr, this`blks, this`owner, this`tasks
      ensures View() == Switch(old(View()), a, to)
    {
      var slots: seq<Chunk> := arr[a.pg][a.v := to];
      arr := arr[a.pg := slots];
      blks := blks[a.pg := blks[a.pg] + (FreeBlks(info[to]) - FreeBlks(info[from]))];
      owner := owner[to := InPg(a)][from := Reserved];
      tasks := tasks[a := Switched(from)];
    }

    /** The end of a GC: the slot's chunk carries the slot's tag and the final state, the
        chunk it replaced is untagged in the reserved pool, and the slot has no task. */
    method UpdateAfterGc(from: Chunk, to: Chunk, final: State, a: Slot)
      requires Valid() && CanFinish(View(), a, from, to) && final != Gc
      modifies this`info, this`tasks, this`frozen
      ensures Valid() && Follows(old(View()), FinishOp(a, from, to, final), View())
      ensures SlotIs(info, arr, a, final) && a !in tasks && to in info && info[to].tag == Tagged(a)
      ensures from in info && info[from].tag == NoTag && info[from].state == Gc && from in owner
      ensures owner[from] == Reserved
      ensures forall c :: c in info && c != from && c != to ==> c in old(info) && info[c] == old(info)[c]
    {
      FinishFollows(View(), a, from, to, final);
      MoveTag(from, to, final, a);
    }

    method MoveTag(from: Chunk, to: Chunk, final: State, a: Slot)
      requires from in info && to in info && from != to
      modifies this`info, this`tasks, this`frozen
      ensures View() == AfterGc(old(View()), a, from, to, final)
    {
      info := info[to := info[to].(tag := Tagged(a))];
      info := info[from := info[from].(tag := NoTag)];
      info := info[to := info[to].(state := final)];
      tasks := tasks - {a};
      frozen := frozen - {a};
      assert info
        == old(info)[from := old(info)[from].(tag := NoTag)][to := old(info)[to].(tag := Tagged(a), state := final)];
    }

    /** Pick the available chunk with the most room and take it; none exactly when no
        chunk of the PG is available. */
    method GetMostAvailableChunk(pg: nat) returns (r: Option<nat>)
      requires Valid() && (pg in arr ==> arr[pg] != [])
      modifies this`info, this`num, this`blks
      ensures Valid()
      ensures r.None? <==> NoneAvailable(old(info), arr, pg)
      ensures r.None? ==> View() == old(View())
      ensures r.Some? ==> Follows(old(View()), SelectOp(Slot(pg, r.value)), View())
      ensures r.Some? ==>
        pg in arr && MostRoom(old(info), arr[pg], r.value) && SlotIs(info, arr, Slot(pg, r.value), InUse)
    {
      ghost var s := View();
      OkHasShape(s);
      r := TakeMostAvailable(pg);
      if r.Some? {
        SelectFollows(s, Slot(pg, r.value));
        SelectMeans(s, Slot(pg, r.value));
      }
    }

    method TakeMostAvailable(pg: nat) returns (r: Option<nat>)
      requires Shape(info, arr, num, blks) && (pg in arr ==> arr[pg] != [])
      modifies this`info, this`num, this`blks
      ensures r.None? <==> NoneAvailable(old(info), arr, pg)
      ensures r.None? ==> View() == old(View())
      ensures r.Some? ==> IsSlot(arr, Slot(pg, r.value)) && View() == Taken(old(View()), Slot(pg, r.value))
      ensures r.Some? ==> MostRoom(old(info), arr[pg], r.value)
    {
      if pg !in arr { return None; }
      var v := MostAvailable(info, arr[pg]);
      if !IsAvailable(info, arr[pg][v]) { return None; }
      assert SlotIs(info, arr, Slot(pg, v), Available);
      var c := arr[pg][v];
      blks := blks[pg := blks[pg] - FreeBlks(info[c])];
      num := num[pg := num[pg] - 1];
      info := info[c := info[c].(state := InUse)];
      return Some(v);
    }

    /** Create a PG of floor(size / chunk size) chunks, all from the device with the
        longest heap, or nothing when that is too short. A PG that exists is kept. */
    method SelectChunksForPg(pg: nat, size: nat) returns (r: Option<nat>, ghost d: Dev, ghost picks: seq<Chunk>)
      requires Valid() && chunkSize > 0 && order != []
      requires (pg in arr ==> |arr[pg]| == (size / chunkSize) % 0x1_0000_0000)
      requires ReservedSet(owner) != {} && forall c :: c in info ==> c < 0x1_0000
      modifies this`info, this`heaps, this`arr, this`num, this`blks, this`owner
      ensures Valid()
      ensures r.Some? <==>
        size >= chunkSize && (pg in old(arr) || SomeHeapHas(old(heaps), (size / chunkSize) % 0x1_0000_0000))
      ensures r.None? || pg in old(arr) ==> View() == old(View())
      ensures r.Some? ==> r.value == (size / chunkSize) % 0x1_0000_0000
      ensures r.Some? && pg !in old(arr) ==> Follows(old(View()), CreateOp(pg, d, picks), View()) && |picks| == r.value
      ensures r.Some? && pg !in old(arr) ==>
        LongestHeap(old(heaps), d) && CreatedFrom(old(View()), pg, d, picks, View())
    {
      ghost var s := View();
      SelectorReady(s);
      r, d, picks := CreatePg(pg, size);
      if r.Some? && pg !in s.arr {
        Follow(s, CreateOp(pg, d, picks), View());
        CreateMeans(s, pg, d, picks);
      }
    }

    method CreatePg(pg: nat, size: nat) returns (r: Option<nat>, ghost d: Dev, ghost picks: seq<Chunk>)
      requires chunkSize > 0 && order != [] && Listed(order, heaps.Keys) && AllReady(info, heaps)
      modifies this`info, this`heaps, this`arr, this`num, this`blks, this`owner
      ensures heaps.Keys == old(heaps).Keys
      ensures r.Some? <==>
        size >= chunkSize && (pg in old(arr) || SomeHeapHas(old(heaps), (size / chunkSize) % 0x1_0000_0000))
      ensures r.None? || pg in old(arr) ==> View() == old(View())
      ensures r.Some? ==> r.value == (size / chunkSize) % 0x1_0000_0000
      ensures r.Some? && pg !in old(arr) ==>
        LongestHeap(old(heaps), d) && Pops(old(heaps)[d], picks) && |picks| == r.value
      ensures r.Some? && pg !in old(arr) ==> InAll(picks, old(info)) && View() == Grants(old(View()), pg, d, picks)
    {
      d, picks := 0, [];
      if size < chunkSize { return None, d, picks; }
      var n := (size / chunkSize) % 0x1_0000_0000;
      if pg in arr { return Some(n), d, picks; }
      var best := MostAvailableDev(heaps, order);
      d := best;
      if n > |heaps[best]| { return None, d, picks; }
      arr, num, blks := arr[pg := []], num[pg := 0], blks[pg := 0];
      picks := GrantMany(pg, best, n, old(View()));
      return Some(n), d, picks;
    }

    /** The loop of PG creation; its variable has 16 bits. */
    method GrantMany(pg: nat, d: Dev, n: nat, ghost s0: Selector) returns (ghost picks: seq<Chunk>)
      requires d in heaps && d in s0.heaps && HeapReady(info, heaps[d]) && n <= |heaps[d]| <= 0xFFFF
      requires View() == NewPg(s0, pg)
      modifies this`info, this`heaps, this`arr, this`num, this`blks, this`owner
      ensures Pops(old(heaps)[d], picks) && |picks| == n && forall c :: c in picks ==> c in s0.info
      ensures View() == Grants(s0, pg, d, picks) && heaps.Keys == old(heaps).Keys
    {
      picks := [];
      var v: nat := 0;
      while v < n
        invariant 0 <= v <= n <= 0xFFFF && |picks| == v && d in heaps && n - v <= |heaps[d]|
        invariant HeapReady(info, heaps[d])
        invariant pg in arr && pg in num && pg in blks && heaps.Keys == old(heaps).Keys
        invariant Popping(old(heaps)[d], heaps[d], picks) && InAll(picks, s0.info)
        invariant View() == Grants(s0, pg, d, picks)
        decreases n - v
      {
        ghost var heap, s := heaps[d], View();
        var c := GrantTop(pg, d);
        PopMore(old(heaps)[d], heap, heaps[d], picks, c);
        GrantsSnoc(s0, pg, d, picks, c, s);
        picks := picks + [c];
        v := Next16(v);
      }
    }

    /** Give the top of the heap to the PG; the two checks are the source's. */
    method GrantTop(pg: nat, d: Dev) returns (c: Chunk)
      requires d in heaps && heaps[d] != [] && HeapReady(info, heaps[d]) && pg in arr && pg in num && pg in blks
      modifies this`info, this`heaps, this`arr, this`num, this`blks, this`owner
      ensures c in old(info) && View() == Granted(old(View()), pg, d, Remove(old(heaps)[d], c), c)
      ensures Popped(old(heaps)[d], heaps[d], c) && HeapReady(info, heaps[d])
    {
      var i := Top(info, heaps[d]);
      c := heaps[d][i];
      assert info[c].used == 0;
      assert info[c].state == Available;
      RemoveAt(heaps[d], i);
      PopAt(heaps[d], i);
      heaps := heaps[d := heaps[d][..i] + heaps[d][i + 1..]];
      owner := owner[c := InPg(Slot(pg, |arr[pg]|))];
      info := info[c := info[c].(tag := Tagged(Slot(pg, |arr[pg]|)))];
      arr := arr[pg := arr[pg] + [c]];
      num := num[pg := num[pg] + 1];
      blks := blks[pg := blks[pg] + FreeBlks(info[c])];
    }

    /** Empty the chunks of a PG and give them back to the heap of their device; false
        when there is no such PG. */
    method DestroyPg(pg: nat) returns (r: bool)
      requires Valid() && (pg in arr ==> arr[pg] != [] && NoTaskIn(tasks, pg))
      modifies this`info, this`heaps, this`arr, this`num, this`blks, this`owner
      ensures Valid() && pg !in arr && (r <==> pg in old(arr))
      ensures !r ==> View() == old(View())
      ensures r ==> Follows(old(View()), DestroyOp(pg), View())
      ensures r ==> forall c :: c in old(arr)[pg] ==> c in info && c in owner && owner[c] == Heap && info[c].used == 0
      ensures r ==> arr == old(arr) - {pg} && OthersKept(old(info), info, old(arr)[pg])
    {
      if pg !in arr { return false; }
      ghost var s := View();
      DestroyReady(s, pg);
      FreePg(pg);
      Follow(s, DestroyOp(pg), View());
      FreedToHeap(s, pg);
      return true;
    }

    method FreePg(pg: nat)
      requires Shape(info, arr, num, blks) && pg in arr && arr[pg] != [] && arr[pg][0] in dev
      requires dev[arr[pg][0]] in heaps
      requires NoDup(arr[pg]) && forall c :: c in arr[pg] ==> info[c].state != Gc
      modifies this`info, this`heaps, this`arr, this`num, this`blks, this`owner
      ensures View() == Destroyed(old(View()), pg) && heaps.Keys == old(heaps).Keys
    {
      var slots, d := arr[pg], dev[arr[pg][0]];
      info := ResetChunks(info, slots);
      info := ReturnChunks(info, slots);
      FreedTwice(old(info), slots);
      heaps := heaps[d := heaps[d] + slots];
      owner := map c | c in owner :: if c in slots then Heap else owner[c];
      arr, num, blks := arr - {pg}, num - {pg}, blks - {pg};
    }
  }

  ghost predicate NoneAvailable(info: map<Chunk, Info>, arr: Arrays, pg: nat) {
    forall v: nat :: !SlotIs(info, arr, Slot(pg, v), Available)
  }

  /** The conditions of the two loops that free a PG hold in every reachable state. */
  lemma DestroyReady(s: Selector, pg: nat)
    requires Ok(s) && pg in s.arr && s.arr[pg] != [] && NoTaskIn(s.tasks, pg)
    ensures Shape(s.info, s.arr, s.num, s.blks) && s.arr[pg][0] in s.dev && s.dev[s.arr[pg][0]] in s.heaps
    ensures NoDup(s.arr[pg])
    ensures forall c :: c in s.arr[pg] ==> s.info[c].state != Gc
  {
    OkHasShape(s);
    ArrayNoDup(s.arr, s.owner, pg);
    DestroyedOk(s, pg);
    forall c | c in s.arr[pg] ensures s.info[c].state != Gc {
      var v :| 0 <= v < |s.arr[pg]| && s.arr[pg][v] == c;
      SlotChunk(s, Slot(pg, v));
      assert ChunkOk(s.info, s.owner, s.tasks, c);
    }
  }

  /** Chunks other than those of `slots` are as before, and no chunk changes size. */
  ghost predicate OthersKept(before: map<Chunk, Info>, after: map<Chunk, Info>, slots: seq<Chunk>) {
    && before.Keys == after.Keys
    && (forall c :: c in before ==> c in after && after[c].total == before[c].total)
    && (forall c :: c in before && c !in slots ==> c in after && after[c] == before[c])
  }

  /** The new PG has exactly the chunks `picks`, all from the heap of `d`, its counters
      are exact, and of all chunks only their tags change. */
  ghost predicate CreatedFrom(s: Selector, pg: nat, d: Dev, picks: seq<Chunk>, t: Selector) {
    && d in s.heaps && d in t.heaps && t.arr == s.arr[pg := picks] && NoDup(picks)
    && PickedOff(s.heaps[d], picks, t.heaps[d])
    && NumExact(t, pg) && BlkExact(t, pg) && OnlyTags(s.info, t.info, picks)
  }

  ghost predicate OnlyTags(before: map<Chunk, Info>, after: map<Chunk, Info>, picks: seq<Chunk>) {
    && before.Keys == after.Keys
    && forall c :: c in before ==>
         c in after && after[c] == if c in picks then before[c].(tag := after[c].tag) else before[c]
  }

  lemma FreedToHeap(s: Selector, pg: nat)
    requires Ok(s) && pg in s.arr && s.arr[pg] != [] && s.arr[pg][0] in s.dev && s.dev[s.arr[pg][0]] in s.heaps
    ensures var t := Destroyed(s, pg);
      forall c :: c in s.arr[pg] ==> c in t.info && c in t.owner && t.owner[c] == Heap && t.info[c].used == 0
    ensures var t := Destroyed(s, pg);
      t.arr == s.arr - {pg} && OthersKept(s.info, t.info, s.arr[pg])
  {
    OkHasShape(s);
  }

  lemma {:induction false} GrantsTag(s: Selector, pg: nat, d: Dev, picks: seq<Chunk>)
    requires d in s.heaps && InAll(picks, s.info)
    ensures OnlyTags(s.info, Grants(s, pg, d, picks).info, picks)
  {
    if picks != [] {
      var front, c := picks[..|picks| - 1], picks[|picks| - 1];
      assert picks == front + [c];
      GrantsTag(s, pg, d, front);
      GrantsSnoc(s, pg, d, front, c, Grants(s, pg, d, front));
    }
  }

  lemma CreateMeans(s: Selector, pg: nat, d: Dev, picks: seq<Chunk>)
    requires Ok(s) && pg !in s.arr && d in s.heaps && Pops(s.heaps[d], picks)
    ensures InAll(picks, s.info) && CreatedFrom(s, pg, d, picks, Grants(s, pg, d, picks))
  {
    HeapChunks(s, d);
    GrantsOk(s, pg, d, picks);
    GrantsShape(s, pg, d, picks);
    GrantsTag(s, pg, d, picks);
    HeapLeft(s, pg, d, picks);
  }

  ghost predicate PickedOff(heap: seq<Chunk>, picks: seq<Chunk>, rest: seq<Chunk>) {
    (forall c :: c in heap <==> c in picks || c in rest) && (forall c :: c in picks ==> c !in rest)
  }

  /** What is on a heap and was picked from it follows from the owners. */
  lemma HeapParts(dev: map<Chunk, Dev>, heaps: map<Dev, seq<Chunk>>, owner: map<Chunk, Owner>, d: Dev,
                  picks: seq<Chunk>, heaps': map<Dev, seq<Chunk>>, owner': map<Chunk, Owner>)
    requires HeapsOk(dev, heaps, owner) && HeapsOk(dev, heaps', owner') && OwnersAfter(owner, owner', picks)
    requires d in heaps && d in heaps' && Pops(heaps[d], picks)
    ensures PickedOff(heaps[d], picks, heaps'[d])
  {
    forall c | c in heaps'[d] ensures c in heaps[d] && c !in picks {
      assert owner'[c] == Heap && dev[c] == d;
    }
    forall c | c in heaps[d] && c !in picks ensures c in heaps'[d] {
      assert owner[c] == Heap && dev[c] == d;
    }
  }

  /** The heap keeps what was not picked. */
  lemma HeapLeft(s: Selector, pg: nat, d: Dev, picks: seq<Chunk>)
    requires Ok(s) && pg !in s.arr && d in s.heaps && Pops(s.heaps[d], picks) && InAll(picks, s.info)
    ensures d in Grants(s, pg, d, picks).heaps && PickedOff(s.heaps[d], picks, Grants(s, pg, d, picks).heaps[d])
  {
    GrantsOk(s, pg, d, picks);
    GrantsShape(s, pg, d, picks);
    CreateOwners(s, pg, d, picks);
    var t := Grants(s, pg, d, picks);
    HeapParts(s.dev, s.heaps, s.owner, d, picks, t.heaps, t.owner);
  }

  ghost predicate Listed(order: seq<Dev>, devs: set<Dev>) {
    forall d :: d in order <==> d in devs
  }

  method ListOf(devs: set<Dev>) returns (order: seq<Dev>)
    ensures Listed(order, devs)
  {
    order := [];
    var todo := devs;
    while todo != {}
      invariant todo <= devs && Listed(order, devs - todo)
      decreases |todo|
    {
      var d :| d in todo;
      order, todo := order + [d], todo - {d};
    }
  }

  /** A chunk of a PG that is under GC has a task for its slot. */
  ghost predicate HoldsTask(owner: map<Chunk, Owner>, tasks: map<Slot, Task>, c: Chunk) {
    c in owner && owner[c].InPg? ==> owner[c].slot in tasks && tasks[owner[c].slot] == Marked
  }

  /** Increment of a 16-bit variable: it wraps, but not below a 16-bit bound. */
  function Next16(v: nat): (r: nat)
    ensures v < 0xFFFF ==> r == v + 1
  {
    (v + 1) % 0x1_0000
  }

  /** `picks` were popped off `all`, and `heap` is left. */
  ghost predicate Popping(all: seq<Chunk>, heap: seq<Chunk>, picks: seq<Chunk>) {
    Pops(all, picks) && forall c :: c in heap ==> c in all && c !in picks
  }

  lemma PopMore(all: seq<Chunk>, heap: seq<Chunk>, rest: seq<Chunk>, picks: seq<Chunk>, c: Chunk)
    requires Popping(all, heap, picks) && Popped(heap, rest, c)
    ensures Popping(all, rest, picks + [c])
  {
  }

  /** Every chunk of `slots` empty, the rest as before. */
  function Emptied(info: map<Chunk, Info>, slots: seq<Chunk>): map<Chunk, Info> {
    map c | c in info :: if c in slots then info[c].(used := 0) else info[c]
  }

  /** Every chunk of `slots` untagged and out of use. */
  function Untagged(info: map<Chunk, Info>, slots: seq<Chunk>): map<Chunk, Info> {
    map c | c in info :: if c in slots then info[c].(state := if info[c].state == InUse then Available
      else info[c].state, tag := NoTag)
                         else info[c]
  }

  method ResetChunks(info: map<Chunk, Info>, slots: seq<Chunk>) returns (r: map<Chunk, Info>)
    requires NoDup(slots) && forall c :: c in slots ==> c in info
    ensures r == Emptied(info, slots)
  {
    r := info;
    var v := 0;
    while v < |slots|
      invariant 0 <= v <= |slots| && r == Emptied(info, slots[..v])
    {
      assert slots[..v + 1] == slots[..v] + [slots[v]];
      r := r[slots[v] := r[slots[v]].(used := 0)];
      v := v + 1;
    }
    assert slots[..v] == slots;
  }

  method ReturnChunks(info: map<Chunk, Info>, slots: seq<Chunk>) returns (r: map<Chunk, Info>)
    requires NoDup(slots) && forall c :: c in slots ==> c in info
    ensures r == Untagged(info, slots)
  {
    r := info;
    var v := 0;
    while v < |slots|
      invariant 0 <= v <= |slots| && r == Untagged(info, slots[..v])
    {
      var c := slots[v];
      assert slots[..v + 1] == slots[..v] + [c];
      assert c !in slots[..v];
      if r[c].state == InUse { r := r[c := r[c].(state := Available)]; }
      r := r[c := r[c].(tag := NoTag)];
      v := v + 1;
    }
    assert slots[..v] == slots;
  }

  lemma FreedTwice(info: map<Chunk, Info>, slots: seq<Chunk>)
    requires forall c :: c in slots ==> c in info && info[c].state != Gc
    ensures Untagged(Emptied(info, slots), slots) == Freed(info, slots)
  {
  }

  ghost predicate MostRoom(info: map<Chunk, Info>, slots: seq<Chunk>, v: nat) {
    && v < |slots| && slots[v] in info && info[slots[v]].state == Available
    && forall i :: 0 <= i < |slots| && slots[i] in info && info[slots[i]].state == Available ==>
         FreeBlks(info[slots[i]]) <= FreeBlks(info[slots[v]])
  }
}
