/** Rebuilding the chunk selector at start-up, with no unfinished GC task. */
module SelectorBoot {
  import opened Storage
  import opened ChunkSelector
  import opened ChunkGrants
  import opened SelectorRuns

  /** While PG superblocks and reserved-chunk records are read: chunks named by
      neither have no owner yet. */
  ghost predicate BootChunk(info: map<Chunk, Info>, owner: map<Chunk, Owner>, c: Chunk)
    requires c in info
  {
    && info[c].used <= info[c].total
    && if c !in owner then info[c].state == Available && info[c].tag == NoTag
       else match owner[c]
         case Heap => false
         case Reserved => info[c].state == Gc && info[c].tag == NoTag
         case InPg(a) => info[c].state == Available && info[c].tag == Tagged(a)
  }

  ghost predicate BootChunks(info: map<Chunk, Info>, owner: map<Chunk, Owner>) {
    forall c :: c in info ==> BootChunk(info, owner, c)
  }

  /** Chunks nobody claims hold no data. */
  ghost predicate UnclaimedEmpty(info: map<Chunk, Info>, owner: map<Chunk, Owner>) {
    forall c :: c in info && c !in owner ==> info[c].used == 0
  }

  ghost predicate SameDev(dev: map<Chunk, Dev>, arr: Arrays) {
    forall a :: IsSlot(arr, a) ==>
      ChunkAt(arr, a) in dev && arr[a.pg][0] in dev && dev[ChunkAt(arr, a)] == dev[arr[a.pg][0]]
  }

  ghost predicate Booting(s: Selector) {
    && s.dev.Keys == s.info.Keys && s.owner.Keys <= s.info.Keys && s.heaps == map[]
    && SlotsOk(s.arr, s.owner) && SameDev(s.dev, s.arr)
    && BootChunks(s.info, s.owner)
    && s.tasks == map[] && s.frozen == {} && s.num.Keys == s.arr.Keys && s.blks.Keys == s.arr.Keys
  }

  // ------------------------------------------------------------ a PG's array

  function TaggedAs(info: map<Chunk, Info>, pg: nat, ids: seq<Chunk>, n: nat): map<Chunk, Info>
    requires n <= |ids|
  {
    if n == 0 then info
    else
      var t := TaggedAs(info, pg, ids, n - 1);
      if ids[n - 1] in t then t[ids[n - 1] := t[ids[n - 1]].(tag := Tagged(Slot(pg, n - 1)))] else t
  }

  /** The superblock of a PG is usable: chunks exist and share a device. */
  predicate Recoverable(s: map<Chunk, Info>, dev: map<Chunk, Dev>, arr: Arrays, pg: nat, ids: seq<Chunk>) {
    pg !in arr && ids != [] && ids[0] in dev && forall c :: c in ids ==> c in s && c in dev && dev[c] == dev[ids[0]]
  }

  method CheckChunks(info: map<Chunk, Info>, dev: map<Chunk, Dev>, arr: Arrays, pg: nat, ids: seq<Chunk>)
    returns (ok: bool)
    requires dev.Keys == info.Keys
    ensures ok <==> Recoverable(info, dev, arr, pg, ids)
  {
    if pg in arr || ids == [] { return false; }
    var last: Option<Dev> := None;
    var i := 0;
    while i < |ids|
      invariant 0 <= i <= |ids|
      invariant last.None? <==> i == 0
      invariant last.Some? ==> ids[0] in dev && last.value == dev[ids[0]]
      invariant forall j :: 0 <= j < i ==> ids[j] in info && dev[ids[j]] == dev[ids[0]]
    {
      if ids[i] !in info { return false; }
      if last.Some? && last.value != dev[ids[i]] { return false; }
      last := Some(dev[ids[i]]);
      i := i + 1;
    }
    return true;
  }

  method TagChunks(info: map<Chunk, Info>, pg: nat, ids: seq<Chunk>) returns (r: map<Chunk, Info>)
    requires forall c :: c in ids ==> c in info
    ensures r == TaggedAs(info, pg, ids, |ids|)
  {
    r := info;
    var v := 0;
    while v < |ids|
      invariant 0 <= v <= |ids| && r.Keys == info.Keys && r == TaggedAs(info, pg, ids, v)
    {
      r := r[ids[v] := r[ids[v]].(tag := Tagged(Slot(pg, v)))];
      v := v + 1;
    }
  }

  lemma {:induction false} TaggedAt(info: map<Chunk, Info>, pg: nat, ids: seq<Chunk>, n: nat, c: Chunk)
    requires n <= |ids| && NoDup(ids) && c in info
    ensures c in TaggedAs(info, pg, ids, n)
    ensures c !in ids[..n] ==> TaggedAs(info, pg, ids, n)[c] == info[c]
    ensures forall v :: 0 <= v < n && ids[v] == c ==>
      TaggedAs(info, pg, ids, n)[c] == info[c].(tag := Tagged(Slot(pg, v)))
  {
    if n > 0 {
      TaggedAt(info, pg, ids, n - 1, c);
      assert ids[..n] == ids[..n - 1] + [ids[n - 1]];
    }
  }

  lemma {:induction false} TaggedKeys(info: map<Chunk, Info>, pg: nat, ids: seq<Chunk>, n: nat)
    requires n <= |ids|
    ensures TaggedAs(info, pg, ids, n).Keys == info.Keys
  {
    if n > 0 { TaggedKeys(info, pg, ids, n - 1); }
  }

  ghost function OwnedBy(owner: map<Chunk, Owner>, pg: nat, ids: seq<Chunk>, n: nat): map<Chunk, Owner>
    requires n <= |ids|
  {
    if n == 0 then owner else OwnedBy(owner, pg, ids, n - 1)[ids[n - 1] := InPg(Slot(pg, n - 1))]
  }

  lemma {:induction false} OwnedAt(owner: map<Chunk, Owner>, pg: nat, ids: seq<Chunk>, n: nat, c: Chunk)
    requires n <= |ids| && NoDup(ids)
    ensures c !in ids[..n] ==> (c in OwnedBy(owner, pg, ids, n) <==> c in owner)
    ensures c !in ids[..n] && c in owner ==> OwnedBy(owner, pg, ids, n)[c] == owner[c]
    ensures forall v: nat :: v < n && ids[v] == c ==>
      c in OwnedBy(owner, pg, ids, n) && OwnedBy(owner, pg, ids, n)[c] == InPg(Slot(pg, v))
  {
    if n > 0 {
      OwnedAt(owner, pg, ids, n - 1, c);
      assert ids[..n] == ids[..n - 1] + [ids[n - 1]];
    }
  }

  lemma {:induction false} OwnedKeys(owner: map<Chunk, Owner>, pg: nat, ids: seq<Chunk>, n: nat, known: set<Chunk>)
    requires n <= |ids| && owner.Keys <= known && forall c :: c in ids ==> c in known
    ensures OwnedBy(owner, pg, ids, n).Keys <= known
  {
    if n > 0 {
      OwnedKeys(owner, pg, ids, n - 1, known);
      assert ids[n - 1] in ids;
    }
  }

  ghost function RecoveredPg(s: Selector, pg: nat, ids: seq<Chunk>): Selector {
    s.(info := TaggedAs(s.info, pg, ids, |ids|), arr := s.arr[pg := ids], num := s.num[pg := 0],
       blks := s.blks[pg := 0], owner := OwnedBy(s.owner, pg, ids, |ids|))
  }

  lemma RecoverSlots(arr: Arrays, owner: map<Chunk, Owner>, pg: nat, ids: seq<Chunk>)
    requires SlotsOk(arr, owner) && pg !in arr && NoDup(ids) && forall c :: c in ids ==> c !in owner
    ensures SlotsOk(arr[pg := ids], OwnedBy(owner, pg, ids, |ids|))
  {
    var arr', owner' := arr[pg := ids], OwnedBy(owner, pg, ids, |ids|);
    assert ids[..|ids|] == ids;
    forall a | IsSlot(arr', a) ensures ChunkAt(arr', a) in owner' && owner'[ChunkAt(arr', a)] == InPg(a) {
      OwnedAt(owner, pg, ids, |ids|, ChunkAt(arr', a));
      if a.pg != pg { assert IsSlot(arr, a) && ChunkAt(arr, a) == ChunkAt(arr', a); }
    }
    forall c | c in owner' && owner'[c].InPg?
      ensures IsSlot(arr', owner'[c].slot) && ChunkAt(arr', owner'[c].slot) == c
    {
      OwnedAt(owner, pg, ids, |ids|, c);
      if c !in ids { assert IsSlot(arr, owner[c].slot) && ChunkAt(arr, owner[c].slot) == c; }
    }
  }

  lemma RecoverChunks(info: map<Chunk, Info>, owner: map<Chunk, Owner>, pg: nat, ids: seq<Chunk>)
    requires BootChunks(info, owner) && NoDup(ids) && forall c :: c in ids ==> c !in owner
    ensures BootChunks(TaggedAs(info, pg, ids, |ids|), OwnedBy(owner, pg, ids, |ids|))
  {
    TaggedKeys(info, pg, ids, |ids|);
    assert ids[..|ids|] == ids;
    var info', owner' := TaggedAs(info, pg, ids, |ids|), OwnedBy(owner, pg, ids, |ids|);
    forall c | c in info' ensures BootChunk(info', owner', c) {
      assert BootChunk(info, owner, c);
      TaggedAt(info, pg, ids, |ids|, c);
      OwnedAt(owner, pg, ids, |ids|, c);
    }
  }

  lemma RecoverDevs(dev: map<Chunk, Dev>, arr: Arrays, pg: nat, ids: seq<Chunk>)
    requires SameDev(dev, arr) && ids != [] && ids[0] in dev
    requires forall c :: c in ids ==> c in dev && dev[c] == dev[ids[0]]
    ensures SameDev(dev, arr[pg := ids])
  {
    var arr' := arr[pg := ids];
    forall a | IsSlot(arr', a)
      ensures ChunkAt(arr', a) in dev && arr'[a.pg][0] in dev && dev[ChunkAt(arr', a)] == dev[arr'[a.pg][0]]
    {
      if a.pg != pg { assert IsSlot(arr, a); } else { assert ids[a.v] in ids; }
    }
  }

  /** Reading the superblock of a PG whose chunks nobody else names. */
  lemma RecoverPgBoots(s: Selector, pg: nat, ids: seq<Chunk>)
    requires Booting(s) && Recoverable(s.info, s.dev, s.arr, pg, ids) && NoDup(ids)
    requires forall c :: c in ids ==> c !in s.owner
    ensures Booting(RecoveredPg(s, pg, ids))
  {
    TaggedKeys(s.info, pg, ids, |ids|);
    OwnedKeys(s.owner, pg, ids, |ids|, s.info.Keys);
    RecoverSlots(s.arr, s.owner, pg, ids);
    RecoverChunks(s.info, s.owner, pg, ids);
    RecoverDevs(s.dev, s.arr, pg, ids);
  }

  // ------------------------------------------------------- reserved chunks

  /** A reserved-chunk record marks its chunk. */
  ghost function ReservedOne(s: Selector, c: Chunk): Selector {
    s.(info := if c in s.info then s.info[c := s.info[c].(state := Gc)] else s.info, owner := s.owner[c := Reserved])
  }

  lemma ReserveBoots(s: Selector, c: Chunk)
    requires Booting(s) && c in s.info && c !in s.owner
    ensures Booting(ReservedOne(s, c))
  {
    var t := ReservedOne(s, c);
    forall x | x in t.info ensures BootChunk(t.info, t.owner, x) {
      assert BootChunk(s.info, s.owner, x);
    }
  }

  // -------------------------------------------------------------- the heaps

  /** A chunk goes to the heap unless a PG or the reserved pool has it. */
  predicate Unclaimed(info: map<Chunk, Info>, c: Chunk)
    requires c in info
  {
    info[c].tag == NoTag && info[c].state != Gc
  }

  ghost predicate HeapsFor(dev: map<Chunk, Dev>, info: map<Chunk, Info>, heaps: map<Dev, seq<Chunk>>,
                           seen: set<Chunk>) {
    && (forall d :: d in heaps ==> NoDup(heaps[d]))
    && (forall d, c :: d in heaps && c in heaps[d] ==>
          c in seen && c in info && c in dev && Unclaimed(info, c) && dev[c] == d)
    && (forall c :: c in seen && c in info && c in dev ==>
          dev[c] in heaps && (Unclaimed(info, c) ==> c in heaps[dev[c]]))
  }

  /** The heaps with one more chunk looked at. */
  function HeapsWith(dev: map<Chunk, Dev>, info: map<Chunk, Info>, heaps: map<Dev, seq<Chunk>>, c: Chunk)
    : map<Dev, seq<Chunk>>
    requires c in dev && c in info
  {
    var heap := if dev[c] in heaps then heaps[dev[c]] else [];
    heaps[dev[c] := if Unclaimed(info, c) then heap + [c] else heap]
  }

  lemma HeapsGrow(dev: map<Chunk, Dev>, info: map<Chunk, Info>, heaps: map<Dev, seq<Chunk>>, seen: set<Chunk>, c: Chunk)
    requires dev.Keys == info.Keys && c in info && c !in seen && HeapsFor(dev, info, heaps, seen)
    ensures HeapsFor(dev, info, HeapsWith(dev, info, heaps, c), seen + {c})
  {
    var d, after := dev[c], HeapsWith(dev, info, heaps, c);
    assert d in heaps ==> c !in heaps[d];
    assert NoDup(after[d]);
    forall x | x in seen + {c} && x in info ensures dev[x] in after && (Unclaimed(info, x) ==> x in after[dev[x]]) {
      if x != c { assert dev[x] in heaps; }
    }
  }

  lemma OneLess(all: set<Chunk>, todo: set<Chunk>, c: Chunk)
    requires c in todo && todo <= all
    ensures all - (todo - {c}) == all - todo + {c}
  {
  }

  method AddChunk(dev: map<Chunk, Dev>, info: map<Chunk, Info>, heaps: map<Dev, seq<Chunk>>, c: Chunk)
    returns (r: map<Dev, seq<Chunk>>)
    requires c in dev && c in info
    ensures r == HeapsWith(dev, info, heaps, c)
  {
    var heap := if dev[c] in heaps then heaps[dev[c]] else [];
    if Unclaimed(info, c) { heap := heap + [c]; }
    r := heaps[dev[c] := heap];
  }

  method BuildHeap(dev: map<Chunk, Dev>, info: map<Chunk, Info>) returns (heaps: map<Dev, seq<Chunk>>)
    requires dev.Keys == info.Keys
    ensures HeapsFor(dev, info, heaps, info.Keys)
  {
    heaps := map[];
    var todo := info.Keys;
    assert info.Keys - todo == {};
    while todo != {}
      invariant todo <= info.Keys && HeapsFor(dev, info, heaps, info.Keys - todo)
      decreases |todo|
    {
      var c :| c in todo;
      HeapsGrow(dev, info, heaps, info.Keys - todo, c);
      OneLess(info.Keys, todo, c);
      heaps := AddChunk(dev, info, heaps, c);
      todo := todo - {c};
    }
    assert info.Keys - todo == info.Keys;
  }

  ghost function Built(s: Selector, heaps: map<Dev, seq<Chunk>>): Selector {
    s.(heaps := heaps, owner := Filled(s.info, s.owner))
  }

  ghost function Filled(info: map<Chunk, Info>, owner: map<Chunk, Owner>): map<Chunk, Owner> {
    map c | c in info :: if c in owner then owner[c] else Heap
  }

  lemma BuiltHeaps(dev: map<Chunk, Dev>, info: map<Chunk, Info>, heaps: map<Dev, seq<Chunk>>, owner: map<Chunk, Owner>)
    requires dev.Keys == info.Keys && HeapsFor(dev, info, heaps, info.Keys) && BootChunks(info, owner)
    ensures HeapsOk(dev, heaps, Filled(info, owner))
  {
    forall c | c in info ensures Unclaimed(info, c) <==> c !in owner {
      assert BootChunk(info, owner, c);
    }
    forall c | c in info && c in owner ensures owner[c] != Heap {
      assert BootChunk(info, owner, c);
    }
  }

  lemma BuiltChunks(info: map<Chunk, Info>, owner: map<Chunk, Owner>)
    requires BootChunks(info, owner) && UnclaimedEmpty(info, owner)
    ensures ChunksOk(info, Filled(info, owner), map[])
  {
    forall c | c in info ensures ChunkOk(info, Filled(info, owner), map[], c) {
      assert BootChunk(info, owner, c);
    }
  }

  lemma BuiltDevs(dev: map<Chunk, Dev>, info: map<Chunk, Info>, heaps: map<Dev, seq<Chunk>>, arr: Arrays)
    requires dev.Keys == info.Keys && SameDev(dev, arr) && HeapsFor(dev, info, heaps, info.Keys)
    ensures DevOk(dev, heaps, arr)
  {
    forall a | IsSlot(arr, a) ensures OnDev(dev, heaps, ChunkAt(arr, a), arr[a.pg][0]) {
      assert ChunkAt(arr, a) in dev && arr[a.pg][0] in dev && dev[ChunkAt(arr, a)] == dev[arr[a.pg][0]];
    }
  }

  /** After the heaps are built, every chunk has exactly one owner. */
  lemma BuiltOk(s: Selector, heaps: map<Dev, seq<Chunk>>)
    requires Booting(s) && UnclaimedEmpty(s.info, s.owner) && HeapsFor(s.dev, s.info, heaps, s.info.Keys)
    ensures Ok(Built(s, heaps))
  {
    BuiltHeaps(s.dev, s.info, heaps, s.owner);
    BuiltChunks(s.info, s.owner);
    BuiltSlots(s, Built(s, heaps));
    BuiltDevs(s.dev, s.info, heaps, s.arr);
  }

  lemma BuiltSlots(s: Selector, t: Selector)
    requires SlotsOk(s.arr, s.owner) && s.owner.Keys <= s.info.Keys && t.arr == s.arr
    requires t.owner == Filled(s.info, s.owner)
    ensures SlotsOk(t.arr, t.owner)
  {
  }

  // ------------------------------------------------------------- the states

  /** Chunks of open shards in use, the others available; counters from scratch. */
  ghost function StatesSet(info: map<Chunk, Info>, slots: seq<Chunk>, open: set<nat>, n: nat): map<Chunk, Info>
    requires n <= |slots|
  {
    if n == 0 then info
    else
      var t := StatesSet(info, slots, open, n - 1);
      var c := slots[n - 1];
      if c in t then t[c := t[c].(state := if n - 1 in open then InUse else Available)] else t
  }

  lemma {:induction false} StateAt(info: map<Chunk, Info>, slots: seq<Chunk>, open: set<nat>, n: nat, c: Chunk)
    requires n <= |slots| && NoDup(slots) && c in info
    ensures c in StatesSet(info, slots, open, n)
    ensures c !in slots[..n] ==> StatesSet(info, slots, open, n)[c] == info[c]
    ensures forall v :: 0 <= v < n && slots[v] == c ==>
      StatesSet(info, slots, open, n)[c] == info[c].(state := if v in open then InUse else Available)
  {
    if n > 0 {
      StateAt(info, slots, open, n - 1, c);
      assert slots[..n] == slots[..n - 1] + [slots[n - 1]];
    }
  }

  lemma {:induction false} StatesKeys(info: map<Chunk, Info>, slots: seq<Chunk>, open: set<nat>, n: nat)
    requires n <= |slots|
    ensures StatesSet(info, slots, open, n).Keys == info.Keys
  {
    if n > 0 { StatesKeys(info, slots, open, n - 1); }
  }

  function Ones(slots: nat, open: set<nat>): seq<int> {
    seq(slots, v => if v in open then 0 else 1)
  }

  function Room(info: map<Chunk, Info>, slots: seq<Chunk>, open: set<nat>): seq<int>
    requires forall c :: c in slots ==> c in info
  {
    seq(|slots|, v requires 0 <= v < |slots| => if v in open then 0 else FreeBlks(info[slots[v]]))
  }

  function CountTo(open: set<nat>, n: nat): int {
    if n == 0 then 0 else CountTo(open, n - 1) + if n - 1 in open then 0 else 1
  }

  function RoomTo(info: map<Chunk, Info>, slots: seq<Chunk>, open: set<nat>, n: nat): int
    requires n <= |slots| && forall c :: c in slots ==> c in info
  {
    if n == 0 then 0 else RoomTo(info, slots, open, n - 1) + if n - 1 in open then 0 else FreeBlks(info[slots[n - 1]])
  }

  lemma {:induction false} CountIsTotal(open: set<nat>, n: nat)
    ensures CountTo(open, n) == Total(Ones(n, open))
  {
    if n > 0 {
      CountIsTotal(open, n - 1);
      var x := if n - 1 in open then 0 else 1;
      assert Ones(n, open) == Ones(n - 1, open) + [x];
      TotalSnoc(Ones(n - 1, open), x);
    }
  }

  lemma RoomSnoc(info: map<Chunk, Info>, slots: seq<Chunk>, open: set<nat>, n: nat, x: int)
    requires n < |slots| && (forall c :: c in slots ==> c in info)
    requires x == if n in open then 0 else FreeBlks(info[slots[n]])
    ensures (forall c :: c in slots[..n + 1] ==> c in info) && (forall c :: c in slots[..n] ==> c in info)
    ensures Room(info, slots[..n + 1], open) == Room(info, slots[..n], open) + [x]
  {
    var more, less := slots[..n + 1], slots[..n];
    assert more[..n] == less && more[n] == slots[n];
    assert |Room(info, more, open)| == n + 1 && |Room(info, less, open)| == n;
    forall v | 0 <= v < n ensures Room(info, more, open)[v] == Room(info, less, open)[v] {
      assert more[v] == less[v];
    }
  }

  lemma {:induction false} RoomIsTotal(info: map<Chunk, Info>, slots: seq<Chunk>, open: set<nat>, n: nat)
    requires n <= |slots| && forall c :: c in slots ==> c in info
    ensures forall c :: c in slots[..n] ==> c in info
    ensures RoomTo(info, slots, open, n) == Total(Room(info, slots[..n], open))
  {
    if n > 0 {
      RoomIsTotal(info, slots, open, n - 1);
      var x := if n - 1 in open then 0 else FreeBlks(info[slots[n - 1]]);
      RoomSnoc(info, slots, open, n - 1, x);
      TotalSnoc(Room(info, slots[..n - 1], open), x);
    }
  }

  method RecoverStates(info: map<Chunk, Info>, slots: seq<Chunk>, open: set<nat>)
    returns (r: map<Chunk, Info>, num: int, blks: int)
    requires NoDup(slots) && forall c :: c in slots ==> c in info
    ensures r == StatesSet(info, slots, open, |slots|)
    ensures num == Total(Ones(|slots|, open)) && blks == Total(Room(info, slots, open))
  {
    r, num, blks := info, 0, 0;
    var v := 0;
    while v < |slots|
      invariant 0 <= v <= |slots| && r.Keys == info.Keys && r == StatesSet(info, slots, open, v)
      invariant num == CountTo(open, v) && blks == RoomTo(info, slots, open, v)
    {
      var c := slots[v];
      StateAt(info, slots, open, v, c);
      if v !in open {
        num := num + 1;
        blks := blks + FreeBlks(r[c]);
      }
      r := r[c := r[c].(state := if v in open then InUse else Available)];
      v := v + 1;
    }
    CountIsTotal(open, v);
    RoomIsTotal(info, slots, open, v);
    assert slots[..v] == slots;
  }

  ghost function Restarted(s: Selector, pg: nat, open: set<nat>): Selector
    requires pg in s.arr && forall c :: c in s.arr[pg] ==> c in s.info
  {
    s.(info := StatesSet(s.info, s.arr[pg], open, |s.arr[pg]|), num := s.num[pg := Total(Ones(|s.arr[pg]|, open))],
       blks := s.blks[pg := Total(Room(s.info, s.arr[pg], open))])
  }

  lemma RestartChunks(s: Selector, pg: nat, open: set<nat>, info: map<Chunk, Info>)
    requires ChunksOk(s.info, s.owner, s.tasks) && SlotsOk(s.arr, s.owner) && pg in s.arr && NoTaskIn(s.tasks, pg)
    requires info == StatesSet(s.info, s.arr[pg], open, |s.arr[pg]|)
    ensures ChunksOk(info, s.owner, s.tasks)
  {
    var slots := s.arr[pg];
    StatesKeys(s.info, slots, open, |slots|);
    ArrayNoDup(s.arr, s.owner, pg);
    assert slots[..|slots|] == slots;
    forall c | c in info ensures ChunkOk(info, s.owner, s.tasks, c) {
      assert ChunkOk(s.info, s.owner, s.tasks, c);
      StateAt(s.info, slots, open, |slots|, c);
      InArray(s.arr, s.owner, pg, c);
      if s.owner[c].InPg? && s.owner[c].slot in s.tasks && s.tasks[s.owner[c].slot].Switched? {
        var from := s.tasks[s.owner[c].slot].from;
        StateAt(s.info, slots, open, |slots|, from);
        InArray(s.arr, s.owner, pg, from);
      }
    }
  }

  lemma RestartWeights(info: map<Chunk, Info>, frozen: set<Slot>, pg: nat, slots: seq<Chunk>, open: set<nat>,
                       after: map<Chunk, Info>)
    requires NoDup(slots) && (forall c :: c in slots ==> c in info) && (forall v :: Slot(pg, v) !in frozen)
    requires after == StatesSet(info, slots, open, |slots|)
    ensures NumWeights(after, frozen, pg, slots) == Ones(|slots|, open)
    ensures BlkWeights(after, frozen, pg, slots) == Room(info, slots, open)
  {
    forall v | 0 <= v < |slots|
      ensures NumWeight(after, frozen, slots[v], Slot(pg, v)) == Ones(|slots|, open)[v]
      ensures BlkWeight(after, frozen, slots[v], Slot(pg, v)) == Room(info, slots, open)[v]
    {
      StateAt(info, slots, open, |slots|, slots[v]);
    }
  }

  /** The recovered states keep the owners, and the recovered counters are exact. */
  lemma RestartedOk(s: Selector, pg: nat, open: set<nat>)
    requires Ok(s) && pg in s.arr && NoTaskIn(s.tasks, pg)
    ensures (forall c :: c in s.arr[pg] ==> c in s.info) && Ok(Restarted(s, pg, open))
    ensures NumExact(Restarted(s, pg, open), pg) && BlkExact(Restarted(s, pg, open), pg)
  {
    OkHasShape(s);
    var t := Restarted(s, pg, open);
    RestartChunks(s, pg, open, t.info);
    ArrayNoDup(s.arr, s.owner, pg);
    RestartWeights(s.info, s.frozen, pg, s.arr[pg], open, t.info);
  }

  // ------------------------------------------------------------- all of it

  /** The chunks as the devices give them: no PG, no reserved record read yet. */
  ghost predicate Formatted(s: Selector) {
    && s.dev.Keys == s.info.Keys && s.heaps == map[] && s.arr == map[] && s.num == map[] && s.blks == map[]
    && s.owner == map[] && s.tasks == map[] && s.frozen == {}
    && forall c :: c in s.info ==>
          s.info[c].used <= s.info[c].total && s.info[c].state == Available && s.info[c].tag == NoTag
  }

  lemma FormattedBoots(s: Selector)
    requires Formatted(s)
    ensures Booting(s)
  {
    forall c | c in s.info ensures BootChunk(s.info, s.owner, c) {
    }
  }

  /** The superblock of a PG: its chunks in slot order. */
  datatype PgRecord = PgRecord(pg: nat, ids: seq<Chunk>)

  /** The first `n` superblocks read one after the other. */
  ghost function AfterPgs(s: Selector, pgs: seq<PgRecord>, n: nat): Selector
    requires n <= |pgs|
  {
    if n == 0 then s else RecoveredPg(AfterPgs(s, pgs, n - 1), pgs[n - 1].pg, pgs[n - 1].ids)
  }

  ghost predicate PgFits(t: Selector, pg: nat, ids: seq<Chunk>) {
    Recoverable(t.info, t.dev, t.arr, pg, ids) && NoDup(ids) && forall c :: c in ids ==> c !in t.owner
  }

  /** They name different PGs and different chunks, each PG's on one device. */
  ghost predicate PgsFit(s: Selector, pgs: seq<PgRecord>, n: nat)
    requires n <= |pgs|
  {
    n == 0 || (PgsFit(s, pgs, n - 1) && PgFits(AfterPgs(s, pgs, n - 1), pgs[n - 1].pg, pgs[n - 1].ids))
  }

  lemma NextBoots(t: Selector, p: PgRecord, u: Selector)
    requires Booting(t) && PgFits(t, p.pg, p.ids) && u == RecoveredPg(t, p.pg, p.ids)
    ensures Booting(u) && u.dev == t.dev
  {
    RecoverPgBoots(t, p.pg, p.ids);
  }

  lemma {:induction false} PgsBoot(s: Selector, pgs: seq<PgRecord>, n: nat)
    requires Booting(s) && n <= |pgs| && PgsFit(s, pgs, n)
    ensures Booting(AfterPgs(s, pgs, n)) && AfterPgs(s, pgs, n).dev == s.dev
  {
    if n > 0 {
      PgsBoot(s, pgs, n - 1);
      NextBoots(AfterPgs(s, pgs, n - 1), pgs[n - 1], AfterPgs(s, pgs, n));
    }
  }

  lemma {:induction false} PgFitsAt(s: Selector, pgs: seq<PgRecord>, n: nat, m: nat)
    requires n < m <= |pgs| && PgsFit(s, pgs, m)
    ensures PgFits(AfterPgs(s, pgs, n), pgs[n].pg, pgs[n].ids)
  {
    if n < m - 1 { PgFitsAt(s, pgs, n, m - 1); }
  }

  lemma {:induction false} SameDevices(s: Selector, pgs: seq<PgRecord>, n: nat)
    requires n <= |pgs|
    ensures AfterPgs(s, pgs, n).dev == s.dev && AfterPgs(s, pgs, n).info.Keys == s.info.Keys
  {
    if n > 0 {
      SameDevices(s, pgs, n - 1);
      TaggedKeys(AfterPgs(s, pgs, n - 1).info, pgs[n - 1].pg, pgs[n - 1].ids, |pgs[n - 1].ids|);
    }
  }

  ghost predicate AllIn(chunks: seq<Chunk>, known: set<Chunk>) {
    forall c :: c in chunks ==> c in known
  }

  /** The reserved records read one after the other. */
  ghost function AfterReserved(s: Selector, reserved: seq<Chunk>): Selector
    requires AllIn(reserved, s.info.Keys)
    ensures AfterReserved(s, reserved).info.Keys == s.info.Keys
  {
    if reserved == [] then s
    else ReservedOne(AfterReserved(s, reserved[..|reserved| - 1]), reserved[|reserved| - 1])
  }

  /** They name different chunks, none of a PG. */
  ghost predicate ReservedFit(s: Selector, reserved: seq<Chunk>) {
    NoDup(reserved) && forall c :: c in reserved ==> c in s.info && c !in s.owner
  }

  lemma {:induction false} ReservedBoot(s: Selector, reserved: seq<Chunk>)
    requires Booting(s) && ReservedFit(s, reserved)
    ensures Booting(AfterReserved(s, reserved)) && AfterReserved(s, reserved).arr == s.arr
    ensures forall c :: c !in reserved ==> (c in AfterReserved(s, reserved).owner <==> c in s.owner)
  {
    if reserved != [] {
      var n := |reserved| - 1;
      assert forall c :: c in reserved[..n] ==> c in reserved;
      assert reserved[n] !in reserved[..n];
      ReservedBoot(s, reserved[..n]);
      ReserveBoots(AfterReserved(s, reserved[..n]), reserved[n]);
    }
  }

  ghost predicate ChunksKnown(arr: Arrays, info: map<Chunk, Info>) {
    forall pg, c :: pg in arr && c in arr[pg] ==> c in info
  }

  /** The states of the PGs recovered one after the other, `open[pg]` being the slots
      with an open shard. */
  ghost function RestartedAll(s: Selector, pgs: seq<nat>, open: map<nat, set<nat>>): Selector
    requires forall pg :: pg in pgs ==> pg in s.arr && pg in open
    requires ChunksKnown(s.arr, s.info)
    ensures RestartedAll(s, pgs, open).arr == s.arr && RestartedAll(s, pgs, open).info.Keys == s.info.Keys
  {
    if pgs == [] then s
    else
      var n := |pgs| - 1;
      assert forall pg :: pg in pgs[..n] ==> pg in pgs;
      var t := RestartedAll(s, pgs[..n], open);
      StatesKeys(t.info, t.arr[pgs[n]], open[pgs[n]], |t.arr[pgs[n]]|);
      Restarted(t, pgs[n], open[pgs[n]])
  }

  /** Recovering one PG leaves the chunks and counters of the others alone. */
  lemma RestartOthers(s: Selector, pg: nat, open: set<nat>, other: nat)
    requires Ok(s) && pg in s.arr && other in s.arr && other != pg
    ensures (forall c :: c in s.arr[pg] ==> c in s.info) && PgSame(s, Restarted(s, pg, open), other)
  {
    OkHasShape(s);
    ArrayNoDup(s.arr, s.owner, pg);
    var slots := s.arr[pg];
    StatesKeys(s.info, slots, open, |slots|);
    assert slots[..|slots|] == slots;
    forall c | c in s.arr[other] ensures Restarted(s, pg, open).info[c] == s.info[c] {
      InArray(s.arr, s.owner, other, c);
      InArray(s.arr, s.owner, pg, c);
      StateAt(s.info, slots, open, |slots|, c);
    }
  }

  ghost predicate ExactIn(s: Selector, pgs: seq<nat>) {
    forall pg :: pg in pgs ==> NumExact(s, pg) && BlkExact(s, pg)
  }

  /** The chunk of a slot with an open shard is in use, that of any other slot is
      available. */
  ghost predicate StatesOf(info: map<Chunk, Info>, slots: seq<Chunk>, open: set<nat>) {
    forall v :: 0 <= v < |slots| ==>
      slots[v] in info && info[slots[v]].state == if v in open then InUse else Available
  }

  ghost predicate StatesIn(s: Selector, pgs: seq<nat>, open: map<nat, set<nat>>) {
    forall pg :: pg in pgs ==> pg in s.arr && pg in open && StatesOf(s.info, s.arr[pg], open[pg])
  }

  lemma RestartSets(s: Selector, pg: nat, open: set<nat>)
    requires Ok(s) && pg in s.arr && forall c :: c in s.arr[pg] ==> c in s.info
    ensures StatesOf(Restarted(s, pg, open).info, s.arr[pg], open)
  {
    ArrayNoDup(s.arr, s.owner, pg);
    forall v | 0 <= v < |s.arr[pg]|
      ensures var i := Restarted(s, pg, open).info;
        s.arr[pg][v] in i && i[s.arr[pg][v]].state == if v in open then InUse else Available
    {
      StateAt(s.info, s.arr[pg], open, |s.arr[pg]|, s.arr[pg][v]);
    }
  }

  lemma StatesNext(s: Selector, front: seq<nat>, pg: nat, open: map<nat, set<nat>>)
    requires Ok(s) && pg in s.arr && pg in open && StatesIn(s, front, open)
    requires forall c :: c in s.arr[pg] ==> c in s.info
    ensures StatesIn(Restarted(s, pg, open[pg]), front + [pg], open)
  {
    var t := Restarted(s, pg, open[pg]);
    forall other | other in front + [pg]
      ensures other in t.arr && other in open && StatesOf(t.info, t.arr[other], open[other])
    {
      if other == pg {
        RestartSets(s, pg, open[pg]);
      } else {
        RestartOthers(s, pg, open[pg], other);
        SameStates(s.info, t.info, s.arr[other], open[other]);
      }
    }
  }

  lemma SameStates(i: map<Chunk, Info>, j: map<Chunk, Info>, slots: seq<Chunk>, open: set<nat>)
    requires StatesOf(i, slots, open) && forall c :: c in slots ==> c in i && c in j && j[c] == i[c]
    ensures StatesOf(j, slots, open)
  {
    assert forall v :: 0 <= v < |slots| ==> slots[v] in slots;
  }

  lemma RestartNext(s: Selector, front: seq<nat>, pg: nat, open: set<nat>)
    requires Ok(s) && s.tasks == map[] && pg in s.arr && ExactIn(s, front)
    ensures (forall c :: c in s.arr[pg] ==> c in s.info) && Ok(Restarted(s, pg, open))
    ensures Restarted(s, pg, open).tasks == map[] && ExactIn(Restarted(s, pg, open), front + [pg])
  {
    RestartedOk(s, pg, open);
    var t := Restarted(s, pg, open);
    forall other | other in front + [pg] ensures NumExact(t, other) && BlkExact(t, other) {
      if other != pg {
        RestartOthers(s, pg, open, other);
        PgSameExact(s, t, other);
      }
    }
  }

  lemma RestartedSnoc(s: Selector, front: seq<nat>, pg: nat, open: map<nat, set<nat>>)
    requires ChunksKnown(s.arr, s.info) && pg in s.arr && pg in open
    requires forall x :: x in front ==> x in s.arr && x in open
    ensures (forall x :: x in front + [pg] ==> x in s.arr && x in open)
    ensures forall c :: c in s.arr[pg] ==> c in RestartedAll(s, front, open).info
    ensures RestartedAll(s, front + [pg], open) == Restarted(RestartedAll(s, front, open), pg, open[pg])
  {
    assert (front + [pg])[..|front|] == front;
  }

  ghost predicate RestartDone(t: Selector, pgs: seq<nat>, open: map<nat, set<nat>>) {
    Ok(t) && t.tasks == map[] && ExactIn(t, pgs) && StatesIn(t, pgs, open)
  }

  lemma {:induction false} AllRestarted(s: Selector, pgs: seq<nat>, open: map<nat, set<nat>>)
    requires Ok(s) && s.tasks == map[] && ChunksKnown(s.arr, s.info)
    requires forall pg :: pg in pgs ==> pg in s.arr && pg in open
    ensures RestartDone(RestartedAll(s, pgs, open), pgs, open)
  {
    if pgs != [] {
      var n := |pgs| - 1;
      var front, pg := pgs[..n], pgs[n];
      assert pgs == front + [pg];
      assert forall x :: x in front ==> x in pgs;
      AllRestarted(s, front, open);
      RestartedSnoc(s, front, pg, open);
      RestartNext(RestartedAll(s, front, open), front, pg, open[pg]);
      StatesNext(RestartedAll(s, front, open), front, pg, open);
    }
  }

  /** What start-up reads: superblocks that fit together. */
  ghost predicate StartsFrom(s: Selector, pgs: seq<PgRecord>, reserved: seq<Chunk>) {
    Formatted(s) && PgsFit(s, pgs, |pgs|) && ReservedFit(AfterPgs(s, pgs, |pgs|), reserved)
  }

  lemma ReadBoots(s: Selector, pgs: seq<PgRecord>, reserved: seq<Chunk>)
    requires StartsFrom(s, pgs, reserved)
    ensures Booting(AfterReserved(AfterPgs(s, pgs, |pgs|), reserved))
  {
    FormattedBoots(s);
    PgsBoot(s, pgs, |pgs|);
    ReservedBoot(AfterPgs(s, pgs, |pgs|), reserved);
  }

  /** Start-up as a whole: superblocks and reserved records read, heaps built over `t`,
      states recovered from `u`. If no chunk that nobody claims holds data, every chunk
      has one owner and every counter of every PG is exact; PG chunks and reserved
      chunks may hold any amount. */
  lemma StartUpOk(s: Selector, pgs: seq<PgRecord>, reserved: seq<Chunk>, t: Selector, heaps: map<Dev, seq<Chunk>>,
                  u: Selector, order: seq<nat>, open: map<nat, set<nat>>)
    requires StartsFrom(s, pgs, reserved) && t == AfterReserved(AfterPgs(s, pgs, |pgs|), reserved)
    requires UnclaimedEmpty(t.info, t.owner) && HeapsFor(t.dev, t.info, heaps, t.info.Keys) && u == Built(t, heaps)
    requires (forall pg :: pg in order <==> pg in u.arr) && (forall pg :: pg in order ==> pg in open)
    ensures ChunksKnown(u.arr, u.info)
    ensures Ok(RestartedAll(u, order, open)) && AllExact(RestartedAll(u, order, open), true)
  {
    ReadBoots(s, pgs, reserved);
    BuiltOk(t, heaps);
    OkHasShape(u);
    AllRestarted(u, order, open);
  }

  // ------------------------------------------------------- what is recovered

  /** No chunk changes size or content. */
  ghost predicate SameBlocks(i: map<Chunk, Info>, j: map<Chunk, Info>) {
    i.Keys == j.Keys && forall c :: c in i ==> c in j && j[c].total == i[c].total && j[c].used == i[c].used
  }

  lemma {:induction false} TaggedBlocks(info: map<Chunk, Info>, pg: nat, ids: seq<Chunk>, n: nat)
    requires n <= |ids|
    ensures SameBlocks(info, TaggedAs(info, pg, ids, n))
  {
    if n > 0 { TaggedBlocks(info, pg, ids, n - 1); }
  }

  lemma {:induction false} StatesBlocks(info: map<Chunk, Info>, slots: seq<Chunk>, open: set<nat>, n: nat)
    requires n <= |slots|
    ensures SameBlocks(info, StatesSet(info, slots, open, n))
  {
    if n > 0 { StatesBlocks(info, slots, open, n - 1); }
  }

  lemma {:induction false} PgsBlocks(s: Selector, pgs: seq<PgRecord>, n: nat)
    requires n <= |pgs|
    ensures SameBlocks(s.info, AfterPgs(s, pgs, n).info)
  {
    if n > 0 {
      PgsBlocks(s, pgs, n - 1);
      TaggedBlocks(AfterPgs(s, pgs, n - 1).info, pgs[n - 1].pg, pgs[n - 1].ids, |pgs[n - 1].ids|);
    }
  }

  lemma {:induction false} ReservedBlocks(s: Selector, reserved: seq<Chunk>)
    requires AllIn(reserved, s.info.Keys)
    ensures SameBlocks(s.info, AfterReserved(s, reserved).info)
  {
    if reserved != [] { ReservedBlocks(s, reserved[..|reserved| - 1]); }
  }

  lemma {:induction false} RestartBlocks(s: Selector, pgs: seq<nat>, open: map<nat, set<nat>>)
    requires ChunksKnown(s.arr, s.info) && forall pg :: pg in pgs ==> pg in s.arr && pg in open
    ensures SameBlocks(s.info, RestartedAll(s, pgs, open).info)
  {
    if pgs != [] {
      var n := |pgs| - 1;
      assert forall pg :: pg in pgs[..n] ==> pg in pgs;
      assert pgs == pgs[..n] + [pgs[n]];
      RestartBlocks(s, pgs[..n], open);
      RestartedSnoc(s, pgs[..n], pgs[n], open);
      StatesBlocks(RestartedAll(s, pgs[..n], open).info, s.arr[pgs[n]], open[pgs[n]], |s.arr[pgs[n]]|);
    }
  }

  ghost predicate ArraysAre(arr: Arrays, pgs: seq<PgRecord>, n: nat)
    requires n <= |pgs|
  {
    forall i :: 0 <= i < n ==> pgs[i].pg in arr && arr[pgs[i].pg] == pgs[i].ids
  }

  /** The array of each PG is the one its superblock has. */
  lemma {:induction false} ReadArrays(s: Selector, pgs: seq<PgRecord>, n: nat)
    requires n <= |pgs| && PgsFit(s, pgs, n)
    ensures ArraysAre(AfterPgs(s, pgs, n).arr, pgs, n)
  {
    if n > 0 { ReadArrays(s, pgs, n - 1); }
  }

  ghost predicate ReservedAre(owner: map<Chunk, Owner>, reserved: seq<Chunk>) {
    forall c :: c in owner && owner[c] == Reserved <==> c in reserved
  }

  ghost predicate NoneReserved(owner: map<Chunk, Owner>) {
    forall c :: c in owner ==> owner[c] != Reserved
  }

  lemma {:induction false} OwnedNotReserved(owner: map<Chunk, Owner>, pg: nat, ids: seq<Chunk>, n: nat)
    requires n <= |ids| && NoneReserved(owner)
    ensures NoneReserved(OwnedBy(owner, pg, ids, n))
  {
    if n > 0 { OwnedNotReserved(owner, pg, ids, n - 1); }
  }

  lemma {:induction false} PgsNotReserved(s: Selector, pgs: seq<PgRecord>, n: nat)
    requires n <= |pgs| && s.owner == map[]
    ensures NoneReserved(AfterPgs(s, pgs, n).owner)
  {
    if n > 0 {
      PgsNotReserved(s, pgs, n - 1);
      OwnedNotReserved(AfterPgs(s, pgs, n - 1).owner, pgs[n - 1].pg, pgs[n - 1].ids, |pgs[n - 1].ids|);
    }
  }

  lemma {:induction false} ReadReservedAre(s: Selector, reserved: seq<Chunk>)
    requires AllIn(reserved, s.info.Keys) && NoneReserved(s.owner)
    ensures ReservedAre(AfterReserved(s, reserved).owner, reserved)
  {
    if reserved != [] {
      var n := |reserved| - 1;
      ReadReservedAre(s, reserved[..n]);
      assert reserved == reserved[..n] + [reserved[n]];
    }
  }

  /** What the superblocks say of a chunk: slot `a` has it, or it is reserved, or
      neither and its device's heap has it. */
  ghost predicate ChunkRebuilt(dev: map<Chunk, Dev>, info: map<Chunk, Info>, heaps: map<Dev, seq<Chunk>>, arr: Arrays,
                               reserved: seq<Chunk>, c: Chunk)
    requires c in info
  {
    || (exists a: Slot :: IsSlot(arr, a) && ChunkAt(arr, a) == c && info[c].tag == Tagged(a))
    || (c in reserved && info[c].state == Gc && info[c].tag == NoTag)
    || (c !in reserved && info[c].state == Available && info[c].tag == NoTag
        && c in dev && dev[c] in heaps && c in heaps[dev[c]])
  }

  /** The selector is what the superblocks say: each PG has its array, the chunk of an
      open shard is in use and the PG's other chunks are available, reserved chunks are
      in state GC, every other chunk is in the heap of its device, and no chunk's size
      or content has changed. */
  ghost predicate Rebuilt(dev: map<Chunk, Dev>, info0: map<Chunk, Info>, info: map<Chunk, Info>,
                          heaps: map<Dev, seq<Chunk>>, arr: Arrays, pgs: seq<PgRecord>, reserved: seq<Chunk>,
                          open: map<nat, set<nat>>) {
    && SameBlocks(info0, info) && ArraysAre(arr, pgs, |pgs|)
    && (forall pg :: pg in arr <==> pg in PgsOf(pgs))
    && (forall pg :: pg in arr ==> pg in open && StatesOf(info, arr[pg], open[pg]))
    && (forall c :: c in reserved ==> c in info && info[c].state == Gc)
    && (forall c :: c in info ==> ChunkRebuilt(dev, info, heaps, arr, reserved, c))
  }

  lemma OwnerRebuilt(s: Selector, reserved: seq<Chunk>, c: Chunk)
    requires Ok(s) && s.tasks == map[] && ReservedAre(s.owner, reserved) && c in s.info
    ensures ChunkRebuilt(s.dev, s.info, s.heaps, s.arr, reserved, c)
    ensures c in reserved ==> s.info[c].state == Gc
  {
    assert ChunkOk(s.info, s.owner, s.tasks, c);
    if s.owner[c].InPg? { assert IsSlot(s.arr, s.owner[c].slot); }
  }

  lemma RestartRebuilds(s: Selector, pgs: seq<PgRecord>, reserved: seq<Chunk>, r: Selector, open: map<nat, set<nat>>)
    requires SameBlocks(s.info, r.info) && ArraysAre(r.arr, pgs, |pgs|)
    requires forall pg :: pg in r.arr <==> pg in PgsOf(pgs)
    requires Ok(r) && r.tasks == map[] && StatesIn(r, PgsOf(pgs), open) && ReservedAre(r.owner, reserved)
    ensures Rebuilt(r.dev, s.info, r.info, r.heaps, r.arr, pgs, reserved, open)
  {
    forall c | c in r.info ensures ChunkRebuilt(r.dev, r.info, r.heaps, r.arr, reserved, c) {
      OwnerRebuilt(r, reserved, c);
    }
    forall c | c in reserved ensures c in r.info && r.info[c].state == Gc {
      OwnerRebuilt(r, reserved, c);
    }
  }

  // ------------------------------------------------------------- the loops

  /** Read the PG superblocks; each of them is accepted. */
  method ReadPgs(ghost s: Selector, info0: map<Chunk, Info>, dev: map<Chunk, Dev>, pgs: seq<PgRecord>)
    returns (info: map<Chunk, Info>, arr: Arrays, num: map<nat, int>, blks: map<nat, int>)
    requires Formatted(s) && PgsFit(s, pgs, |pgs|) && s.info == info0 && s.dev == dev
    ensures info == AfterPgs(s, pgs, |pgs|).info && arr == AfterPgs(s, pgs, |pgs|).arr
    ensures num == AfterPgs(s, pgs, |pgs|).num && blks == AfterPgs(s, pgs, |pgs|).blks
  {
    info, arr, num, blks := info0, map[], map[], map[];
    var n: nat := 0;
    while n < |pgs|
      invariant 0 <= n <= |pgs|
      invariant info == AfterPgs(s, pgs, n).info && arr == AfterPgs(s, pgs, n).arr
      invariant num == AfterPgs(s, pgs, n).num && blks == AfterPgs(s, pgs, n).blks
    {
      var pg, ids := pgs[n].pg, pgs[n].ids;
      PgFitsAt(s, pgs, n, |pgs|);
      SameDevices(s, pgs, n);
      var ok := CheckChunks(info, dev, arr, pg, ids);
      assert ok;
      info := TagChunks(info, pg, ids);
      arr, num, blks := arr[pg := ids], num[pg := 0], blks[pg := 0];
      n := n + 1;
    }
  }

  /** Read the reserved records. */
  method ReadReserved(ghost s: Selector, info0: map<Chunk, Info>, reserved: seq<Chunk>) returns (info: map<Chunk, Info>)
    requires AllIn(reserved, s.info.Keys) && s.info == info0
    ensures info == AfterReserved(s, reserved).info
  {
    info := info0;
    var i := 0;
    while i < |reserved|
      invariant 0 <= i <= |reserved| && AllIn(reserved[..i], s.info.Keys)
      invariant info == AfterReserved(s, reserved[..i]).info
    {
      ReservedSnoc(s, reserved, i);
      info := info[reserved[i] := info[reserved[i]].(state := Gc)];
      i := i + 1;
    }
    assert reserved[..i] == reserved;
  }

  lemma ReservedSnoc(s: Selector, reserved: seq<Chunk>, i: nat)
    requires AllIn(reserved, s.info.Keys) && i < |reserved|
    ensures AllIn(reserved[..i], s.info.Keys) && AllIn(reserved[..i + 1], s.info.Keys)
    ensures AfterReserved(s, reserved[..i + 1]) == ReservedOne(AfterReserved(s, reserved[..i]), reserved[i])
  {
    assert reserved[..i + 1][..i] == reserved[..i];
    assert reserved[i] in reserved;
  }

  /** Recover the chunk states of every PG. */
  method RecoverAll(ghost u: Selector, info0: map<Chunk, Info>, arr: Arrays, num0: map<nat, int>, blks0: map<nat, int>,
                    order: seq<nat>, open: map<nat, set<nat>>)
    returns (info: map<Chunk, Info>, num: map<nat, int>, blks: map<nat, int>)
    requires u.info == info0 && u.arr == arr && u.num == num0 && u.blks == blks0
    requires ChunksKnown(arr, info0) && (forall pg :: pg in order ==> pg in arr && pg in open && NoDup(arr[pg]))
    ensures info == RestartedAll(u, order, open).info
    ensures num == RestartedAll(u, order, open).num && blks == RestartedAll(u, order, open).blks
  {
    info, num, blks := info0, num0, blks0;
    var i := 0;
    while i < |order|
      invariant 0 <= i <= |order| && (forall pg :: pg in order[..i] ==> pg in arr && pg in open)
      invariant info == RestartedAll(u, order[..i], open).info
      invariant num == RestartedAll(u, order[..i], open).num && blks == RestartedAll(u, order[..i], open).blks
    {
      var pg := order[i];
      assert order[..i + 1] == order[..i] + [pg];
      RestartedSnoc(u, order[..i], pg, open);
      var n, b;
      info, n, b := RecoverStates(info, arr[pg], open[pg]);
      num, blks := num[pg := n], blks[pg := b];
      i := i + 1;
    }
    assert order[..i] == order;
  }

  // ------------------------------------------------------------ the start-up

  /** The chunks of the devices before anything is read. */
  ghost function Raw(dev: map<Chunk, Dev>, info: map<Chunk, Info>): Selector {
    Selector(dev, info, map[], map[], map[], map[], map[], map[], {})
  }

  /** What start-up finds: usable superblocks, reserved records of chunks of no PG, no
      data in a chunk that nobody claims, and the open shards of every PG. */
  ghost predicate CanStart(s: Selector, pgs: seq<PgRecord>, reserved: seq<Chunk>, open: map<nat, set<nat>>) {
    && StartsFrom(s, pgs, reserved) && (forall p :: p in pgs ==> p.pg in open)
    && var t := AfterReserved(AfterPgs(s, pgs, |pgs|), reserved); UnclaimedEmpty(t.info, t.owner)
  }

  function PgsOf(pgs: seq<PgRecord>): seq<nat> {
    seq(|pgs|, i requires 0 <= i < |pgs| => pgs[i].pg)
  }

  lemma {:induction false} ArraysRead(s: Selector, pgs: seq<PgRecord>, n: nat)
    requires n <= |pgs|
    ensures forall pg :: pg in AfterPgs(s, pgs, n).arr <==> pg in s.arr || pg in PgsOf(pgs)[..n]
  {
    if n > 0 {
      ArraysRead(s, pgs, n - 1);
      assert PgsOf(pgs)[..n] == PgsOf(pgs)[..n - 1] + [pgs[n - 1].pg];
    }
  }

  lemma PgsListed(s: Selector, pgs: seq<PgRecord>)
    requires s.arr == map[]
    ensures forall pg :: pg in PgsOf(pgs) <==> pg in AfterPgs(s, pgs, |pgs|).arr
  {
    ArraysRead(s, pgs, |pgs|);
    assert PgsOf(pgs)[..|pgs|] == PgsOf(pgs);
  }

  lemma {:induction false} ReservedKeeps(s: Selector, reserved: seq<Chunk>)
    requires AllIn(reserved, s.info.Keys)
    ensures var t := AfterReserved(s, reserved); t.dev == s.dev && t.arr == s.arr && t.num == s.num && t.blks == s.blks
    ensures var t := AfterReserved(s, reserved); t.heaps == s.heaps && t.tasks == s.tasks && t.frozen == s.frozen
  {
    if reserved != [] {
      ReservedKeeps(s, reserved[..|reserved| - 1]);
    }
  }

  lemma {:induction false} PgsKeep(s: Selector, pgs: seq<PgRecord>, n: nat)
    requires n <= |pgs|
    ensures var t := AfterPgs(s, pgs, n);
      t.dev == s.dev && t.heaps == s.heaps && t.tasks == s.tasks && t.frozen == s.frozen
  {
    if n > 0 { PgsKeep(s, pgs, n - 1); }
  }

  lemma {:induction false} RestartKeeps(s: Selector, pgs: seq<nat>, open: map<nat, set<nat>>)
    requires ChunksKnown(s.arr, s.info) && forall pg :: pg in pgs ==> pg in s.arr && pg in open
    ensures var t := RestartedAll(s, pgs, open); t == s.(info := t.info, num := t.num, blks := t.blks)
  {
    if pgs != [] {
      var n := |pgs| - 1;
      assert forall pg :: pg in pgs[..n] ==> pg in pgs;
      assert pgs == pgs[..n] + [pgs[n]];
      RestartKeeps(s, pgs[..n], open);
      RestartedSnoc(s, pgs[..n], pgs[n], open);
    }
  }

  ghost predicate Started(s: Selector) {
    Ok(s) && AllExact(s, true)
  }

  ghost predicate Restartable(u: Selector, order: seq<nat>, open: map<nat, set<nat>>) {
    ChunksKnown(u.arr, u.info) && forall pg :: pg in order ==> pg in u.arr && pg in open && NoDup(u.arr[pg])
  }

  lemma Restarts(u: Selector, order: seq<nat>, open: map<nat, set<nat>>)
    requires Ok(u) && forall pg :: pg in order ==> pg in u.arr && pg in open
    ensures Restartable(u, order, open)
  {
    OkHasShape(u);
    forall pg | pg in order ensures NoDup(u.arr[pg]) {
      ArrayNoDup(u.arr, u.owner, pg);
    }
  }

  lemma StartOrder(s: Selector, pgs: seq<PgRecord>, open: map<nat, set<nat>>)
    requires s.arr == map[] && forall p :: p in pgs ==> p.pg in open
    ensures forall pg :: pg in PgsOf(pgs) <==> pg in AfterPgs(s, pgs, |pgs|).arr
    ensures forall pg :: pg in PgsOf(pgs) ==> pg in open
  {
    PgsListed(s, pgs);
    forall pg | pg in PgsOf(pgs) ensures pg in open {
      var i :| 0 <= i < |pgs| && PgsOf(pgs)[i] == pg;
      assert pgs[i] in pgs;
    }
  }

  /** The superblocks and the reserved records read. */
  method ReadAll(ghost s: Selector, dev: map<Chunk, Dev>, info0: map<Chunk, Info>, pgs: seq<PgRecord>,
                 reserved: seq<Chunk>)
    returns (info: map<Chunk, Info>, arr: Arrays, num: map<nat, int>, blks: map<nat, int>, ghost t: Selector)
    requires s == Raw(dev, info0) && StartsFrom(s, pgs, reserved)
    ensures t == AfterReserved(AfterPgs(s, pgs, |pgs|), reserved)
    ensures t == Selector(dev, info, map[], arr, num, blks, t.owner, map[], {})
  {
    info, arr, num, blks := ReadPgs(s, info0, dev, pgs);
    ghost var p := AfterPgs(s, pgs, |pgs|);
    info := ReadReserved(p, info, reserved);
    t := AfterReserved(p, reserved);
    PgsKeep(s, pgs, |pgs|);
    ReservedKeeps(p, reserved);
  }

  /** Start-up in the order of the source: PGs, reserved records, heaps, states. Every
      chunk gets one owner and every counter of every PG is exact. */
  method StartUp(dev: map<Chunk, Dev>, info0: map<Chunk, Info>, pgs: seq<PgRecord>, reserved: seq<Chunk>,
                 open: map<nat, set<nat>>)
    returns (info: map<Chunk, Info>, heaps: map<Dev, seq<Chunk>>, arr: Arrays, num: map<nat, int>, blks: map<nat, int>,
             ghost owner: map<Chunk, Owner>)
    requires CanStart(Raw(dev, info0), pgs, reserved, open)
    ensures Started(Selector(dev, info, heaps, arr, num, blks, owner, map[], {}))
    ensures Rebuilt(dev, info0, info, heaps, arr, pgs, reserved, open)
  {
    ghost var s, t := Raw(dev, info0), Raw(dev, info0);
    info, arr, num, blks, t := ReadAll(s, dev, info0, pgs, reserved);
    ReadDevs(s, pgs, reserved, t);
    heaps := BuildHeap(dev, info);
    ghost var u := Built(t, heaps);
    owner := u.owner;
    HeapsStart(s, pgs, reserved, t, heaps, u, open);
    BuiltFrom(s, pgs, reserved, t, heaps, u);
    StartRebuilds(s, pgs, reserved, t, heaps, u, open);
    info, num, blks := RecoverAll(u, info, arr, num, blks, PgsOf(pgs), open);
  }

  lemma ReadDevs(s: Selector, pgs: seq<PgRecord>, reserved: seq<Chunk>, t: Selector)
    requires StartsFrom(s, pgs, reserved) && t == AfterReserved(AfterPgs(s, pgs, |pgs|), reserved)
    ensures t.dev.Keys == t.info.Keys
  {
    ReadBoots(s, pgs, reserved);
  }

  lemma HeapsStart(s: Selector, pgs: seq<PgRecord>, reserved: seq<Chunk>, t: Selector, heaps: map<Dev, seq<Chunk>>,
                   u: Selector, open: map<nat, set<nat>>)
    requires CanStart(s, pgs, reserved, open) && t == AfterReserved(AfterPgs(s, pgs, |pgs|), reserved)
    requires HeapsFor(t.dev, t.info, heaps, t.info.Keys) && u == Built(t, heaps)
    ensures Restartable(u, PgsOf(pgs), open) && (forall pg :: pg in u.arr <==> pg in PgsOf(pgs))
    ensures var r := RestartedAll(u, PgsOf(pgs), open);
      Started(r) && r == u.(info := r.info, num := r.num, blks := r.blks)
  {
    StartOrder(s, pgs, open);
    ReservedKeeps(AfterPgs(s, pgs, |pgs|), reserved);
    StartUpOk(s, pgs, reserved, t, heaps, u, PgsOf(pgs), open);
    BuiltFrom(s, pgs, reserved, t, heaps, u);
    Restarts(u, PgsOf(pgs), open);
    RestartKeeps(u, PgsOf(pgs), open);
  }

  lemma ReadRebuilds(s: Selector, pgs: seq<PgRecord>, reserved: seq<Chunk>, t: Selector)
    requires StartsFrom(s, pgs, reserved) && t == AfterReserved(AfterPgs(s, pgs, |pgs|), reserved)
    ensures SameBlocks(s.info, t.info) && ArraysAre(t.arr, pgs, |pgs|) && ReservedAre(t.owner, reserved)
  {
    var p := AfterPgs(s, pgs, |pgs|);
    PgsBlocks(s, pgs, |pgs|);
    ReservedBlocks(p, reserved);
    ReadArrays(s, pgs, |pgs|);
    ReservedKeeps(p, reserved);
    PgsNotReserved(s, pgs, |pgs|);
    ReadReservedAre(p, reserved);
  }

  lemma FilledReserved(info: map<Chunk, Info>, owner: map<Chunk, Owner>, reserved: seq<Chunk>)
    requires ReservedAre(owner, reserved) && owner.Keys <= info.Keys
    ensures ReservedAre(Filled(info, owner), reserved)
  {
  }

  lemma RestartedRebuilds(s: Selector, pgs: seq<PgRecord>, reserved: seq<Chunk>, u: Selector, open: map<nat, set<nat>>)
    requires SameBlocks(s.info, u.info) && ArraysAre(u.arr, pgs, |pgs|) && ReservedAre(u.owner, reserved)
    requires Restartable(u, PgsOf(pgs), open) && (forall pg :: pg in u.arr <==> pg in PgsOf(pgs))
    requires RestartDone(RestartedAll(u, PgsOf(pgs), open), PgsOf(pgs), open)
    ensures var r := RestartedAll(u, PgsOf(pgs), open);
      Rebuilt(r.dev, s.info, r.info, r.heaps, r.arr, pgs, reserved, open)
  {
    RestartBlocks(u, PgsOf(pgs), open);
    RestartKeeps(u, PgsOf(pgs), open);
    RestartRebuilds(s, pgs, reserved, RestartedAll(u, PgsOf(pgs), open), open);
  }

  lemma StartRebuilds(s: Selector, pgs: seq<PgRecord>, reserved: seq<Chunk>, t: Selector, heaps: map<Dev, seq<Chunk>>,
                      u: Selector, open: map<nat, set<nat>>)
    requires StartsFrom(s, pgs, reserved) && t == AfterReserved(AfterPgs(s, pgs, |pgs|), reserved)
    requires u == Built(t, heaps) && Ok(u)
    requires Restartable(u, PgsOf(pgs), open) && (forall pg :: pg in u.arr <==> pg in PgsOf(pgs))
    ensures var r := RestartedAll(u, PgsOf(pgs), open);
      Rebuilt(r.dev, s.info, r.info, r.heaps, r.arr, pgs, reserved, open)
  {
    ReadBoots(s, pgs, reserved);
    ReadRebuilds(s, pgs, reserved, t);
    FilledReserved(t.info, t.owner, reserved);
    AllRestarted(u, PgsOf(pgs), open);
    RestartedRebuilds(s, pgs, reserved, u, open);
  }

  lemma BuiltFrom(s: Selector, pgs: seq<PgRecord>, reserved: seq<Chunk>, t: Selector, heaps: map<Dev, seq<Chunk>>,
                  u: Selector)
    requires StartsFrom(s, pgs, reserved) && t == AfterReserved(AfterPgs(s, pgs, |pgs|), reserved)
    requires UnclaimedEmpty(t.info, t.owner) && HeapsFor(t.dev, t.info, heaps, t.info.Keys) && u == Built(t, heaps)
    ensures Ok(u)
  {
    ReadBoots(s, pgs, reserved);
    BuiltOk(t, heaps);
  }
}
