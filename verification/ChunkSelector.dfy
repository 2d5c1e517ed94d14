/** The chunk selector as a value: chunks, device heaps, PG chunk arrays, and who
    owns each chunk; what every operation keeps. */
module ChunkSelector {
  import opened Storage

  type Dev = nat

  datatype State = Available | InUse | Gc

  /** The (pg_id, v_chunk_id) a chunk carries. */
  datatype Tag = NoTag | Tagged(slot: Slot)

  /** An append-only chunk: `used` of its `total` blocks are taken. */
  datatype Info = Info(total: nat, used: nat, state: State, tag: Tag)

  function FreeBlks(i: Info): int {
    i.total - i.used
  }

  /** Who owns a chunk: its device's heap, one PG slot, or the reserved pool. */
  datatype Owner = Heap | InPg(slot: Slot) | Reserved

  /** A GC task of a slot: its chunk is marked; or the slot already points to the
      receiving chunk, while `from` still carries the slot's tag. */
  datatype Task = Marked | Switched(from: Chunk)

  type Arrays = map<nat, seq<Chunk>>

  /** `arr[pg]` is the chunk array of a PG, `num[pg]` and `blks[pg]` its counters of
      available chunks and blocks; `frozen` are the slots whose chunk was AVAILABLE
      when its GC began. */
  datatype Selector = Selector(dev: map<Chunk, Dev>, info: map<Chunk, Info>, heaps: map<Dev, seq<Chunk>>, arr: Arrays,
                               num: map<nat, int>, blks: map<nat, int>, owner: map<Chunk, Owner>,
                               tasks: map<Slot, Task>, frozen: set<Slot>)

  // -------------------------------------------------------------- invariant

  ghost predicate NoDup(s: seq<Chunk>) {
    forall i, j :: 0 <= i < |s| && 0 <= j < |s| && s[i] == s[j] ==> i == j
  }

  predicate IsSlot(arr: Arrays, a: Slot) {
    a.pg in arr && a.v < |arr[a.pg]|
  }

  function ChunkAt(arr: Arrays, a: Slot): Chunk
    requires IsSlot(arr, a)
  {
    arr[a.pg][a.v]
  }

  /** The heaps hold exactly the chunks owned by a heap, each on its device, once. */
  ghost predicate HeapsOk(dev: map<Chunk, Dev>, heaps: map<Dev, seq<Chunk>>, owner: map<Chunk, Owner>) {
    && (forall d :: d in heaps ==> NoDup(heaps[d]))
    && (forall d, c :: d in heaps && c in heaps[d] ==> c in dev && c in owner && owner[c] == Heap && dev[c] == d)
    && (forall c :: c in owner && owner[c] == Heap ==> c in dev && dev[c] in heaps && c in heaps[dev[c]])
  }

  /** Slot and chunk are one to one. */
  ghost predicate SlotsOk(arr: Arrays, owner: map<Chunk, Owner>) {
    && (forall a :: IsSlot(arr, a) ==> ChunkAt(arr, a) in owner && owner[ChunkAt(arr, a)] == InPg(a))
    && (forall c :: c in owner && owner[c].InPg? ==> IsSlot(arr, owner[c].slot) && ChunkAt(arr, owner[c].slot) == c)
  }

  /** All chunks of a PG are on one device, which has a heap. */
  ghost predicate DevOk(dev: map<Chunk, Dev>, heaps: map<Dev, seq<Chunk>>, arr: Arrays) {
    forall a :: IsSlot(arr, a) ==> OnDev(dev, heaps, ChunkAt(arr, a), arr[a.pg][0])
  }

  predicate OnDev(dev: map<Chunk, Dev>, heaps: map<Dev, seq<Chunk>>, c: Chunk, first: Chunk) {
    c in dev && first in dev && dev[c] == dev[first] && dev[c] in heaps
  }

  ghost predicate ChunkOk(info: map<Chunk, Info>, owner: map<Chunk, Owner>, tasks: map<Slot, Task>, c: Chunk)
    requires c in info && c in owner
  {
    && info[c].used <= info[c].total
    && match owner[c]
       case Heap => info[c].state == Available && info[c].used == 0 && info[c].tag == NoTag
       case Reserved => info[c].state == Gc && (info[c].tag.Tagged? ==> HoldsTag(tasks, info[c].tag.slot, c))
       case InPg(a) =>
         if a !in tasks then info[c].state != Gc && info[c].tag == Tagged(a)
         else info[c].state == Gc && match tasks[a]
           case Marked => info[c].tag == Tagged(a)
           case Switched(from) => info[c].tag == NoTag && LeftBehind(info, owner, from, a)
  }

  ghost predicate HoldsTag(tasks: map<Slot, Task>, a: Slot, c: Chunk) {
    a in tasks && tasks[a] == Switched(c)
  }

  ghost predicate LeftBehind(info: map<Chunk, Info>, owner: map<Chunk, Owner>, from: Chunk, a: Slot) {
    from in info && from in owner && owner[from] == Reserved && info[from].tag == Tagged(a)
  }

  /** Heap chunks are AVAILABLE and empty; reserved chunks and chunks under GC are in
      state GC; a slot's chunk carries the slot's tag, except between the two updates
      of a finishing GC. */
  ghost predicate ChunksOk(info: map<Chunk, Info>, owner: map<Chunk, Owner>, tasks: map<Slot, Task>) {
    owner.Keys == info.Keys && forall c :: c in info ==> ChunkOk(info, owner, tasks, c)
  }

  ghost predicate TasksOk(arr: Arrays, num: map<nat, int>, blks: map<nat, int>, tasks: map<Slot, Task>,
                          frozen: set<Slot>) {
    && (forall a :: a in tasks ==> IsSlot(arr, a))
    && frozen <= tasks.Keys && num.Keys == arr.Keys && blks.Keys == arr.Keys
  }

  ghost predicate Ok(s: Selector) {
    && HeapsOk(s.dev, s.heaps, s.owner)
    && SlotsOk(s.arr, s.owner)
    && DevOk(s.dev, s.heaps, s.arr)
    && ChunksOk(s.info, s.owner, s.tasks)
    && TasksOk(s.arr, s.num, s.blks, s.tasks, s.frozen)
  }

  // --------------------------------------------------------------- counters

  function Total(ws: seq<int>): int {
    if ws == [] then 0 else Total(ws[..|ws| - 1]) + ws[|ws| - 1]
  }

  lemma {:induction false} TotalUpdate(ws: seq<int>, i: nat, x: int)
    requires i < |ws|
    ensures Total(ws[i := x]) == Total(ws) - ws[i] + x
  {
    var n := |ws| - 1;
    if i == n {
      assert ws[i := x][..n] == ws[..n];
    } else {
      assert ws[i := x][..n] == ws[..n][i := x];
      TotalUpdate(ws[..n], i, x);
    }
  }

  /** Whether the slot's chunk is one the counters are about: available, or under
      GC since it was available. */
  predicate Counted(info: map<Chunk, Info>, frozen: set<Slot>, c: Chunk, a: Slot) {
    c in info && (info[c].state == Available || a in frozen)
  }

  function NumWeight(info: map<Chunk, Info>, frozen: set<Slot>, c: Chunk, a: Slot): int {
    if Counted(info, frozen, c, a) then 1 else 0
  }

  function BlkWeight(info: map<Chunk, Info>, frozen: set<Slot>, c: Chunk, a: Slot): int {
    if Counted(info, frozen, c, a) then FreeBlks(info[c]) else 0
  }

  function NumWeights(info: map<Chunk, Info>, frozen: set<Slot>, pg: nat, slots: seq<Chunk>): seq<int> {
    seq(|slots|, v requires 0 <= v < |slots| => NumWeight(info, frozen, slots[v], Slot(pg, v)))
  }

  function BlkWeights(info: map<Chunk, Info>, frozen: set<Slot>, pg: nat, slots: seq<Chunk>): seq<int> {
    seq(|slots|, v requires 0 <= v < |slots| => BlkWeight(info, frozen, slots[v], Slot(pg, v)))
  }

  /** `num[pg]` is the number of counted chunks. */
  ghost predicate NumExact(s: Selector, pg: nat) {
    pg in s.arr && pg in s.num && s.num[pg] == Total(NumWeights(s.info, s.frozen, pg, s.arr[pg]))
  }

  /** `blks[pg]` is the number of free blocks in counted chunks. */
  ghost predicate BlkExact(s: Selector, pg: nat) {
    pg in s.arr && pg in s.blks && s.blks[pg] == Total(BlkWeights(s.info, s.frozen, pg, s.arr[pg]))
  }

  /** The chunks of the PG's other slots are as before. */
  ghost predicate SameButAt(s: Selector, t: Selector, pg: nat, a: Slot) {
    && pg in s.arr && pg in t.arr && |t.arr[pg]| == |s.arr[pg]|
    && forall v :: 0 <= v < |s.arr[pg]| && Slot(pg, v) != a ==>
         && t.arr[pg][v] == s.arr[pg][v] && (Slot(pg, v) in t.frozen <==> Slot(pg, v) in s.frozen)
         && s.arr[pg][v] in s.info && s.arr[pg][v] in t.info && t.info[s.arr[pg][v]] == s.info[s.arr[pg][v]]
  }

  /** When only slot `a` changes, the exact values change by its weights. */
  lemma WeightChange(s: Selector, t: Selector, a: Slot)
    requires IsSlot(s.arr, a) && SameButAt(s, t, a.pg, a)
    ensures Total(NumWeights(t.info, t.frozen, a.pg, t.arr[a.pg]))
      == Total(NumWeights(s.info, s.frozen, a.pg, s.arr[a.pg]))
      - NumWeight(s.info, s.frozen, s.arr[a.pg][a.v], a) + NumWeight(t.info, t.frozen, t.arr[a.pg][a.v], a)
    ensures Total(BlkWeights(t.info, t.frozen, a.pg, t.arr[a.pg]))
      == Total(BlkWeights(s.info, s.frozen, a.pg, s.arr[a.pg]))
      - BlkWeight(s.info, s.frozen, s.arr[a.pg][a.v], a) + BlkWeight(t.info, t.frozen, t.arr[a.pg][a.v], a)
  {
    var n, n' := NumWeights(s.info, s.frozen, a.pg, s.arr[a.pg]), NumWeights(t.info, t.frozen, a.pg, t.arr[a.pg]);
    var b, b' := BlkWeights(s.info, s.frozen, a.pg, s.arr[a.pg]), BlkWeights(t.info, t.frozen, a.pg, t.arr[a.pg]);
    assert n' == n[a.v := n'[a.v]];
    assert b' == b[a.v := b'[a.v]];
    TotalUpdate(n, a.v, n'[a.v]);
    TotalUpdate(b, a.v, b'[a.v]);
  }

  lemma WeightSame(s: Selector, t: Selector, pg: nat, a: Slot)
    requires SameButAt(s, t, pg, a) && pg != a.pg
    ensures NumWeights(t.info, t.frozen, pg, t.arr[pg]) == NumWeights(s.info, s.frozen, pg, s.arr[pg])
    ensures BlkWeights(t.info, t.frozen, pg, t.arr[pg]) == BlkWeights(s.info, s.frozen, pg, s.arr[pg])
  {
  }

  // -------------------------------------------------------------- operations

  datatype Pick = Picked(c: Chunk) | Wait | Missing

  /** Take the chunk of a slot for a shard; a chunk under GC has to be waited for. */
  function SelectSpecific(s: Selector, a: Slot): (Selector, Pick)
    requires IsSlot(s.arr, a) ==> ChunkAt(s.arr, a) in s.info && a.pg in s.num && a.pg in s.blks
  {
    if !IsSlot(s.arr, a) then (s, Missing)
    else
      var c := ChunkAt(s.arr, a);
      match s.info[c].state
      case Gc => (s, Wait)
      case InUse => (s, Picked(c))
      case Available => (Taken(s, a), Picked(c))
  }

  function Taken(s: Selector, a: Slot): Selector
    requires IsSlot(s.arr, a) && ChunkAt(s.arr, a) in s.info && a.pg in s.num && a.pg in s.blks
  {
    var c := ChunkAt(s.arr, a);
    s.(info := s.info[c := s.info[c].(state := InUse)], num := s.num[a.pg := s.num[a.pg] - 1],
       blks := s.blks[a.pg := s.blks[a.pg] - FreeBlks(s.info[c])])
  }

  /** Give the chunk of a slot back; false when there is no such slot. */
  function Release(s: Selector, a: Slot): (Selector, bool)
    requires IsSlot(s.arr, a) ==> ChunkAt(s.arr, a) in s.info && a.pg in s.num && a.pg in s.blks
  {
    if !IsSlot(s.arr, a) then (s, false)
    else if s.info[ChunkAt(s.arr, a)].state != InUse then (s, true)
    else (Returned(s, a), true)
  }

  function Returned(s: Selector, a: Slot): Selector
    requires IsSlot(s.arr, a) && ChunkAt(s.arr, a) in s.info && a.pg in s.num && a.pg in s.blks
  {
    var c := ChunkAt(s.arr, a);
    s.(info := s.info[c := s.info[c].(state := Available)], num := s.num[a.pg := s.num[a.pg] + 1],
       blks := s.blks[a.pg := s.blks[a.pg] + FreeBlks(s.info[c])])
  }

  /** Mark a PG chunk for GC; refused when it is under GC, or in use and not forced. */
  function TryMark(s: Selector, c: Chunk, force: bool): (Selector, bool) {
    if c !in s.info || s.info[c].state == Gc || (s.info[c].state == InUse && !force) then (s, false)
    else (MarkedGc(s, c), true)
  }

  function MarkedGc(s: Selector, c: Chunk): Selector
    requires c in s.info
  {
    var t := s.(info := s.info[c := s.info[c].(state := Gc)]);
    if c in s.owner && s.owner[c].InPg? then
      t.(tasks := s.tasks[s.owner[c].slot := Marked],
         frozen := if s.info[c].state == Available then s.frozen + {s.owner[c].slot} else s.frozen)
    else t
  }

  /** A failed GC: the chunk leaves the GC state. */
  function Unmark(s: Selector, a: Slot, final: State): Selector
    requires IsSlot(s.arr, a) && ChunkAt(s.arr, a) in s.info
  {
    var c := ChunkAt(s.arr, a);
    s.(info := s.info[c := s.info[c].(state := final)], tasks := s.tasks - {a}, frozen := s.frozen - {a})
  }

  /** Point the slot at the chunk that received the data. */
  function Switch(s: Selector, a: Slot, to: Chunk): Selector
    requires IsSlot(s.arr, a) && ChunkAt(s.arr, a) in s.info && to in s.info && a.pg in s.blks
  {
    var from := ChunkAt(s.arr, a);
    var slots: seq<Chunk> := s.arr[a.pg][a.v := to];
    if from == to then s
    else s.(arr := s.arr[a.pg := slots],
            blks := s.blks[a.pg := s.blks[a.pg] + (FreeBlks(s.info[to]) - FreeBlks(s.info[from]))],
            owner := s.owner[to := InPg(a)][from := Reserved], tasks := s.tasks[a := Switched(from)])
  }

  /** Move the tag and set the final state. */
  function AfterGc(s: Selector, a: Slot, from: Chunk, to: Chunk, final: State): Selector
    requires from in s.info && to in s.info
  {
    s.(info := s.info[from := s.info[from].(tag := NoTag)][to := s.info[to].(tag := Tagged(a), state := final)],
       tasks := s.tasks - {a}, frozen := s.frozen - {a})
  }

  /** Blocks taken by an append. */
  function Appended(s: Selector, c: Chunk, n: nat): Selector
    requires c in s.info
  {
    s.(info := s.info[c := s.info[c].(used := s.info[c].used + n)])
  }

  /** A reserved chunk reset before it receives a copy. */
  function Purged(s: Selector, c: Chunk): Selector
    requires c in s.info
  {
    s.(info := s.info[c := s.info[c].(used := 0)])
  }

  // ------------------------------------------------------ one chunk's state

  lemma SlotOwner(arr: Arrays, owner: map<Chunk, Owner>, a: Slot, b: Slot)
    requires SlotsOk(arr, owner) && IsSlot(arr, a) && IsSlot(arr, b) && ChunkAt(arr, a) == ChunkAt(arr, b)
    ensures a == b
  {
    assert owner[ChunkAt(arr, a)] == InPg(a) && owner[ChunkAt(arr, b)] == InPg(b);
  }

  /** A change of the chunk of slot `a` that keeps its tag. */
  lemma RestateChunks(info: map<Chunk, Info>, owner: map<Chunk, Owner>, tasks: map<Slot, Task>, c: Chunk, i: Info)
    requires ChunksOk(info, owner, tasks) && c in info && owner[c].InPg? && i.tag == info[c].tag && i.used <= i.total
    requires ChunkOk(info[c := i], owner, tasks, c)
    ensures ChunksOk(info[c := i], owner, tasks)
  {
    forall d | d in info ensures ChunkOk(info[c := i], owner, tasks, d) {
      assert ChunkOk(info, owner, tasks, d);
    }
  }

  lemma InfoChange(s: Selector, t: Selector, c: Chunk, a: Slot, pg: nat)
    requires SlotsOk(s.arr, s.owner) && s.info.Keys == s.owner.Keys && IsSlot(s.arr, a) && ChunkAt(s.arr, a) == c
    requires t.arr == s.arr && t.frozen - {a} == s.frozen - {a} && pg in s.arr
    requires c in t.info && t.info == s.info[c := t.info[c]]
    ensures SameButAt(s, t, pg, a)
  {
    forall v | 0 <= v < |s.arr[pg]| && Slot(pg, v) != a
      ensures s.arr[pg][v] in s.info && s.arr[pg][v] != c && (Slot(pg, v) in t.frozen <==> Slot(pg, v) in s.frozen)
    {
      assert IsSlot(s.arr, Slot(pg, v)) && s.arr[pg][v] == ChunkAt(s.arr, Slot(pg, v));
      assert s.owner[s.arr[pg][v]] == InPg(Slot(pg, v));
      assert Slot(pg, v) in t.frozen - {a} <==> Slot(pg, v) in s.frozen - {a};
    }
  }

  /** The counters of every PG stay exact when those of the slot's PG move by the
      change of the slot's weights. */
  ghost predicate KeepsExact(s: Selector, t: Selector) {
    forall pg :: pg in s.arr ==> (NumExact(s, pg) ==> NumExact(t, pg)) && (BlkExact(s, pg) ==> BlkExact(t, pg))
  }

  lemma TakenOk(s: Selector, a: Slot)
    requires Ok(s) && IsSlot(s.arr, a) && s.info[ChunkAt(s.arr, a)].state == Available
    ensures Ok(Taken(s, a))
  {
    var c, t := ChunkAt(s.arr, a), Taken(s, a);
    assert ChunkOk(s.info, s.owner, s.tasks, c);
    RestateChunks(s.info, s.owner, s.tasks, c, t.info[c]);
  }

  lemma ReturnedOk(s: Selector, a: Slot)
    requires Ok(s) && IsSlot(s.arr, a) && s.info[ChunkAt(s.arr, a)].state == InUse
    ensures Ok(Returned(s, a))
  {
    var c, t := ChunkAt(s.arr, a), Returned(s, a);
    assert ChunkOk(s.info, s.owner, s.tasks, c);
    RestateChunks(s.info, s.owner, s.tasks, c, t.info[c]);
  }

  /** Taking and returning a chunk keep the counters exact. */
  lemma TakenExact(s: Selector, a: Slot)
    requires Ok(s) && IsSlot(s.arr, a) && s.info[ChunkAt(s.arr, a)].state == Available
    ensures KeepsExact(s, Taken(s, a))
  {
    assert ChunkOk(s.info, s.owner, s.tasks, ChunkAt(s.arr, a));
    assert a !in s.frozen;
    StateExact(s, Taken(s, a), a);
  }

  lemma ReturnedExact(s: Selector, a: Slot)
    requires Ok(s) && IsSlot(s.arr, a) && s.info[ChunkAt(s.arr, a)].state == InUse
    ensures KeepsExact(s, Returned(s, a))
  {
    assert ChunkOk(s.info, s.owner, s.tasks, ChunkAt(s.arr, a));
    assert a !in s.frozen;
    StateExact(s, Returned(s, a), a);
  }

  lemma StateExact(s: Selector, t: Selector, a: Slot)
    requires SlotsOk(s.arr, s.owner) && s.info.Keys == s.owner.Keys && IsSlot(s.arr, a)
    requires TasksOk(s.arr, s.num, s.blks, s.tasks, s.frozen)
    requires t.arr == s.arr && t.frozen - {a} == s.frozen - {a} && ChunkAt(s.arr, a) in s.info
    requires ChunkAt(s.arr, a) in t.info
    requires t.info == s.info[ChunkAt(s.arr, a) := t.info[ChunkAt(s.arr, a)]]
    requires t.num == s.num[a.pg := s.num[a.pg] - NumWeight(s.info, s.frozen, ChunkAt(s.arr, a), a)
                                    + NumWeight(t.info, t.frozen, ChunkAt(s.arr, a), a)]
    requires t.blks == s.blks[a.pg := s.blks[a.pg] - BlkWeight(s.info, s.frozen, ChunkAt(s.arr, a), a)
                                      + BlkWeight(t.info, t.frozen, ChunkAt(s.arr, a), a)]
    ensures KeepsExact(s, t)
  {
    forall pg | pg in s.arr ensures (NumExact(s, pg) ==> NumExact(t, pg)) && (BlkExact(s, pg) ==> BlkExact(t, pg)) {
      InfoChange(s, t, ChunkAt(s.arr, a), a, pg);
      if pg == a.pg { WeightChange(s, t, a); } else { WeightSame(s, t, pg, a); }
    }
  }

  // ------------------------------------------------------------- GC of a slot

  predicate NotSwitched(tasks: map<Slot, Task>, a: Slot) {
    a !in tasks || tasks[a] == Marked
  }

  lemma TaskChunks(info: map<Chunk, Info>, owner: map<Chunk, Owner>, arr: Arrays, tasks: map<Slot, Task>, c: Chunk,
                   a: Slot, i: Info, tasks': map<Slot, Task>)
    requires ChunksOk(info, owner, tasks) && SlotsOk(arr, owner) && c in info && owner[c] == InPg(a)
    requires i.tag == info[c].tag
    requires tasks' - {a} == tasks - {a} && NotSwitched(tasks, a) && NotSwitched(tasks', a)
    requires ChunkOk(info[c := i], owner, tasks', c)
    ensures ChunksOk(info[c := i], owner, tasks')
  {
    forall d | d in info ensures ChunkOk(info[c := i], owner, tasks', d) {
      assert ChunkOk(info, owner, tasks, d);
      assert forall b :: b != a ==> (b in tasks - {a} <==> b in tasks) && (b in tasks' - {a} <==> b in tasks');
      assert forall b :: b != a && b in tasks ==>
        b in tasks' && tasks'[b] == (tasks' - {a})[b] == (tasks - {a})[b] == tasks[b];
      if owner[d] == InPg(a) { assert ChunkAt(arr, a) == d == c; }
    }
  }

  lemma MarkedOk(s: Selector, c: Chunk)
    requires Ok(s) && c in s.info && s.owner[c].InPg? && s.info[c].state != Gc
    ensures Ok(MarkedGc(s, c))
  {
    var a, t := s.owner[c].slot, MarkedGc(s, c);
    assert ChunkOk(s.info, s.owner, s.tasks, c);
    assert t.tasks - {a} == s.tasks - {a};
    TaskChunks(s.info, s.owner, s.arr, s.tasks, c, a, t.info[c], t.tasks);
  }

  lemma MarkedExact(s: Selector, c: Chunk)
    requires Ok(s) && c in s.info && s.owner[c].InPg? && s.info[c].state != Gc
    ensures KeepsExact(s, MarkedGc(s, c))
  {
    var a, t := s.owner[c].slot, MarkedGc(s, c);
    assert ChunkOk(s.info, s.owner, s.tasks, c) && a !in s.frozen;
    assert t.num == s.num[a.pg := s.num[a.pg]] && t.blks == s.blks[a.pg := s.blks[a.pg]];
    StateExact(s, t, a);
  }

  lemma UnmarkOk(s: Selector, a: Slot, final: State)
    requires Ok(s) && a in s.tasks && s.tasks[a] == Marked && final != Gc
    ensures Ok(Unmark(s, a, final))
  {
    var c, t := ChunkAt(s.arr, a), Unmark(s, a, final);
    assert ChunkOk(s.info, s.owner, s.tasks, c);
    assert t.tasks - {a} == s.tasks - {a};
    TaskChunks(s.info, s.owner, s.arr, s.tasks, c, a, t.info[c], t.tasks);
  }

  /** Only the slot's state changes and no counter moves. */
  lemma StateOnly(s: Selector, t: Selector, a: Slot)
    requires SlotsOk(s.arr, s.owner) && s.info.Keys == s.owner.Keys && IsSlot(s.arr, a) && ChunkAt(s.arr, a) in s.info
    requires t.arr == s.arr && t.frozen - {a} == s.frozen - {a} && t.num == s.num && t.blks == s.blks
    requires ChunkAt(s.arr, a) in t.info && t.info == s.info[ChunkAt(s.arr, a) := t.info[ChunkAt(s.arr, a)]]
    ensures NumExact(s, a.pg) ==> (NumExact(t, a.pg) <==>
      NumWeight(s.info, s.frozen, ChunkAt(s.arr, a), a) == NumWeight(t.info, t.frozen, ChunkAt(s.arr, a), a))
    ensures BlkExact(s, a.pg) ==> (BlkExact(t, a.pg) <==>
      BlkWeight(s.info, s.frozen, ChunkAt(s.arr, a), a) == BlkWeight(t.info, t.frozen, ChunkAt(s.arr, a), a))
  {
    InfoChange(s, t, ChunkAt(s.arr, a), a, a.pg);
    WeightChange(s, t, a);
  }

  /** A failed GC leaves the chunk count exact if and only if it puts the chunk back
      in the state it had before. */
  lemma UnmarkExact(s: Selector, a: Slot, final: State)
    requires Ok(s) && a in s.tasks && s.tasks[a] == Marked && final != Gc
    ensures NumExact(s, a.pg) ==> (NumExact(Unmark(s, a, final), a.pg) <==> (final == Available <==> a in s.frozen))
    ensures BlkExact(s, a.pg) && (final == Available <==> a in s.frozen) ==> BlkExact(Unmark(s, a, final), a.pg)
  {
    assert ChunkOk(s.info, s.owner, s.tasks, ChunkAt(s.arr, a));
    StateOnly(s, Unmark(s, a, final), a);
  }

  // --------------------------------------------------------- switching chunks

  /** The conditions under which the GC switches a slot to the receiving chunk. */
  ghost predicate CanSwitch(s: Selector, a: Slot, to: Chunk) {
    && a in s.tasks && s.tasks[a] == Marked && IsSlot(s.arr, a) && to in s.info && to in s.owner
    && s.owner[to] == Reserved
    && s.info[to].tag == NoTag && to in s.dev && ChunkAt(s.arr, a) in s.dev && s.dev[to] == s.dev[ChunkAt(s.arr, a)]
  }

  lemma SwitchSlots(arr: Arrays, owner: map<Chunk, Owner>, a: Slot, to: Chunk, slots: seq<Chunk>)
    requires SlotsOk(arr, owner) && IsSlot(arr, a) && to in owner && owner[to] == Reserved
    requires slots == arr[a.pg][a.v := to]
    ensures SlotsOk(arr[a.pg := slots], owner[to := InPg(a)][ChunkAt(arr, a) := Reserved])
  {
    var from := ChunkAt(arr, a);
    var arr' := arr[a.pg := slots];
    var owner' := owner[to := InPg(a)][from := Reserved];
    forall b | IsSlot(arr', b) ensures ChunkAt(arr', b) in owner' && owner'[ChunkAt(arr', b)] == InPg(b) {
      assert IsSlot(arr, b);
      if b != a {
        assert ChunkAt(arr', b) == ChunkAt(arr, b);
        assert owner[ChunkAt(arr, b)] == InPg(b);
      }
    }
    forall c | c in owner' && owner'[c].InPg?
      ensures IsSlot(arr', owner'[c].slot) && ChunkAt(arr', owner'[c].slot) == c
    {
      if c != to {
        assert owner'[c] == owner[c] && ChunkAt(arr, owner[c].slot) == c;
      }
    }
  }

  lemma SwitchDevs(dev: map<Chunk, Dev>, heaps: map<Dev, seq<Chunk>>, arr: Arrays, a: Slot, to: Chunk,
                   slots: seq<Chunk>)
    requires DevOk(dev, heaps, arr) && IsSlot(arr, a) && slots == arr[a.pg][a.v := to]
    requires to in dev && ChunkAt(arr, a) in dev && dev[to] == dev[ChunkAt(arr, a)]
    ensures DevOk(dev, heaps, arr[a.pg := slots])
  {
    var arr' := arr[a.pg := slots];
    assert OnDev(dev, heaps, ChunkAt(arr, a), arr[a.pg][0]);
    forall b | IsSlot(arr', b) ensures OnDev(dev, heaps, ChunkAt(arr', b), arr'[b.pg][0]) {
      assert IsSlot(arr, b) && OnDev(dev, heaps, ChunkAt(arr, b), arr[b.pg][0]);
    }
  }

  lemma SwitchChunks(info: map<Chunk, Info>, owner: map<Chunk, Owner>, arr: Arrays, tasks: map<Slot, Task>, a: Slot,
                     from: Chunk, to: Chunk)
    requires ChunksOk(info, owner, tasks) && SlotsOk(arr, owner) && IsSlot(arr, a) && ChunkAt(arr, a) == from
    requires a in tasks && tasks[a] == Marked && to in info && owner[to] == Reserved && info[to].tag == NoTag
    ensures ChunksOk(info, owner[to := InPg(a)][from := Reserved], tasks[a := Switched(from)])
  {
    var owner', tasks' := owner[to := InPg(a)][from := Reserved], tasks[a := Switched(from)];
    assert owner[from] == InPg(a) && ChunkOk(info, owner, tasks, from) && ChunkOk(info, owner, tasks, to);
    forall d | d in info ensures ChunkOk(info, owner', tasks', d) {
      assert ChunkOk(info, owner, tasks, d);
      if d != to && d != from && owner[d].InPg? {
        assert ChunkAt(arr, owner[d].slot) == d;
        SwitchLeft(info, owner, tasks, a, from, to, d);
      }
    }
  }

  lemma SwitchLeft(info: map<Chunk, Info>, owner: map<Chunk, Owner>, tasks: map<Slot, Task>, a: Slot, from: Chunk,
                   to: Chunk, d: Chunk)
    requires d in info && d in owner && ChunkOk(info, owner, tasks, d) && owner[d].InPg? && owner[d].slot != a
    requires d != to && d != from
    requires to in info && info[to].tag == NoTag && from in owner && owner[from] == InPg(a)
    ensures ChunkOk(info, owner[to := InPg(a)][from := Reserved], tasks[a := Switched(from)], d)
  {
  }

  lemma SwitchHeaps(dev: map<Chunk, Dev>, heaps: map<Dev, seq<Chunk>>, owner: map<Chunk, Owner>, a: Slot, from: Chunk,
                    to: Chunk)
    requires HeapsOk(dev, heaps, owner) && to in owner && owner[to] == Reserved && from in owner
    requires owner[from] == InPg(a)
    ensures HeapsOk(dev, heaps, owner[to := InPg(a)][from := Reserved])
  {
  }

  lemma SwitchTasks(s: Selector, a: Slot, from: Chunk, slots: seq<Chunk>, blks: map<nat, int>)
    requires TasksOk(s.arr, s.num, s.blks, s.tasks, s.frozen) && a in s.tasks && a.pg in s.arr
    requires |slots| == |s.arr[a.pg]|
    requires blks.Keys == s.blks.Keys
    ensures TasksOk(s.arr[a.pg := slots], s.num, blks, s.tasks[a := Switched(from)], s.frozen)
  {
    var tasks, arr := s.tasks[a := Switched(from)], s.arr[a.pg := slots];
    forall b | b in tasks ensures IsSlot(arr, b) {
      assert IsSlot(s.arr, b);
    }
  }

  lemma SwitchOk(s: Selector, a: Slot, to: Chunk)
    requires Ok(s) && CanSwitch(s, a, to)
    ensures Ok(Switch(s, a, to))
  {
    var from, t := ChunkAt(s.arr, a), Switch(s, a, to);
    assert s.owner[from] == InPg(a);
    SwitchSlots(s.arr, s.owner, a, to, t.arr[a.pg]);
    SwitchDevs(s.dev, s.heaps, s.arr, a, to, t.arr[a.pg]);
    SwitchChunks(s.info, s.owner, s.arr, s.tasks, a, from, to);
    SwitchHeaps(s.dev, s.heaps, s.owner, a, from, to);
    SwitchTasks(s, a, from, t.arr[a.pg], t.blks);
  }

  /** The other slots of the PG hold other chunks. */
  lemma OtherSlots(s: Selector, a: Slot, c: Chunk)
    requires SlotsOk(s.arr, s.owner) && s.owner.Keys == s.info.Keys && IsSlot(s.arr, a)
    requires c in s.owner && (s.owner[c] == InPg(a) || s.owner[c] == Reserved)
    ensures forall v :: 0 <= v < |s.arr[a.pg]| && Slot(a.pg, v) != a ==> s.arr[a.pg][v] in s.info && s.arr[a.pg][v] != c
  {
    forall v | 0 <= v < |s.arr[a.pg]| && Slot(a.pg, v) != a ensures s.arr[a.pg][v] in s.info && s.arr[a.pg][v] != c {
      assert IsSlot(s.arr, Slot(a.pg, v)) && s.arr[a.pg][v] == ChunkAt(s.arr, Slot(a.pg, v));
      assert s.owner[s.arr[a.pg][v]] == InPg(Slot(a.pg, v));
    }
  }

  /** The switch keeps the chunk count exact. It keeps the block count exact if and
      only if the slot is counted, or the two chunks have the same room. */
  lemma SwitchExact(s: Selector, a: Slot, to: Chunk)
    requires Ok(s) && CanSwitch(s, a, to)
    ensures NumExact(s, a.pg) ==> NumExact(Switch(s, a, to), a.pg)
    ensures BlkExact(s, a.pg) ==> (BlkExact(Switch(s, a, to), a.pg) <==>
      a in s.frozen || FreeBlks(s.info[to]) == FreeBlks(s.info[ChunkAt(s.arr, a)]))
  {
    var from := ChunkAt(s.arr, a);
    assert s.owner[from] == InPg(a);
    assert ChunkOk(s.info, s.owner, s.tasks, from) && ChunkOk(s.info, s.owner, s.tasks, to);
    SwitchWeights(s, Switch(s, a, to), a, from, to);
  }

  lemma SwitchWeights(s: Selector, t: Selector, a: Slot, from: Chunk, to: Chunk)
    requires SlotsOk(s.arr, s.owner) && s.owner.Keys == s.info.Keys && IsSlot(s.arr, a) && ChunkAt(s.arr, a) == from
    requires to in s.owner && s.owner[to] == Reserved && s.info[from].state == Gc && s.info[to].state == Gc
    requires a.pg in t.arr && t.arr[a.pg] == s.arr[a.pg][a.v := to] && a.pg in s.blks
    requires t.info == s.info && t.frozen == s.frozen && t.num == s.num
    requires t.blks == s.blks[a.pg := s.blks[a.pg] + (FreeBlks(s.info[to]) - FreeBlks(s.info[from]))]
    ensures NumExact(s, a.pg) ==> NumExact(t, a.pg)
    ensures BlkExact(s, a.pg) ==>
      (BlkExact(t, a.pg) <==> a in s.frozen || FreeBlks(s.info[to]) == FreeBlks(s.info[from]))
  {
    OtherSlots(s, a, to);
    WeightChange(s, t, a);
  }

  // ------------------------------------------------------- the end of a GC

  ghost predicate CanFinish(s: Selector, a: Slot, from: Chunk, to: Chunk) {
    a in s.tasks && s.tasks[a] == Switched(from) && IsSlot(s.arr, a) && ChunkAt(s.arr, a) == to
  }

  lemma FinishChunks(info: map<Chunk, Info>, owner: map<Chunk, Owner>, arr: Arrays, tasks: map<Slot, Task>, a: Slot,
                     from: Chunk, to: Chunk, final: State)
    requires ChunksOk(info, owner, tasks) && SlotsOk(arr, owner) && IsSlot(arr, a) && ChunkAt(arr, a) == to
    requires final != Gc
    requires a in tasks && tasks[a] == Switched(from) && from in info && to in info
    ensures ChunksOk(info[from := info[from].(tag := NoTag)][to := info[to].(tag := Tagged(a), state := final)],
      owner, tasks - {a})
  {
    var info' := info[from := info[from].(tag := NoTag)][to := info[to].(tag := Tagged(a), state := final)];
    assert owner[to] == InPg(a) && ChunkOk(info, owner, tasks, to) && LeftBehind(info, owner, from, a);
    forall d | d in info ensures ChunkOk(info', owner, tasks - {a}, d) {
      assert ChunkOk(info, owner, tasks, d);
      if owner[d] == InPg(a) { assert ChunkAt(arr, a) == d; }
    }
  }

  lemma FinishOk(s: Selector, a: Slot, from: Chunk, to: Chunk, final: State)
    requires Ok(s) && CanFinish(s, a, from, to) && final != Gc
    ensures from in s.info && to in s.info && Ok(AfterGc(s, a, from, to, final))
  {
    assert s.owner[to] == InPg(a) && ChunkOk(s.info, s.owner, s.tasks, to);
    FinishChunks(s.info, s.owner, s.arr, s.tasks, a, from, to, final);
  }

  /** The end of a GC leaves the chunk count exact if and only if the final state is
      the one the chunk had before: normal GC of an available chunk, emergent GC of a
      chunk in use. */
  lemma FinishExact(s: Selector, a: Slot, from: Chunk, to: Chunk, final: State)
    requires Ok(s) && CanFinish(s, a, from, to) && final != Gc && from in s.info && to in s.info
    ensures NumExact(s, a.pg) ==>
      (NumExact(AfterGc(s, a, from, to, final), a.pg) <==> (final == Available <==> a in s.frozen))
    ensures BlkExact(s, a.pg) && (final == Available <==> a in s.frozen) ==>
      BlkExact(AfterGc(s, a, from, to, final), a.pg)
  {
    assert s.owner[to] == InPg(a) && ChunkOk(s.info, s.owner, s.tasks, to) && LeftBehind(s.info, s.owner, from, a);
    FinishWeights(s, AfterGc(s, a, from, to, final), a, from, to, final);
  }

  lemma FinishWeights(s: Selector, t: Selector, a: Slot, from: Chunk, to: Chunk, final: State)
    requires SlotsOk(s.arr, s.owner) && s.owner.Keys == s.info.Keys && IsSlot(s.arr, a) && ChunkAt(s.arr, a) == to
    requires from in s.owner && to in s.owner && s.owner[from] == Reserved && s.owner[to] == InPg(a)
    requires s.info[to].state == Gc
    requires t == AfterGc(s, a, from, to, final) && final != Gc
    ensures NumExact(s, a.pg) ==> (NumExact(t, a.pg) <==> (final == Available <==> a in s.frozen))
    ensures BlkExact(s, a.pg) && (final == Available <==> a in s.frozen) ==> BlkExact(t, a.pg)
  {
    OtherSlots(s, a, from);
    OtherSlots(s, a, to);
    WeightChange(s, t, a);
  }

  // ------------------------------------------------------------------ appends

  /** Data goes to chunks in use, and GC copies go to reserved chunks: neither is
      counted. */
  lemma AppendOk(s: Selector, c: Chunk, n: nat)
    requires Ok(s) && c in s.info && s.info[c].used + n <= s.info[c].total
    requires s.info[c].state == InUse || s.owner[c] == Reserved
    ensures Ok(Appended(s, c, n))
  {
    var t := Appended(s, c, n);
    assert ChunkOk(s.info, s.owner, s.tasks, c);
    forall d | d in t.info ensures ChunkOk(t.info, t.owner, t.tasks, d) {
      assert ChunkOk(s.info, s.owner, s.tasks, d);
    }
  }

  lemma AppendWeight(s: Selector, c: Chunk, n: nat, a: Slot)
    requires Ok(s) && c in s.info && (s.info[c].state == InUse || s.owner[c] == Reserved) && IsSlot(s.arr, a)
    ensures NumWeight(Appended(s, c, n).info, s.frozen, ChunkAt(s.arr, a), a)
      == NumWeight(s.info, s.frozen, ChunkAt(s.arr, a), a)
    ensures BlkWeight(Appended(s, c, n).info, s.frozen, ChunkAt(s.arr, a), a)
      == BlkWeight(s.info, s.frozen, ChunkAt(s.arr, a), a)
  {
    var d := ChunkAt(s.arr, a);
    assert s.owner[d] == InPg(a) && ChunkOk(s.info, s.owner, s.tasks, d);
  }

  lemma AppendExact(s: Selector, c: Chunk, n: nat, pg: nat)
    requires Ok(s) && c in s.info && (s.info[c].state == InUse || s.owner[c] == Reserved) && pg in s.arr
    ensures NumExact(s, pg) <==> NumExact(Appended(s, c, n), pg)
    ensures BlkExact(s, pg) <==> BlkExact(Appended(s, c, n), pg)
  {
    var t := Appended(s, c, n);
    forall v | 0 <= v < |s.arr[pg]|
      ensures NumWeight(t.info, t.frozen, s.arr[pg][v], Slot(pg, v))
        == NumWeight(s.info, s.frozen, s.arr[pg][v], Slot(pg, v))
      ensures BlkWeight(t.info, t.frozen, s.arr[pg][v], Slot(pg, v))
        == BlkWeight(s.info, s.frozen, s.arr[pg][v], Slot(pg, v))
    {
      assert s.arr[pg][v] == ChunkAt(s.arr, Slot(pg, v));
      AppendWeight(s, c, n, Slot(pg, v));
    }
    assert NumWeights(t.info, t.frozen, pg, s.arr[pg]) == NumWeights(s.info, s.frozen, pg, s.arr[pg]);
    assert BlkWeights(t.info, t.frozen, pg, s.arr[pg]) == BlkWeights(s.info, s.frozen, pg, s.arr[pg]);
  }

  /** Resetting a reserved chunk keeps owners, tags and states consistent. */
  lemma PurgeOk(s: Selector, c: Chunk)
    requires Ok(s) && c in s.info && s.owner[c] == Reserved
    ensures Ok(Purged(s, c))
  {
    var t := Purged(s, c);
    assert ChunkOk(s.info, s.owner, s.tasks, c);
    forall d | d in t.info ensures ChunkOk(t.info, t.owner, t.tasks, d) {
      assert ChunkOk(s.info, s.owner, s.tasks, d);
    }
  }
}
