/** Every run of selector operations: one owner per chunk, and exact counters. */
module SelectorRuns {
  import opened Storage
  import opened ChunkSelector
  import opened ChunkGrants

  datatype Op =
    | SelectOp(a: Slot)
    | ReleaseOp(a: Slot)
    | MarkOp(c: Chunk, force: bool)
    | FailOp(a: Slot, final: State)
    | SwitchOp(a: Slot, to: Chunk)
    | FinishOp(a: Slot, from: Chunk, to: Chunk, final: State)
    | PurgeOp(c: Chunk)
    | AppendOp(c: Chunk, n: nat)
    | CreateOp(pg: nat, d: Dev, picks: seq<Chunk>)
    | DestroyOp(pg: nat)

  ghost predicate Enabled(s: Selector, e: Op) {
    && Ok(s)
    && match e
       case SelectOp(_) => true
       case ReleaseOp(_) => true
       case MarkOp(c, _) => c in s.info ==> s.owner[c] != Heap
       case FailOp(a, final) => a in s.tasks && s.tasks[a] == Marked && final != Gc
       case SwitchOp(a, to) => CanSwitch(s, a, to)
       case FinishOp(a, from, to, final) => CanFinish(s, a, from, to) && final != Gc
       case PurgeOp(c) => c in s.info && s.owner[c] == Reserved
       case AppendOp(c, n) =>
         c in s.info && s.info[c].used + n <= s.info[c].total && (s.info[c].state == InUse || s.owner[c] == Reserved)
       case CreateOp(pg, d, picks) => pg !in s.arr && d in s.heaps && Pops(s.heaps[d], picks)
       case DestroyOp(pg) => pg in s.arr && s.arr[pg] != [] && NoTaskIn(s.tasks, pg)
  }

  lemma SlotChunk(s: Selector, a: Slot)
    requires Ok(s) && IsSlot(s.arr, a)
    ensures ChunkAt(s.arr, a) in s.info && s.owner[ChunkAt(s.arr, a)] == InPg(a) && a.pg in s.num && a.pg in s.blks
  {
  }

  lemma FinishChunksKnown(s: Selector, a: Slot, from: Chunk, to: Chunk)
    requires Ok(s) && CanFinish(s, a, from, to)
    ensures from in s.info && to in s.info && s.owner[from] == Reserved && s.owner[to] == InPg(a)
  {
    SlotChunk(s, a);
    assert ChunkOk(s.info, s.owner, s.tasks, to);
  }

  ghost function Next(s: Selector, e: Op): Selector
    requires Enabled(s, e)
  {
    match e
    case SelectOp(a) => (if IsSlot(s.arr, a) then SlotChunk(s, a); SelectSpecific(s, a).0 else s)
    case ReleaseOp(a) => (if IsSlot(s.arr, a) then SlotChunk(s, a); Release(s, a).0 else s)
    case MarkOp(c, force) => TryMark(s, c, force).0
    case FailOp(a, final) => SlotChunk(s, a); Unmark(s, a, final)
    case SwitchOp(a, to) => SlotChunk(s, a); Switch(s, a, to)
    case FinishOp(a, from, to, final) => FinishChunksKnown(s, a, from, to); AfterGc(s, a, from, to, final)
    case PurgeOp(c) => Purged(s, c)
    case AppendOp(c, n) => Appended(s, c, n)
    case CreateOp(pg, d, picks) => HeapChunks(s, d); Grants(s, pg, d, picks)
    case DestroyOp(pg) => DestroyedOk(s, pg); Destroyed(s, pg)
  }

  lemma MarkStepOk(s: Selector, c: Chunk, force: bool)
    requires Ok(s) && (c in s.info ==> s.owner[c] != Heap)
    ensures Ok(TryMark(s, c, force).0)
  {
    if c in s.info && s.info[c].state != Gc {
      assert ChunkOk(s.info, s.owner, s.tasks, c);
      MarkedOk(s, c);
    }
  }

  lemma SelectStepOk(s: Selector, a: Slot)
    requires Ok(s)
    ensures Ok(Next(s, SelectOp(a))) && Ok(Next(s, ReleaseOp(a)))
  {
    if IsSlot(s.arr, a) {
      SlotChunk(s, a);
      if s.info[ChunkAt(s.arr, a)].state == Available { TakenOk(s, a); }
      if s.info[ChunkAt(s.arr, a)].state == InUse { ReturnedOk(s, a); }
    }
  }

  lemma StepOk(s: Selector, e: Op)
    requires Enabled(s, e)
    ensures Ok(Next(s, e))
  {
    match e
    case SelectOp(a) => SelectStepOk(s, a);
    case ReleaseOp(a) => SelectStepOk(s, a);
    case MarkOp(c, force) => MarkStepOk(s, c, force);
    case FailOp(a, final) => UnmarkOk(s, a, final);
    case SwitchOp(a, to) => SwitchOk(s, a, to);
    case FinishOp(a, from, to, final) => FinishOk(s, a, from, to, final);
    case PurgeOp(c) => PurgeOk(s, c);
    case AppendOp(c, n) => AppendOk(s, c, n);
    case CreateOp(pg, d, picks) => GrantsOk(s, pg, d, picks);
    case DestroyOp(pg) => DestroyedOk(s, pg);
  }

  // ------------------------------------------------------- exact counters

  /** PG `pg`, its chunks and its counters are as before. */
  ghost predicate PgSame(s: Selector, t: Selector, pg: nat) {
    && pg in s.arr && pg in t.arr && t.arr[pg] == s.arr[pg]
    && pg in s.num && pg in t.num && t.num[pg] == s.num[pg]
    && pg in s.blks && pg in t.blks && t.blks[pg] == s.blks[pg]
    && (forall c :: c in s.arr[pg] ==> c in s.info && c in t.info && t.info[c] == s.info[c])
    && (forall a: Slot :: a.pg == pg ==> (a in t.frozen <==> a in s.frozen))
  }

  lemma PgSameExact(s: Selector, t: Selector, pg: nat)
    requires PgSame(s, t, pg)
    ensures (NumExact(s, pg) ==> NumExact(t, pg)) && (BlkExact(s, pg) ==> BlkExact(t, pg))
  {
    var slots := s.arr[pg];
    forall v | 0 <= v < |slots|
      ensures NumWeight(t.info, t.frozen, slots[v], Slot(pg, v)) == NumWeight(s.info, s.frozen, slots[v], Slot(pg, v))
      ensures BlkWeight(t.info, t.frozen, slots[v], Slot(pg, v)) == BlkWeight(s.info, s.frozen, slots[v], Slot(pg, v))
    {
      assert slots[v] in slots;
    }
    assert NumWeights(t.info, t.frozen, pg, slots) == NumWeights(s.info, s.frozen, pg, slots);
    assert BlkWeights(t.info, t.frozen, pg, slots) == BlkWeights(s.info, s.frozen, pg, slots);
  }

  lemma Apart(s: Selector, pg: nat, c: Chunk)
    requires Ok(s) && pg in s.arr
    ensures c in s.info && !(s.owner[c].InPg? && s.owner[c].slot.pg == pg) ==> c !in s.arr[pg]
    ensures pg in s.num && pg in s.blks && forall x :: x in s.arr[pg] ==> x in s.info
  {
    InArray(s.arr, s.owner, pg, c);
    forall x | x in s.arr[pg] ensures x in s.info {
      InArray(s.arr, s.owner, pg, x);
    }
  }

  /** GC puts a chunk back in the state it had when the GC began: normal GC of
      available chunks, emergent GC of chunks in use. */
  ghost predicate Restores(s: Selector, e: Op) {
    && (e.FailOp? ==> (e.final == Available <==> e.a in s.frozen))
    && (e.FinishOp? ==> (e.final == Available <==> e.a in s.frozen))
  }

  /** Every GC is of normal priority: it started on an available chunk. */
  ghost predicate NormalGc(s: Selector, e: Op) {
    Restores(s, e) && (e.SwitchOp? ==> e.a in s.frozen)
  }

  ghost predicate Keeps(s: Selector, t: Selector, pg: nat, blks: bool) {
    (NumExact(s, pg) ==> NumExact(t, pg)) && (blks && BlkExact(s, pg) ==> BlkExact(t, pg))
  }

  lemma SelectKeeps(s: Selector, a: Slot, pg: nat)
    requires Ok(s) && pg in s.arr
    ensures Keeps(s, Next(s, SelectOp(a)), pg, true) && Keeps(s, Next(s, ReleaseOp(a)), pg, true)
  {
    if IsSlot(s.arr, a) {
      SlotChunk(s, a);
      if s.info[ChunkAt(s.arr, a)].state == Available { TakenExact(s, a); }
      if s.info[ChunkAt(s.arr, a)].state == InUse { ReturnedExact(s, a); }
    }
  }

  lemma MarkKeeps(s: Selector, c: Chunk, force: bool, pg: nat)
    requires Ok(s) && pg in s.arr && (c in s.info ==> s.owner[c] != Heap)
    ensures Keeps(s, TryMark(s, c, force).0, pg, true)
  {
    if c in s.info && s.info[c].state != Gc {
      assert ChunkOk(s.info, s.owner, s.tasks, c);
      MarkedExact(s, c);
    }
  }

  lemma FailKeeps(s: Selector, a: Slot, final: State, pg: nat)
    requires Ok(s) && pg in s.arr && a in s.tasks && s.tasks[a] == Marked && final != Gc
    requires (final == Available <==> a in s.frozen)
    ensures Keeps(s, Unmark(s, a, final), pg, true)
  {
    SlotChunk(s, a);
    if pg == a.pg {
      UnmarkExact(s, a, final);
    } else {
      Apart(s, pg, ChunkAt(s.arr, a));
      PgSameExact(s, Unmark(s, a, final), pg);
    }
  }

  lemma SwitchKeeps(s: Selector, a: Slot, to: Chunk, pg: nat)
    requires Ok(s) && pg in s.arr && CanSwitch(s, a, to)
    ensures Keeps(s, Switch(s, a, to), pg, a in s.frozen)
  {
    SlotChunk(s, a);
    if pg == a.pg {
      SwitchExact(s, a, to);
    } else {
      Apart(s, pg, to);
      PgSameExact(s, Switch(s, a, to), pg);
    }
  }

  lemma FinishKeeps(s: Selector, a: Slot, from: Chunk, to: Chunk, final: State, pg: nat)
    requires Ok(s) && pg in s.arr && CanFinish(s, a, from, to) && final != Gc && (final == Available <==> a in s.frozen)
    ensures from in s.info && to in s.info && Keeps(s, AfterGc(s, a, from, to, final), pg, true)
  {
    FinishChunksKnown(s, a, from, to);
    if pg == a.pg {
      FinishExact(s, a, from, to, final);
    } else {
      Apart(s, pg, from);
      Apart(s, pg, to);
      PgSameExact(s, AfterGc(s, a, from, to, final), pg);
    }
  }

  /** A reserved chunk is in no slot, so resetting it moves no counter. */
  lemma PurgeKeeps(s: Selector, c: Chunk, pg: nat)
    requires Ok(s) && pg in s.arr && c in s.info && s.owner[c] == Reserved
    ensures Keeps(s, Purged(s, c), pg, true)
  {
    Apart(s, pg, c);
    PgSameExact(s, Purged(s, c), pg);
  }

  lemma {:induction false} CreateKeeps(s: Selector, pg: nat, d: Dev, picks: seq<Chunk>, other: nat)
    requires Ok(s) && other in s.arr && pg !in s.arr && d in s.heaps && Pops(s.heaps[d], picks)
    ensures (forall c :: c in picks ==> c in s.info) && PgSame(s, Grants(s, pg, d, picks), other)
  {
    HeapChunks(s, d);
    Apart(s, other, 0);
    if picks != [] {
      var n := |picks| - 1;
      assert forall c :: c in picks[..n] ==> c in picks;
      CreateKeeps(s, pg, d, picks[..n], other);
      Apart(s, other, picks[n]);
    }
  }

  lemma DestroyKeeps(s: Selector, pg: nat, other: nat)
    requires Ok(s) && pg in s.arr && s.arr[pg] != [] && NoTaskIn(s.tasks, pg) && other in s.arr && other != pg
    ensures s.arr[pg][0] in s.dev && s.dev[s.arr[pg][0]] in s.heaps && PgSame(s, Destroyed(s, pg), other)
  {
    DestroyedOk(s, pg);
    Apart(s, other, 0);
    forall c | c in s.arr[other] ensures c !in s.arr[pg] {
      InArray(s.arr, s.owner, other, c);
      InArray(s.arr, s.owner, pg, c);
    }
  }

  lemma CreateExact(s: Selector, pg: nat, d: Dev, picks: seq<Chunk>, other: nat)
    requires Ok(s) && other in s.arr && pg !in s.arr && d in s.heaps && Pops(s.heaps[d], picks)
    ensures (forall c :: c in picks ==> c in s.info) && Keeps(s, Grants(s, pg, d, picks), other, true)
  {
    CreateKeeps(s, pg, d, picks, other);
    PgSameExact(s, Grants(s, pg, d, picks), other);
  }

  lemma DestroyExact(s: Selector, pg: nat, other: nat)
    requires Ok(s) && pg in s.arr && s.arr[pg] != [] && NoTaskIn(s.tasks, pg) && other in s.arr && other != pg
    ensures s.arr[pg][0] in s.dev && s.dev[s.arr[pg][0]] in s.heaps && Keeps(s, Destroyed(s, pg), other, true)
  {
    DestroyKeeps(s, pg, other);
    PgSameExact(s, Destroyed(s, pg), other);
  }

  lemma StepKeeps(s: Selector, e: Op, pg: nat)
    requires Enabled(s, e) && Restores(s, e) && pg in s.arr && !(e.DestroyOp? && e.pg == pg)
    ensures Keeps(s, Next(s, e), pg, e.SwitchOp? ==> e.a in s.frozen)
  {
    match e
    case SelectOp(a) => SelectKeeps(s, a, pg);
    case ReleaseOp(a) => SelectKeeps(s, a, pg);
    case MarkOp(c, force) => MarkKeeps(s, c, force, pg);
    case FailOp(a, final) => FailKeeps(s, a, final, pg);
    case SwitchOp(a, to) => SwitchKeeps(s, a, to, pg);
    case FinishOp(a, from, to, final) => FinishKeeps(s, a, from, to, final, pg);
    case PurgeOp(c) => PurgeKeeps(s, c, pg);
    case AppendOp(c, n) => AppendExact(s, c, n, pg);
    case CreateOp(new_, d, picks) => CreateExact(s, new_, d, picks, pg);
    case DestroyOp(gone) => DestroyExact(s, gone, pg);
  }

  // ------------------------------------------------------------------- runs

  ghost predicate IsRun(run: seq<Op>, s: Selector)
    decreases |run|
  {
    run == [] || (Enabled(s, run[0]) && IsRun(run[1..], Next(s, run[0])))
  }

  ghost function RunOf(run: seq<Op>, s: Selector): Selector
    requires IsRun(run, s)
    decreases |run|
  {
    if run == [] then s else RunOf(run[1..], Next(s, run[0]))
  }

  ghost predicate RunRestores(run: seq<Op>, s: Selector, normal: bool)
    requires IsRun(run, s)
    decreases |run|
  {
    run == [] || ((if normal then NormalGc(s, run[0]) else Restores(s, run[0]))
      && RunRestores(run[1..], Next(s, run[0]), normal))
  }

  ghost predicate AllExact(s: Selector, blks: bool) {
    forall pg :: pg in s.arr ==> NumExact(s, pg) && (blks ==> BlkExact(s, pg))
  }

  /** Every chunk has exactly one owner, in every state of every run. */
  lemma {:induction false} RunOk(run: seq<Op>, s: Selector)
    requires Ok(s) && IsRun(run, s)
    ensures Ok(RunOf(run, s))
    decreases |run|
  {
    if run != [] {
      StepOk(s, run[0]);
      RunOk(run[1..], Next(s, run[0]));
    }
  }

  lemma StepExact(s: Selector, e: Op, blks: bool)
    requires Enabled(s, e) && Restores(s, e) && AllExact(s, blks) && (blks ==> NormalGc(s, e))
    ensures AllExact(Next(s, e), blks)
  {
    var t := Next(s, e);
    forall pg | pg in t.arr ensures NumExact(t, pg) && (blks ==> BlkExact(t, pg)) {
      if e.CreateOp? && e.pg == pg {
        GrantsOk(s, pg, e.d, e.picks);
      } else {
        PgWas(s, e, pg);
        StepKeeps(s, e, pg);
      }
    }
  }

  /** `t` is what the operation makes of `s`: every chunk still has one owner, exact
      chunk counts stay exact, and so do exact block counts unless a GC of a chunk in
      use switches its slot. */
  ghost predicate Follows(s: Selector, e: Op, t: Selector) {
    Enabled(s, e) && t == Next(s, e) && Ok(t) && (forall blks :: StaysExact(s, e, t, blks))
  }

  ghost predicate StaysExact(s: Selector, e: Op, t: Selector, blks: bool) {
    Restores(s, e) && AllExact(s, blks) && (blks ==> NormalGc(s, e)) ==> AllExact(t, blks)
  }

  lemma Follow(s: Selector, e: Op, t: Selector)
    requires Enabled(s, e) && t == Next(s, e)
    ensures Follows(s, e, t)
  {
    StepOk(s, e);
    forall blks ensures StaysExact(s, e, t, blks) {
      if Restores(s, e) && AllExact(s, blks) && (blks ==> NormalGc(s, e)) { StepExact(s, e, blks); }
    }
  }

  lemma TakenReturned(s: Selector, a: Slot)
    requires IsSlot(s.arr, a) && ChunkAt(s.arr, a) in s.info && a.pg in s.num && a.pg in s.blks
    requires s.info[ChunkAt(s.arr, a)].state == Available
    ensures Returned(Taken(s, a), a) == s
  {
    var t := Returned(Taken(s, a), a);
    assert t.info == s.info && t.num == s.num && t.blks == s.blks;
  }

  /** Taking an available chunk and giving it back changes nothing. */
  lemma SelectThenRelease(s: Selector, a: Slot)
    requires Ok(s) && IsSlot(s.arr, a) && s.info[ChunkAt(s.arr, a)].state == Available
    ensures Ok(Next(s, SelectOp(a))) && Next(Next(s, SelectOp(a)), ReleaseOp(a)) == s
  {
    SlotChunk(s, a);
    SelectStepOk(s, a);
    TakenReturned(s, a);
  }

  lemma MarkedUnmarked(s: Selector, c: Chunk, a: Slot)
    requires IsSlot(s.arr, a) && ChunkAt(s.arr, a) == c && c in s.info && c in s.owner && s.owner[c] == InPg(a)
    requires a !in s.tasks && a !in s.frozen
    ensures Unmark(MarkedGc(s, c), a, s.info[c].state) == s
  {
    var t := Unmark(MarkedGc(s, c), a, s.info[c].state);
    assert t.info == s.info && t.tasks == s.tasks && t.frozen == s.frozen;
  }

  /** Marking a chunk for GC changes nothing when the GC fails and restores its state. */
  lemma MarkThenFail(s: Selector, c: Chunk, force: bool, a: Slot)
    requires Ok(s) && c in s.info && s.owner[c] == InPg(a) && TryMark(s, c, force).1
    ensures Ok(TryMark(s, c, force).0) && a in TryMark(s, c, force).0.tasks
    ensures Next(TryMark(s, c, force).0, FailOp(a, s.info[c].state)) == s
  {
    MarkStepOk(s, c, force);
    assert ChunkOk(s.info, s.owner, s.tasks, c);
    assert IsSlot(s.arr, a) && ChunkAt(s.arr, a) == c && a !in s.frozen;
    MarkedUnmarked(s, c, a);
  }

  lemma PgWas(s: Selector, e: Op, pg: nat)
    requires Enabled(s, e) && pg in Next(s, e).arr && !(e.CreateOp? && e.pg == pg)
    ensures pg in s.arr && !(e.DestroyOp? && e.pg == pg)
  {
    if e.CreateOp? {
      CreateArr(s, e.pg, e.d, e.picks);
    } else if e.SelectOp? || e.ReleaseOp? {
      ShardArr(s, e.a);
    } else if !e.DestroyOp? {
      GcArr(s, e);
    }
  }

  lemma CreateArr(s: Selector, pg: nat, d: Dev, picks: seq<Chunk>)
    requires Enabled(s, CreateOp(pg, d, picks))
    ensures Next(s, CreateOp(pg, d, picks)).arr.Keys == s.arr.Keys + {pg}
  {
    HeapChunks(s, d);
    GrantsShape(s, pg, d, picks);
  }

  lemma ShardArr(s: Selector, a: Slot)
    requires Ok(s)
    ensures Next(s, SelectOp(a)).arr == s.arr && Next(s, ReleaseOp(a)).arr == s.arr
  {
    if IsSlot(s.arr, a) { SlotChunk(s, a); }
  }

  lemma GcArr(s: Selector, e: Op)
    requires Enabled(s, e) && (e.FailOp? || e.SwitchOp? || e.FinishOp? || e.AppendOp? || e.MarkOp? || e.PurgeOp?)
    ensures Next(s, e).arr.Keys == s.arr.Keys
  {
    if e.FailOp? || e.SwitchOp? || e.FinishOp? { TaskArr(s, e); } else { ChunkArr(s, e); }
  }

  lemma TaskArr(s: Selector, e: Op)
    requires Enabled(s, e) && (e.FailOp? || e.SwitchOp? || e.FinishOp?)
    ensures Next(s, e).arr.Keys == s.arr.Keys
  {
    if e.FinishOp? { FinishChunksKnown(s, e.a, e.from, e.to); } else { SlotChunk(s, e.a); }
  }

  lemma ChunkArr(s: Selector, e: Op)
    requires Enabled(s, e) && (e.AppendOp? || e.MarkOp? || e.PurgeOp?)
    ensures Next(s, e).arr == s.arr
  {
  }

  /** The chunk counters are exact in every run whose GCs restore the chunk's state;
      with normal GC only, the block counters are exact too. */
  lemma {:induction false} RunExact(run: seq<Op>, s: Selector, blks: bool)
    requires Ok(s) && IsRun(run, s) && RunRestores(run, s, blks) && AllExact(s, blks)
    ensures AllExact(RunOf(run, s), blks)
    decreases |run|
  {
    if run != [] {
      StepOk(s, run[0]);
      StepExact(s, run[0], blks);
      RunExact(run[1..], Next(s, run[0]), blks);
    }
  }

  // --------------------------------------------------------- reserved chunks

  function ReservedSet(owner: map<Chunk, Owner>): set<Chunk> {
    set c | c in owner && owner[c] == Reserved
  }

  lemma SwitchReserved(s: Selector, a: Slot, to: Chunk)
    requires Ok(s) && CanSwitch(s, a, to)
    ensures ReservedSet(Switch(s, a, to).owner) == ReservedSet(s.owner) - {to} + {ChunkAt(s.arr, a)}
    ensures |ReservedSet(Switch(s, a, to).owner)| == |ReservedSet(s.owner)|
  {
    SlotChunk(s, a);
    var before, after := ReservedSet(s.owner), ReservedSet(Switch(s, a, to).owner);
    assert after == before - {to} + {ChunkAt(s.arr, a)};
    assert to in before && ChunkAt(s.arr, a) !in before;
  }

  /** The chunks of `picks` are in a PG, and every other owner is as before. */
  ghost predicate OwnersAfter(before: map<Chunk, Owner>, after: map<Chunk, Owner>, picks: seq<Chunk>) {
    forall c :: if c in picks then c in after && after[c].InPg?
                else (c in after <==> c in before) && (c in before ==> after[c] == before[c])
  }

  lemma OwnersSnoc(before: map<Chunk, Owner>, after: map<Chunk, Owner>, front: seq<Chunk>, c: Chunk, a: Slot)
    requires OwnersAfter(before, after, front)
    ensures OwnersAfter(before, after[c := InPg(a)], front + [c])
  {
  }

  lemma {:induction false} CreateOwners(s: Selector, pg: nat, d: Dev, picks: seq<Chunk>)
    requires d in s.heaps && InAll(picks, s.info)
    ensures OwnersAfter(s.owner, Grants(s, pg, d, picks).owner, picks)
  {
    if picks != [] {
      var front, c := picks[..|picks| - 1], picks[|picks| - 1];
      assert picks == front + [c];
      CreateOwners(s, pg, d, front);
      var t := Grants(s, pg, d, front);
      GrantsSnoc(s, pg, d, front, c, t);
      OwnersSnoc(s.owner, t.owner, front, c, Slot(pg, |t.arr[pg]|));
    }
  }

  lemma CreateReserved(s: Selector, pg: nat, d: Dev, picks: seq<Chunk>)
    requires d in s.heaps && (forall c :: c in picks ==> c in s.info && c in s.owner && s.owner[c] == Heap)
    ensures ReservedSet(Grants(s, pg, d, picks).owner) == ReservedSet(s.owner)
  {
    CreateOwners(s, pg, d, picks);
  }

  lemma DestroyReserved(s: Selector, pg: nat)
    requires Ok(s) && pg in s.arr && s.arr[pg] != [] && NoTaskIn(s.tasks, pg)
    ensures s.arr[pg][0] in s.dev && s.dev[s.arr[pg][0]] in s.heaps
    ensures ReservedSet(Destroyed(s, pg).owner) == ReservedSet(s.owner)
  {
    DestroyedOk(s, pg);
    forall c | c in s.arr[pg] ensures c in s.owner && s.owner[c] != Reserved {
      InArray(s.arr, s.owner, pg, c);
    }
  }

  /** Only a switch changes which chunks are reserved, and it trades one for one. */
  lemma StepReserved(s: Selector, e: Op)
    requires Enabled(s, e)
    ensures !e.SwitchOp? ==> ReservedSet(Next(s, e).owner) == ReservedSet(s.owner)
    ensures |ReservedSet(Next(s, e).owner)| == |ReservedSet(s.owner)|
  {
    match e
    case SwitchOp(a, to) => SwitchReserved(s, a, to);
    case CreateOp(pg, d, picks) =>
      HeapChunks(s, d);
      CreateReserved(s, pg, d, picks);
    case DestroyOp(pg) => DestroyReserved(s, pg);
    case _ => OwnerKept(s, e);
  }

  lemma OwnerKept(s: Selector, e: Op)
    requires Enabled(s, e) && !e.SwitchOp? && !e.CreateOp? && !e.DestroyOp?
    ensures Next(s, e).owner == s.owner
  {
    if e.SelectOp? || e.ReleaseOp? {
      ShardOwner(s, e);
    } else if e.FailOp? || e.FinishOp? {
      TaskOwner(s, e);
    } else {
      ChunkOwner(s, e);
    }
  }

  lemma ShardOwner(s: Selector, e: Op)
    requires Enabled(s, e) && (e.SelectOp? || e.ReleaseOp?)
    ensures Next(s, e).owner == s.owner
  {
    if IsSlot(s.arr, e.a) { SlotChunk(s, e.a); }
  }

  lemma TaskOwner(s: Selector, e: Op)
    requires Enabled(s, e) && (e.FailOp? || e.FinishOp?)
    ensures Next(s, e).owner == s.owner
  {
    if e.FailOp? { SlotChunk(s, e.a); } else { FinishChunksKnown(s, e.a, e.from, e.to); }
  }

  lemma ChunkOwner(s: Selector, e: Op)
    requires Enabled(s, e) && (e.MarkOp? || e.PurgeOp? || e.AppendOp?)
    ensures Next(s, e).owner == s.owner
  {
  }

  /** No run loses a reserved chunk or makes one up. */
  lemma {:induction false} RunReserved(run: seq<Op>, s: Selector)
    requires Ok(s) && IsRun(run, s)
    ensures |ReservedSet(RunOf(run, s).owner)| == |ReservedSet(s.owner)|
    decreases |run|
  {
    if run != [] {
      StepOk(s, run[0]);
      StepReserved(s, run[0]);
      RunReserved(run[1..], Next(s, run[0]));
    }
  }

  /** The owner a chunk has is where it is: on the heap of its device and no other, in
      exactly one slot, or in the reserved set. */
  ghost predicate Located(t: Selector, c: Chunk) {
    && c in t.owner
    && (forall d :: d in t.heaps && c in t.heaps[d] ==> c in t.dev && d == t.dev[c] && t.owner[c] == Heap)
    && (t.owner[c] == Heap ==> c in t.dev && t.dev[c] in t.heaps && c in t.heaps[t.dev[c]])
    && (forall a :: IsSlot(t.arr, a) && ChunkAt(t.arr, a) == c ==> t.owner[c] == InPg(a))
    && (t.owner[c].InPg? ==> IsSlot(t.arr, t.owner[c].slot) && ChunkAt(t.arr, t.owner[c].slot) == c)
    && (t.owner[c] == Reserved <==> c in ReservedSet(t.owner))
  }

  /** No two slots have the same chunk. */
  ghost predicate SlotsApart(arr: Arrays) {
    forall a, b :: IsSlot(arr, a) && IsSlot(arr, b) && ChunkAt(arr, a) == ChunkAt(arr, b) ==> a == b
  }

  lemma IsLocated(t: Selector, c: Chunk)
    requires Ok(t) && c in t.info
    ensures Located(t, c) && SlotsApart(t.arr)
  {
  }

  /** That is so in every state of every run, and the reserved set never grows or
      shrinks. */
  lemma OneOwner(run: seq<Op>, s: Selector, c: Chunk)
    requires Ok(s) && IsRun(run, s) && c in RunOf(run, s).info
    ensures Located(RunOf(run, s), c) && SlotsApart(RunOf(run, s).arr)
    ensures |ReservedSet(RunOf(run, s).owner)| == |ReservedSet(s.owner)|
  {
    RunOk(run, s);
    RunReserved(run, s);
    IsLocated(RunOf(run, s), c);
  }

  // ------------------------------------------------------- blocks of a chunk

  /** The blocks taken in chunk `c` after the operation, from what was asked of it:
      appends add, a purge and the destruction of the chunk's PG empty it. */
  function UsedAfter(s: Selector, e: Op, c: Chunk, used: nat): nat {
    match e
    case AppendOp(x, n) => if x == c then used + n else used
    case PurgeOp(x) => if x == c then 0 else used
    case DestroyOp(pg) => if pg in s.arr && c in s.arr[pg] then 0 else used
    case _ => used
  }

  ghost predicate BlocksAre(s: Selector, c: Chunk, total: nat, used: nat) {
    c in s.info && s.info[c].total == total && s.info[c].used == used
  }

  lemma CreateBlocks(s: Selector, pg: nat, d: Dev, picks: seq<Chunk>, c: Chunk, total: nat, used: nat)
    requires d in s.heaps && InAll(picks, s.info) && BlocksAre(s, c, total, used)
    ensures BlocksAre(Grants(s, pg, d, picks), c, total, used)
  {
    if picks != [] {
      var front, x := picks[..|picks| - 1], picks[|picks| - 1];
      assert picks == front + [x];
      CreateBlocks(s, pg, d, front, c, total, used);
      GrantsSnoc(s, pg, d, front, x, Grants(s, pg, d, front));
    }
  }

  lemma ShardBlocks(s: Selector, e: Op, c: Chunk, total: nat, used: nat)
    requires Enabled(s, e) && BlocksAre(s, c, total, used) && (e.SelectOp? || e.ReleaseOp?)
    ensures BlocksAre(Next(s, e), c, total, used)
  {
    if IsSlot(s.arr, e.a) { SlotChunk(s, e.a); }
  }

  lemma TaskBlocks(s: Selector, e: Op, c: Chunk, total: nat, used: nat)
    requires Enabled(s, e) && BlocksAre(s, c, total, used) && (e.FailOp? || e.SwitchOp? || e.FinishOp?)
    ensures BlocksAre(Next(s, e), c, total, used)
  {
    if e.FinishOp? { FinishChunksKnown(s, e.a, e.from, e.to); } else { SlotChunk(s, e.a); }
  }

  lemma StepBlocks(s: Selector, e: Op, c: Chunk, total: nat, used: nat)
    requires Enabled(s, e) && BlocksAre(s, c, total, used)
    ensures BlocksAre(Next(s, e), c, total, UsedAfter(s, e, c, used))
  {
    match e
    case SelectOp(_) => ShardBlocks(s, e, c, total, used);
    case ReleaseOp(_) => ShardBlocks(s, e, c, total, used);
    case MarkOp(_, _) =>
    case FailOp(_, _) => TaskBlocks(s, e, c, total, used);
    case SwitchOp(_, _) => TaskBlocks(s, e, c, total, used);
    case FinishOp(_, _, _, _) => TaskBlocks(s, e, c, total, used);
    case PurgeOp(_) =>
    case AppendOp(_, _) =>
    case CreateOp(pg, d, picks) =>
      HeapChunks(s, d);
      CreateBlocks(s, pg, d, picks, c, total, used);
    case DestroyOp(pg) => DestroyedOk(s, pg);
  }

  ghost function UsedBy(run: seq<Op>, s: Selector, c: Chunk, used: nat): nat
    requires IsRun(run, s)
    decreases |run|
  {
    if run == [] then used else UsedBy(run[1..], Next(s, run[0]), c, UsedAfter(s, run[0], c, used))
  }

  /** In every run a chunk keeps its size, and the blocks taken in it are those appended
      since it was last emptied. */
  lemma {:induction false} RunBlocks(run: seq<Op>, s: Selector, c: Chunk, total: nat, used: nat)
    requires IsRun(run, s) && BlocksAre(s, c, total, used)
    ensures BlocksAre(RunOf(run, s), c, total, UsedBy(run, s, c, used))
    decreases |run|
  {
    if run != [] {
      StepBlocks(s, run[0], c, total, used);
      RunBlocks(run[1..], Next(s, run[0]), c, total, UsedAfter(s, run[0], c, used));
    }
  }

  // -------------------------------------------------- one emergent GC

  /** A PG of one chunk in use with 4 free blocks, and a reserved chunk that has
      received its data and has 7. */
  function OneInUse(): Selector {
    Selector(map[1 := 0, 2 := 0], map[1 := Info(10, 6, InUse, Tagged(Slot(1, 0))), 2 := Info(10, 3, Gc, NoTag)],
             map[0 := []], map[1 := [1]], map[1 := 0], map[1 := 0], map[1 := InPg(Slot(1, 0)), 2 := Reserved],
             map[], {})
  }

  lemma OneInUseOk(s: Selector)
    requires s == OneInUse()
    ensures Ok(s) && BlkExact(s, 1)
  {
    assert forall a :: IsSlot(s.arr, a) <==> a == Slot(1, 0);
    forall c | c in s.info ensures ChunkOk(s.info, s.owner, s.tasks, c) {
    }
    assert BlkWeights(s.info, s.frozen, 1, s.arr[1]) == [0];
    assert Total([0]) == Total([]) + 0;
  }

  /** The same with the chunk marked by force. */
  function OneMarked(): Selector {
    OneInUse().(info := map[1 := Info(10, 6, Gc, Tagged(Slot(1, 0))), 2 := Info(10, 3, Gc, NoTag)],
                tasks := map[Slot(1, 0) := Marked])
  }

  lemma ForceMarks(s: Selector)
    requires s == OneInUse()
    ensures TryMark(s, 1, true) == (OneMarked(), true) && !TryMark(s, 1, false).1
  {
    assert s.info[1 := s.info[1].(state := Gc)] == OneMarked().info;
  }

  lemma OneMarkedOk(s: Selector, t: Selector)
    requires s == OneInUse() && t == OneMarked()
    ensures Ok(t) && BlkExact(t, 1)
  {
    OneInUseOk(s);
    ForceMarks(s);
    MarkStepOk(s, 1, true);
    MarkedExact(s, 1);
  }

  lemma OneSwitches(t: Selector, u: Selector)
    requires t == OneMarked() && Ok(t) && BlkExact(t, 1) && u == Switch(t, Slot(1, 0), 2)
    ensures CanSwitch(t, Slot(1, 0), 2) && u.blks[1] == 3 && !BlkExact(u, 1)
  {
    SwitchExact(t, Slot(1, 0), 2);
  }

  /** The exact block count is lost when an emergent GC, which marks the chunk in use
      by force, switches the slot: the count gets the 3 blocks the GC gained although
      the chunk is still not available. */
  lemma EmergentGcMiscounts(s: Selector, t: Selector, u: Selector)
    requires s == OneInUse() && t == OneMarked() && u == Switch(t, Slot(1, 0), 2)
    ensures Ok(s) && BlkExact(s, 1) && TryMark(s, 1, true) == (t, true)
    ensures Ok(t) && BlkExact(t, 1) && CanSwitch(t, Slot(1, 0), 2)
    ensures u.blks[1] == 3 && !BlkExact(u, 1)
  {
    OneInUseOk(s);
    ForceMarks(s);
    OneMarkedOk(s, t);
    OneSwitches(t, u);
  }
}
