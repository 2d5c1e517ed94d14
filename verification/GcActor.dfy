/** The in-place part of a GC actor: the loops that run once the task record is
    written, in the order the actor runs them, at run time and at recovery. */
module GcActor {
  import opened Storage
  import opened GcMachine
  import opened GcInvariant
  import opened GcRedo
  import GcSteps

  // -------------------------------------------------- swapping many entries

  /** The PG index after the filter has seen every key of `copies`. */
  function SwappedAll(index: Index, copies: map<Key, Pba>, from: Chunk): Index {
    map k | k in index && !(k in copies && index[k] == Tombstone)
      :: if k in copies && index[k].Live? && index[k].pba.chunk == from then Live(copies[k]) else index[k]
  }

  /** The list as a map, for a list that names no key twice. */
  ghost function Copies(list: seq<(Key, Pba)>): map<Key, Pba>
    requires DistinctKeys(list)
  {
    map i | 0 <= i < |list| :: list[i].0 := list[i].1
  }

  ghost predicate DistinctKeys(list: seq<(Key, Pba)>) {
    forall i, j :: 0 <= i < |list| && 0 <= j < |list| && i != j ==> list[i].0 != list[j].0
  }

  lemma SwapOneMore(index: Index, copies: map<Key, Pba>, from: Chunk, k: Key, p: Pba)
    requires k !in copies
    ensures SwapEntry(SwappedAll(index, copies, from), k, from, p) == SwappedAll(index, copies[k := p], from)
  {
  }

  /** One update through the filter after the other. */
  method SwapMany(index: Index, from: Chunk, list: seq<(Key, Pba)>) returns (r: Index)
    requires DistinctKeys(list)
    ensures r == SwappedAll(index, Copies(list), from)
  {
    r := index;
    var i := 0;
    assert SwappedAll(index, Copies(list[..0]), from) == index;
    while i < |list|
      invariant 0 <= i <= |list|
      invariant r == SwappedAll(index, Copies(list[..i]), from)
    {
      CopiesSnoc(list, i);
      SwapOneMore(index, Copies(list[..i]), from, list[i].0, list[i].1);
      r := SwapEntry(r, list[i].0, from, list[i].1);
      i := i + 1;
    }
    assert list[..|list|] == list;
  }

  lemma CopiesSnoc(list: seq<(Key, Pba)>, i: nat)
    requires DistinctKeys(list) && i < |list|
    ensures list[i].0 !in Copies(list[..i]) && Copies(list[..i + 1]) == Copies(list[..i])[list[i].0 := list[i].1]
  {
    assert list[..i + 1] == list[..i] + [list[i]];
  }

  /** An index some of whose keys have already been through the filter: what a
      crash leaves of an interrupted swap. */
  ghost predicate PartlySwapped(index: Index, part: Index, copies: map<Key, Pba>, from: Chunk) {
    var all := SwappedAll(index, copies, from);
    forall k ::
      || ((k in part <==> k in index) && (k in part ==> part[k] == index[k]))
      || ((k in part <==> k in all) && (k in part ==> part[k] == all[k]))
  }

  /** Redoing the swap over whatever part of it survived gives the full swap, so
      redoing it any number of times does too. */
  lemma SwapIsRedoable(index: Index, part: Index, copies: map<Key, Pba>, from: Chunk)
    requires forall k :: k in copies ==> copies[k].chunk != from
    requires PartlySwapped(index, part, copies, from)
    ensures SwappedAll(part, copies, from) == SwappedAll(index, copies, from)
  {
    var all := SwappedAll(index, copies, from);
    var redo := SwappedAll(part, copies, from);
    forall k ensures (k in redo <==> k in all) && (k in redo ==> redo[k] == all[k]) {
    }
  }

  /** The full swap leaves no live entry in `from`, makes no dead blob live and loses
      no live one. */
  lemma SwapEmptiesFrom(index: Index, copies: map<Key, Pba>, from: Chunk, k: Key)
    requires forall x :: x in copies ==> copies[x].chunk != from
    requires forall x :: IsLive(index, x) && index[x].pba.chunk == from ==> x in copies
    ensures IsLive(SwappedAll(index, copies, from), k) <==> IsLive(index, k)
    ensures IsLive(index, k) ==> SwappedAll(index, copies, from)[k].pba.chunk != from
    ensures k !in copies && k in index ==> SwappedAll(index, copies, from)[k] == index[k]
  {
    var all := SwappedAll(index, copies, from);
    assert k in all <==> k in index && !(k in copies && index[k] == Tombstone);
  }

  ghost predicate SameLive(index: Index, now: Index) {
    forall k :: IsLive(now, k) <==> IsLive(index, k)
  }

  /** In every reachable state the GC index holds a true copy of every live entry in the
      chunk of a recorded task. */
  lemma RecordedCopies(s: Node, a: Slot, copies: map<Key, Pba>)
    requires Inv(s) && a in s.recs && copies == GcOf(s.gcIndex, s.recs[a].to)
    ensures TruthfulIn(s.disk, Payloads(s.log), copies, s.recs[a].to) && s.recs[a].from != s.recs[a].to
    ensures forall k :: IsLive(s.index, k) && s.index[k].pba.chunk == s.recs[a].from ==> k in copies
  {
    GcSteps.JobAt(s, a);
    assert Recorded(ViewOf(s), a, s.recs[a]);
    forall k | IsLive(s.index, k) && s.index[k].pba.chunk == s.recs[a].from ensures k in copies {
      GcSteps.HomeUnique(s, a, s.shards[k.shard].slot, s.index[k].pba.chunk);
    }
  }

  lemma SwapTruthful(index: Index, copies: map<Key, Pba>, from: Chunk, disk: Disk, pl: map<Key, Data>, to: Chunk)
    requires Truthful(disk, pl, index) && TruthfulIn(disk, pl, copies, to)
    ensures Truthful(disk, pl, SwappedAll(index, copies, from))
  {
  }

  /** So the swap of a recorded task leaves no live entry in `from`, the same blobs live,
      and every live entry at data of its blob. */
  lemma SwapOfRecord(s: Node, a: Slot, now: Index)
    requires Inv(s) && a in s.recs && now == SwappedAll(s.index, GcOf(s.gcIndex, s.recs[a].to), s.recs[a].from)
    ensures NoEntryAt(now, s.recs[a].from) && SameLive(s.index, now) && Truthful(s.disk, Payloads(s.log), now)
  {
    var copies := GcOf(s.gcIndex, s.recs[a].to);
    RecordedCopies(s, a, copies);
    SwapTruthful(s.index, copies, s.recs[a].from, s.disk, Payloads(s.log), s.recs[a].to);
    forall k ensures IsLive(now, k) <==> IsLive(s.index, k) {
      SwapEmptiesFrom(s.index, copies, s.recs[a].from, k);
    }
    forall k | IsLive(now, k) ensures now[k].pba.chunk != s.recs[a].from {
      SwapEmptiesFrom(s.index, copies, s.recs[a].from, k);
    }
  }

  // --------------------------------------------------------- shard records

  /** `chunk_to_shards_map_` is the inverse of shard -> p_chunk. */
  ghost predicate InverseOf(byChunk: map<Chunk, set<ShardId>>, shards: map<ShardId, Shard>) {
    && (forall sh :: sh in shards ==> shards[sh].chunk in byChunk && sh in byChunk[shards[sh].chunk])
    && (forall c, sh :: c in byChunk && sh in byChunk[c] ==> sh in shards && shards[sh].chunk == c)
  }

  /** Shards of chunk `from` moved to chunk `to`. */
  function ChunkMoved(shards: map<ShardId, Shard>, from: Chunk, to: Chunk): map<ShardId, Shard> {
    map sh | sh in shards :: if shards[sh].chunk == from then shards[sh].(chunk := to) else shards[sh]
  }

  /** When the slot's shards are all on the two chunks, and no other shard is on
      `from`, moving the chunk is what the task's target asks for. */
  lemma ChunkMovedIsTarget(s: Node, a: Slot)
    requires Inv(s) && a in s.recs
    ensures ChunkMoved(s.shards, s.recs[a].from, s.recs[a].to) == ShardsMovedTo(s.shards, a, s.recs[a].to)
  {
    var j := s.recs[a];
    forall sh | sh in s.shards
      ensures s.shards[sh].chunk == j.from ==> s.shards[sh].slot == a
      ensures s.shards[sh].slot == a ==> s.shards[sh].chunk == j.from || s.shards[sh].chunk == j.to
    {
      HomeOfShard(s, a, sh);
    }
  }

  lemma HomeOfShard(s: Node, a: Slot, sh: ShardId)
    requires Ownership(s) && PlacedShards(s.slots, s.recs, s.shards) && a in s.recs && sh in s.shards
    ensures s.shards[sh].chunk == s.recs[a].from ==> s.shards[sh].slot == a
    ensures s.shards[sh].slot == a ==> Uses(s.recs[a], s.shards[sh].chunk)
  {
    GcSteps.JobAt(s, a);
    assert InHome(s.slots, s.recs, s.shards[sh].slot, s.shards[sh].chunk);
    if s.shards[sh].chunk == s.recs[a].from {
      GcSteps.HomeUnique(s, a, s.shards[sh].slot, s.shards[sh].chunk);
    }
  }

  // --------------------------------------------------------------- the actor

  /** The reserved-chunk records after `to` became a data chunk and `from` a
      reserved one. */
  function RecordsMoved(records: seq<Chunk>, from: Chunk, to: Chunk): seq<Chunk> {
    if records == [] then []
    else if records[0] == to then [from] + records[1..]
    else [records[0]] + RecordsMoved(records[1..], from, to)
  }

  lemma {:induction false} RecordsMovedAt(records: seq<Chunk>, from: Chunk, to: Chunk, i: nat)
    requires i < |records| && records[i] == to && to !in records[..i]
    ensures RecordsMoved(records, from, to) == records[i := from]
  {
    if i > 0 {
      assert records[1..][..i - 1] == records[1..i];
      assert records[..i] == [records[0]] + records[1..i];
      RecordsMovedAt(records[1..], from, to, i - 1);
    }
  }

  lemma {:induction false} RecordsMovedNone(records: seq<Chunk>, from: Chunk, to: Chunk)
    requires to !in records
    ensures RecordsMoved(records, from, to) == records
  {
    if records != [] { RecordsMovedNone(records[1..], from, to); }
  }

  ghost predicate NoRepeats(records: seq<Chunk>) {
    forall i, j :: 0 <= i < |records| && 0 <= j < |records| && records[i] == records[j] ==> i == j
  }

  function ChunkSet(records: seq<Chunk>): set<Chunk> {
    set c | c in records
  }

  /** Before the rewrite or after it, the records end as the target asks: `from`
      reserved instead of `to`. */
  lemma RecordsMovedIsTarget(records: seq<Chunk>, from: Chunk, to: Chunk)
    requires NoRepeats(records) && from != to && (from in records <==> to !in records)
    ensures ChunkSet(RecordsMoved(records, from, to)) == ChunkSet(records) - {to} + {from}
    ensures |RecordsMoved(records, from, to)| == |records|
  {
    if to in records {
      var i :| 0 <= i < |records| && records[i] == to;
      RecordsMovedAt(records, from, to, i);
      var moved := records[i := from];
      forall c ensures c in moved <==> c in ChunkSet(records) - {to} + {from} {
        if c in records && c != to {
          var j :| 0 <= j < |records| && records[j] == c;
          assert moved[j] == c;
        }
        assert moved[i] == from;
      }
    } else {
      RecordsMovedNone(records, from, to);
    }
  }

  /** The parts of the actor's work together are the target of the task. */
  lemma MovedIsTarget(s: Node, a: Slot, records: seq<Chunk>)
    requires Inv(s) && a in s.recs && NoRepeats(records) && ChunkSet(records) == s.reserved
    ensures var j := s.recs[a];
      && j.from != j.to && |RecordsMoved(records, j.from, j.to)| == |records|
      && Superblocks(s.slots[a := j.to], ChunkMoved(s.shards, j.from, j.to),
            ChunkSet(RecordsMoved(records, j.from, j.to)),
                     s.recs - {a}) == Target(s, a)
  {
    var j := s.recs[a];
    GcSteps.JobAt(s, a);
    assert j.from in ChunkSet(records) <==> j.from in records;
    assert j.to in ChunkSet(records) <==> j.to in records;
    ChunkMovedIsTarget(s, a);
    RecordsMovedIsTarget(records, j.from, j.to);
  }

  /** `after` is `before` rotated past its first occurrence of either chunk, that
      occurrence dropped. */
  predicate TakenAt(before: seq<Chunk>, after: seq<Chunk>, i: nat, from: Chunk, to: Chunk)
    requires i < |before|
  {
    && (before[i] == from || before[i] == to)
    && from !in before[..i] && to !in before[..i]
    && after == before[i + 1..] + before[..i]
  }

  /** `moved` is `shards` with the shards of `gone` on chunk `to`. */
  ghost predicate MovedSome(shards: map<ShardId, Shard>, moved: map<ShardId, Shard>, gone: set<ShardId>, to: Chunk) {
    && moved.Keys == shards.Keys
    && forall sh :: sh in shards ==>
         moved[sh] == if sh in gone then shards[sh].(chunk := to) else shards[sh]
  }

  function OnChunk(byChunk: map<Chunk, set<ShardId>>, c: Chunk): set<ShardId> {
    if c in byChunk then byChunk[c] else {}
  }

  lemma MovedNone(shards: map<ShardId, Shard>, to: Chunk)
    ensures MovedSome(shards, shards, {}, to)
  {
  }

  lemma MovedOneMore(shards: map<ShardId, Shard>, moved: map<ShardId, Shard>, gone: set<ShardId>, to: Chunk,
                     sh: ShardId)
    requires MovedSome(shards, moved, gone, to) && sh in shards && sh !in gone
    ensures MovedSome(shards, moved[sh := moved[sh].(chunk := to)], gone + {sh}, to)
  {
  }

  /** Write the superblock of every shard of `todo` with its new chunk. */
  method MoveShards(shards: map<ShardId, Shard>, todo: set<ShardId>, to: Chunk) returns (moved: map<ShardId, Shard>)
    requires todo <= shards.Keys
    ensures MovedSome(shards, moved, todo, to)
  {
    moved := shards;
    var left := todo;
    MovedNone(shards, to);
    assert todo - left == {};
    while left != {}
      invariant left <= todo
      invariant MovedSome(shards, moved, todo - left, to)
      decreases |left|
    {
      var sh :| sh in left;
      MovedOneMore(shards, moved, todo - left, to, sh);
      moved := moved[sh := moved[sh].(chunk := to)];
      assert todo - (left - {sh}) == (todo - left) + {sh};
      left := left - {sh};
    }
    assert todo - left == todo;
  }

  lemma MovedIsChunk(shards: map<ShardId, Shard>, moved: map<ShardId, Shard>, byChunk: map<Chunk, set<ShardId>>,
                     from: Chunk, to: Chunk)
    requires InverseOf(byChunk, shards) && MovedSome(shards, moved, OnChunk(byChunk, from), to)
    ensures moved == ChunkMoved(shards, from, to)
  {
    forall sh | sh in shards ensures sh in OnChunk(byChunk, from) <==> shards[sh].chunk == from {
      assert shards[sh].chunk in byChunk && sh in byChunk[shards[sh].chunk];
    }
  }

  lemma MovedInverse(shards: map<ShardId, Shard>, byChunk: map<Chunk, set<ShardId>>, from: Chunk, to: Chunk,
                     now: map<Chunk, set<ShardId>>)
    requires InverseOf(byChunk, shards) && from != to
    requires now == (byChunk - {from})[to := OnChunk(byChunk, to) + OnChunk(byChunk, from)]
    ensures InverseOf(now, ChunkMoved(shards, from, to))
  {
    var moved := ChunkMoved(shards, from, to);
    forall sh | sh in moved ensures moved[sh].chunk in now && sh in now[moved[sh].chunk] {
      assert shards[sh].chunk in byChunk && sh in byChunk[shards[sh].chunk];
    }
    forall c, sh | c in now && sh in now[c] ensures sh in moved && moved[sh].chunk == c {
      if sh in OnChunk(byChunk, from) { assert shards[sh].chunk == from; }
    }
  }

  lemma MovedAll(shards: map<ShardId, Shard>, moved: map<ShardId, Shard>, byChunk: map<Chunk, set<ShardId>>,
                 from: Chunk, to: Chunk)
    requires InverseOf(byChunk, shards) && MovedSome(shards, moved, OnChunk(byChunk, from), to) && from != to
    ensures moved == ChunkMoved(shards, from, to)
    ensures InverseOf((byChunk - {from})[to := OnChunk(byChunk, to) + OnChunk(byChunk, from)], moved)
  {
    MovedIsChunk(shards, moved, byChunk, from, to);
    MovedInverse(shards, byChunk, from, to, (byChunk - {from})[to := OnChunk(byChunk, to) + OnChunk(byChunk, from)]);
  }

  class PdevGcActor {
    var index: Index
    var gcIndex: GcIndex
    var slots: map<Slot, Chunk>
    var shards: map<ShardId, Shard>
    var byChunk: map<Chunk, set<ShardId>>
    var records: seq<Chunk>
    var queue: seq<Chunk>
    var recs: map<Slot, Job>
    var used: map<Chunk, nat>

    /** Reset the chunk and clear its entries of the GC index before it takes copies.
        `left` are the entries the removal leaves, `removed` and `queried` say whether
        removal and the query after it succeed. Success means an empty chunk without
        entries; after a failure the chunk is empty all the same. */
    method PurgeReservedChunk(c: Chunk, left: map<Key, Pba>, removed: bool, queried: bool) returns (ok: bool)
      modifies this`gcIndex, this`used
      ensures ok <==> removed && queried && GcOf(gcIndex, c) == map[]
      ensures used == old(used)[c := 0]
      ensures GcOf(gcIndex, c) == left && forall d :: d != c ==> GcOf(gcIndex, d) == old(GcOf(gcIndex, d))
    {
      used := used[c := 0];
      gcIndex := gcIndex[c := left];
      if !removed || !queried { return false; }
      return left == map[];
    }

    /** Update the PG index key by key through the filter. */
    method ReplaceBlobIndex(from: Chunk, list: seq<(Key, Pba)>)
      requires DistinctKeys(list)
      modifies this`index
      ensures index == SwappedAll(old(index), Copies(list), from)
    {
      index := SwapMany(index, from, list);
    }

    /** Register a new shard in the shard map and in its chunk's set. */
    method AddNewShard(sh: ShardId, rec: Shard)
      requires InverseOf(byChunk, shards) && sh !in shards
      modifies this`shards, this`byChunk
      ensures InverseOf(byChunk, shards)
      ensures shards == old(shards)[sh := rec]
    {
      shards := shards[sh := rec];
      var at := if rec.chunk in byChunk then byChunk[rec.chunk] else {};
      byChunk := byChunk[rec.chunk := at + {sh}];
    }

    /** Point every shard of `from` at `to`, one superblock at a time. */
    method UpdateShardMeta(from: Chunk, to: Chunk)
      requires InverseOf(byChunk, shards) && from != to
      modifies this`shards, this`byChunk
      ensures shards == ChunkMoved(old(shards), from, to)
      ensures InverseOf(byChunk, shards)
      ensures from !in byChunk
    {
      if from !in byChunk {
        assert shards == ChunkMoved(shards, from, to);
        return;
      }
      var now := MoveShards(shards, byChunk[from], to);
      MovedAll(shards, now, byChunk, from, to);
      byChunk := (byChunk - {from})[to := OnChunk(byChunk, to) + byChunk[from]];
      shards := now;
    }

    /** Rewrite the record of the reserved chunk that received the data. */
    method UpdateReservedRecord(from: Chunk, to: Chunk)
      modifies this`records
      ensures records == RecordsMoved(old(records), from, to)
    {
      var i := 0;
      while i < |records|
        invariant 0 <= i <= |records| && records == old(records)
        invariant to !in records[..i]
      {
        if records[i] == to {
          RecordsMovedAt(records, from, to, i);
          records := records[i := from];
          return;
        }
        i := i + 1;
      }
      assert records[..|records|] == records;
      RecordsMovedNone(records, from, to);
    }

    /** Everything after the task record: swap the index, move the PG slot and the
        shards, rewrite the reserved record, destroy the task record. From any state of
        any run, with the copies of the GC index, this ends in the target of the task,
        with no live entry left in `from`, the same blobs live, and their data intact. */
    method ProcessAfterRecord(a: Slot, list: seq<(Key, Pba)>, ghost s: Node)
      requires Inv(s) && a in s.recs && DistinctKeys(list) && InverseOf(byChunk, shards) && NoRepeats(records)
      requires Superblocks(slots, shards, ChunkSet(records), recs) == SuperblocksOf(s)
      requires index == s.index && Copies(list) == GcOf(s.gcIndex, s.recs[a].to)
      modifies this`index, this`slots, this`shards, this`byChunk, this`records, this`recs
      ensures Superblocks(slots, shards, ChunkSet(records), recs) == Target(s, a)
      ensures NoEntryAt(index, s.recs[a].from) && SameLive(s.index, index) && Truthful(s.disk, Payloads(s.log), index)
      ensures index == SwappedAll(old(index), Copies(list), s.recs[a].from)
      ensures InverseOf(byChunk, shards) && |records| == |old(records)|
    {
      MovedIsTarget(s, a, records);
      SwapOfRecord(s, a, SwappedAll(s.index, Copies(list), s.recs[a].from));
      MoveChunk(a, list);
    }

    method MoveChunk(a: Slot, list: seq<(Key, Pba)>)
      requires a in recs && recs[a].from != recs[a].to && DistinctKeys(list) && InverseOf(byChunk, shards)
      modifies this`index, this`slots, this`shards, this`byChunk, this`records, this`recs
      ensures index == SwappedAll(old(index), Copies(list), old(recs)[a].from)
      ensures slots == old(slots)[a := old(recs)[a].to]
      ensures shards == ChunkMoved(old(shards), old(recs)[a].from, old(recs)[a].to)
      ensures InverseOf(byChunk, shards)
      ensures records == RecordsMoved(old(records), old(recs)[a].from, old(recs)[a].to)
      ensures recs == old(recs) - {a}
    {
      var j := recs[a];
      ReplaceBlobIndex(j.from, list);
      slots := slots[a := j.to];
      UpdateShardMeta(j.from, j.to);
      UpdateReservedRecord(j.from, j.to);
      recs := recs - {a};
    }

    /** Take the recovered task's chunk out of the reserved queue: read until one
        of its two chunks shows up, and put the others back at the end. */
    method TakeFromQueue(from: Chunk, to: Chunk) returns (found: Chunk, ghost at: nat)
      requires from in queue || to in queue
      modifies this`queue
      ensures at < |old(queue)| && found == old(queue)[at]
      ensures TakenAt(old(queue), queue, at, from, to)
      ensures multiset(queue) == multiset(old(queue)) - multiset{found}
    {
      var q, skipped := queue, [];
      at := 0;
      while q[0] != from && q[0] != to
        invariant at <= |queue| && q == queue[at..] && skipped == queue[..at]
        invariant from !in skipped && to !in skipped
        invariant from in q || to in q
        decreases |q|
      {
        skipped, q := skipped + [q[0]], q[1..];
        at := at + 1;
      }
      found := q[0];
      TakenMultiset(skipped, q);
      assert queue == skipped + q;
      queue := q[1..] + skipped;
    }
  }

  lemma TakenMultiset(skipped: seq<Chunk>, q: seq<Chunk>)
    requires q != []
    ensures multiset(q[1..] + skipped) == multiset(skipped + q) - multiset{q[0]}
  {
    assert q == [q[0]] + q[1..];
  }
}
