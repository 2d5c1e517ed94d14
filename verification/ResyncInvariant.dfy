/** What holds in every state of a resync. */
module ResyncInvariant {
  import opened Storage
  import opened ResyncLeader
  import opened ResyncFollower
  import opened ResyncMachine

  /** The blobs that stay live in the first `p` shards are all in `index`, and the
      shards exist. */
  ghost predicate DoneBefore(ids: seq<ShardId>, base: map<ShardId, set<BlobId>>, shards: map<ShardId, LocalShard>,
                             index: set<Key>, p: nat)
  {
    forall i :: 0 <= i < p && i < |ids| ==> Done(base, shards, index, ids[i])
  }

  ghost predicate Done(base: map<ShardId, set<BlobId>>, shards: map<ShardId, LocalShard>, index: set<Key>, s: ShardId) {
    s in shards && s in base && KeysOf(s, base[s]) <= index
  }

  /** Each blob of the index is stored once. */
  ghost predicate StoredOnce(index: set<Key>, copies: map<Key, nat>) {
    copies.Keys == index && forall k :: k in copies ==> copies[k] == 1
  }

  ghost predicate IndexOk(listed: map<ShardId, set<BlobId>>, index: set<Key>) {
    forall k :: k in index ==> k.shard in listed && k.blob in listed[k.shard]
  }

  ghost predicate ShardsOk(list: seq<ShardEntry>, shards: map<ShardId, LocalShard>) {
    forall s :: s in shards ==> ShardOk(list, s, shards[s])
  }

  ghost predicate ShardOk(list: seq<ShardEntry>, s: ShardId, r: LocalShard) {
    var i := FindId(Ids(list), s);
    i < |list| && r.v == list[i].v && (r.open ==> LastOfChunk(list, i))
  }

  function CursorPos(ids: seq<ShardId>, c: Cursor): nat {
    match c case NoShard => 0 case At(id) => FindId(ids, id) case End => |ids|
  }

  ghost predicate CursorOk(ids: seq<ShardId>, c: Cursor) {
    c.At? ==> FindId(ids, c.id) < |ids|
  }

  /** Chunks of open shards already passed are in use, and a chunk in use holds an
      open shard or the chunk of a shard still to be received. */
  ghost predicate ChunksOk(list: seq<ShardEntry>, shards: map<ShardId, LocalShard>, inUse: set<nat>, p: nat) {
    && (forall s :: s in shards && shards[s].open && FindId(Ids(list), s) < p ==> shards[s].v in inUse)
    && (forall v :: v in inUse ==> OpenIn(shards, v) || ToCome(list, v, p))
  }

  ghost predicate OpenIn(shards: map<ShardId, LocalShard>, v: nat) {
    exists s :: s in shards && shards[s].open && shards[s].v == v
  }

  ghost predicate ToCome(list: seq<ShardEntry>, v: nat, p: nat) {
    exists j :: p <= j < |list| && list[j].v == v
  }

  ghost predicate Matching(lsn: nat, ctx: Ctx) {
    ctx.Ctx? && ctx.lsn == lsn
  }

  /** How far the resync is: everything before this position is done. */
  function Position(ids: seq<ShardId>, off: ObjId, ctx: Ctx): nat {
    if off.Last? then |ids|
    else if off.shard != 0 then FindId(ids, off.shard)
    else if ctx.Ctx? then CursorPos(ids, ctx.cursor)
    else 0
  }

  ghost predicate ConfigOk(base: map<ShardId, set<BlobId>>, listed: map<ShardId, set<BlobId>>, list: seq<ShardEntry>) {
    DistinctIds(list) && OpenIsLast(list)
    && forall i :: 0 <= i < |list| ==>
          list[i].id in base && list[i].id in listed && base[list[i].id] <= listed[list[i].id]
  }

  ghost predicate ContextOk(lsn: nat, listed: map<ShardId, set<BlobId>>, list: seq<ShardEntry>, f: Follower) {
    Matching(lsn, f.ctx) ==>
      f.ctx.list == Ids(list) && CursorOk(f.ctx.list, f.ctx.cursor) && ShardsOk(list, f.shards)
        && IndexOk(listed, f.index)
  }

  /** The durable cursor: every shard before it is durably complete. */
  ghost predicate RecordOk(lsn: nat, base: map<ShardId, set<BlobId>>, list: seq<ShardEntry>, ctx: Ctx, r: Record,
                           shards: map<ShardId, LocalShard>, dIndex: set<Key>)
  {
    r.Record? && r.lsn == lsn ==>
      && Matching(lsn, ctx)
      && r.listLsn == lsn && r.list == Ids(list) && CursorOk(r.list, r.cursor)
      && DoneBefore(r.list, base, shards, dIndex, CursorPos(r.list, r.cursor))
  }

  ghost predicate PendingOk(lsn: nat, base: map<ShardId, set<BlobId>>, list: seq<ShardEntry>, ctx: Ctx, p: Pending,
                            r: Record, shards: map<ShardId, LocalShard>, index: set<Key>)
  {
    p.Write? ==>
      && Matching(lsn, ctx) && CursorOk(Ids(list), p.cursor) && p.index <= index
      && (!p.init ==> r.Record? && r.lsn == lsn)
      && DoneBefore(Ids(list), base, shards, p.index, CursorPos(Ids(list), p.cursor))
  }

  /** The object to serve is the start of shard `i`. */
  ghost predicate ShardTurn(l: Leader, off: ObjId, ctx: Ctx)
    requires LeaderOk(l) && off.Obj? && ctx.Ctx?
  {
    var i := FindId(Ids(l.list), off.shard);
    && i < |l.list|
    && (ctx.cursor == At(off.shard) || NextShard(ctx.list, ctx.cursor) == At(off.shard))
    && (l.cur.shard == 0 || l.cur == off || (l.idx == i - 1 && ExpectedNext(l) == off))
  }

  ghost predicate Received(index: set<Key>, s: ShardId, blobs: seq<BlobEntry>) {
    KeysOf(s, LiveIds(blobs)) <= index
  }

  /** The object to serve is a batch of shard `i`: the batches before it arrived. */
  ghost predicate BatchTurn(base: map<ShardId, set<BlobId>>, listed: map<ShardId, set<BlobId>>, l: Leader, off: ObjId,
                            ctx: Ctx, shards: map<ShardId, LocalShard>, inUse: set<nat>, index: set<Key>)
    requires LeaderOk(l) && off.Obj? && ctx.Ctx? && off.batch > 0
  {
    && ctx.cursor == At(off.shard) && (ctx.batch == off.batch || ctx.batch + 1 == off.batch)
    && off.shard in shards && (shards[off.shard].open ==> shards[off.shard].v in inUse)
    && l.cur.shard == off.shard && Listing(base, listed, off.shard, l.blobs)
    && if l.cur == off then Received(index, off.shard, l.blobs[..l.start])
       else l.cur.batch + 1 == off.batch && ExpectedNext(l) == off
            && Received(index, off.shard, l.blobs[..l.start + l.count])
  }

  ghost predicate TurnOk(s: Sync)
    requires LeaderOk(s.l)
  {
    match s.off
    case Last => Matching(s.lsn, s.f.ctx)
    case Obj(shard, batch) =>
      if shard == 0 then batch == 0
      else if !Matching(s.lsn, s.f.ctx) then false
      else if batch == 0 then ShardTurn(s.l, s.off, s.f.ctx)
      else BatchTurn(s.base, s.listed, s.l, s.off, s.f.ctx, s.f.shards, s.f.inUse, s.f.index)
  }

  ghost predicate ProgressOk(lsn: nat, base: map<ShardId, set<BlobId>>, list: seq<ShardEntry>, off: ObjId,
                             f: Follower) {
    Matching(lsn, f.ctx) ==>
      var p := Position(Ids(list), off, f.ctx);
      && CursorPos(Ids(list), f.ctx.cursor) <= p <= |list|
      && DoneBefore(Ids(list), base, f.shards, f.index, p)
      && ChunksOk(list, f.shards, f.inUse, p)
      && (p > 0 ==> RecordDue(lsn, f.record, f.pending))
  }

  /** The two durable records exist, or the write that makes them is pending. */
  ghost predicate RecordDue(lsn: nat, r: Record, p: Pending) {
    p.Write? || (r.Record? && r.lsn == lsn)
  }

  ghost predicate Inv(s: Sync) {
    && LeaderOk(s.l) && ConfigOk(s.base, s.listed, s.l.list)
    && StoredOnce(s.f.index, s.f.copies) && s.f.dIndex <= s.f.index
    && ContextOk(s.lsn, s.listed, s.l.list, s.f)
    && RecordOk(s.lsn, s.base, s.l.list, s.f.ctx, s.f.record, s.f.shards, s.f.dIndex)
    && PendingOk(s.lsn, s.base, s.l.list, s.f.ctx, s.f.pending, s.f.record, s.f.shards, s.f.index)
    && ProgressOk(s.lsn, s.base, s.l.list, s.off, s.f)
    && TurnOk(s)
  }

  /** A resync of snapshot `lsn` starts over whatever an earlier snapshot left on
      the follower. */
  ghost predicate Init(s: Sync) {
    && DistinctIds(s.l.list) && s.l == FreshLeader(s.l.list) && ConfigOk(s.base, s.listed, s.l.list)
    && s.off == PG_META
    && !Matching(s.lsn, s.f.ctx) && !(s.f.record.Record? && s.f.record.lsn == s.lsn) && s.f.pending.NoWrite?
    && StoredOnce(s.f.index, s.f.copies) && s.f.dIndex <= s.f.index
  }

  lemma InitInv(s: Sync)
    requires Init(s)
    ensures Inv(s)
  {
  }

  // ------------------------------------------------------- small facts

  lemma FindDistinct(list: seq<ShardEntry>, i: nat)
    requires DistinctIds(list) && i < |list|
    ensures FindId(Ids(list), list[i].id) == i
  {
    FirstFound(Ids(list), list[i].id, i);
  }

  lemma DoneMono(ids: seq<ShardId>, base: map<ShardId, set<BlobId>>, shards: map<ShardId, LocalShard>,
                 more: map<ShardId, LocalShard>, index: set<Key>, bigger: set<Key>, p: nat, q: nat)
    requires DoneBefore(ids, base, shards, index, p) && q <= p && index <= bigger && shards.Keys <= more.Keys
    ensures DoneBefore(ids, base, more, bigger, q)
  {
    forall i | 0 <= i < q && i < |ids| ensures Done(base, more, bigger, ids[i]) {
      assert Done(base, shards, index, ids[i]);
    }
  }

  lemma ChunksMono(list: seq<ShardEntry>, shards: map<ShardId, LocalShard>, inUse: set<nat>, p: nat, q: nat)
    requires ChunksOk(list, shards, inUse, p) && q <= p
    ensures ChunksOk(list, shards, inUse, q)
  {
    forall v | v in inUse ensures OpenIn(shards, v) || ToCome(list, v, q) {
      if ToCome(list, v, p) {
        var j :| p <= j < |list| && list[j].v == v;
        assert q <= j;
      }
    }
  }

  lemma ChunksOfOpen(list: seq<ShardEntry>, shards: map<ShardId, LocalShard>, p: nat)
    ensures ChunksOk(list, shards, OpenChunks(shards), p)
  {
  }

  // ------------------------------------------------- steps of one side

  lemma RewindInv(s: Sync)
    requires Inv(s)
    ensures Inv(s.(off := PG_META))
  {
    if Matching(s.lsn, s.f.ctx) {
      var ids := Ids(s.l.list);
      var p, q := Position(ids, s.off, s.f.ctx), CursorPos(ids, s.f.ctx.cursor);
      DoneMono(ids, s.base, s.f.shards, s.f.shards, s.f.index, s.f.index, p, q);
      ChunksMono(s.l.list, s.f.shards, s.f.inUse, p, q);
    }
  }

  lemma CheckpointInv(s: Sync, upTo: set<Key>)
    requires Inv(s) && s.f.dIndex <= upTo <= s.f.index
    ensures Inv(s.(f := s.f.(dIndex := upTo)))
  {
    var t := s.(f := s.f.(dIndex := upTo));
    var r := s.f.record;
    if r.Record? && r.lsn == s.lsn {
      DoneMono(r.list, s.base, s.f.shards, s.f.shards, s.f.dIndex, upTo, CursorPos(r.list, r.cursor),
        CursorPos(r.list, r.cursor));
    }
  }

  lemma CrashInv(s: Sync)
    requires Inv(s)
    ensures Inv(s.(f := Recovered(s.f), off := PG_META))
  {
    var f, r := Recovered(s.f), s.f.record;
    ChunksOfOpen(s.l.list, f.shards, Position(Ids(s.l.list), PG_META, f.ctx));
    assert f.index == s.f.dIndex && f.copies.Keys == f.index;
    if Matching(s.lsn, f.ctx) {
      assert r.Record? && r.lsn == s.lsn;
      assert f.ctx.list == Ids(s.l.list) && f.ctx.cursor == r.cursor;
      assert IndexOk(s.listed, f.index);
    }
  }

  lemma FlushInv(s: Sync)
    requires Inv(s) && s.f.ctx.Ctx?
    ensures Inv(s.(f := Flushed(s.f)))
  {
    if s.f.pending.Write? {
      var f, p, ids := Flushed(s.f), s.f.pending, Ids(s.l.list);
      DoneMono(ids, s.base, s.f.shards, s.f.shards, p.index, f.dIndex, CursorPos(ids, p.cursor),
        CursorPos(ids, p.cursor));
    }
  }

  lemma RestartLeaderInv(s: Sync, list: seq<ShardEntry>)
    requires Inv(s) && SameShards(s.l.list, list)
    ensures Inv(s.(l := FreshLeader(list), off := PG_META))
  {
    RewindInv(s);
    SameIdLists(s.l.list, list);
    SameConfig(s.base, s.listed, s.l.list, list);
    if Matching(s.lsn, s.f.ctx) {
      SameShardsOk(s.l.list, list, s.f.shards);
      SameChunks(s.l.list, list, s.f.shards, s.f.inUse, CursorPos(Ids(list), s.f.ctx.cursor));
    }
  }

  lemma SameIdLists(a: seq<ShardEntry>, b: seq<ShardEntry>)
    requires SameShards(a, b)
    ensures Ids(a) == Ids(b)
  {
  }

  lemma SameLast(a: seq<ShardEntry>, b: seq<ShardEntry>, i: nat)
    requires SameShards(a, b) && i < |a| && LastOfChunk(a, i)
    ensures LastOfChunk(b, i)
  {
    forall j | i < j < |b| ensures b[j].v != b[i].v {
      assert a[j].v != a[i].v;
    }
  }

  lemma SameConfig(base: map<ShardId, set<BlobId>>, listed: map<ShardId, set<BlobId>>, a: seq<ShardEntry>,
                   b: seq<ShardEntry>)
    requires SameShards(a, b) && ConfigOk(base, listed, a)
    ensures ConfigOk(base, listed, b)
  {
    forall i | 0 <= i < |b| && b[i].open ensures LastOfChunk(b, i) {
      assert LastOfChunk(a, i);
      SameLast(a, b, i);
    }
    forall i, j | 0 <= i < |b| && 0 <= j < |b| && b[i].id == b[j].id ensures i == j {
      assert a[i].id == a[j].id;
    }
    forall i | 0 <= i < |b|
      ensures b[i].id != 0 && b[i].id in base && b[i].id in listed && base[b[i].id] <= listed[b[i].id]
    {
      assert a[i].id in base;
    }
  }

  lemma SameShardsOk(a: seq<ShardEntry>, b: seq<ShardEntry>, shards: map<ShardId, LocalShard>)
    requires SameShards(a, b) && ShardsOk(a, shards)
    ensures ShardsOk(b, shards)
  {
    SameIdLists(a, b);
    forall s | s in shards ensures ShardOk(b, s, shards[s]) {
      assert ShardOk(a, s, shards[s]);
      var i := FindId(Ids(a), s);
      if shards[s].open { SameLast(a, b, i); }
    }
  }

  lemma SameChunks(a: seq<ShardEntry>, b: seq<ShardEntry>, shards: map<ShardId, LocalShard>, inUse: set<nat>, p: nat)
    requires SameShards(a, b) && ChunksOk(a, shards, inUse, p)
    ensures ChunksOk(b, shards, inUse, p)
  {
    SameIdLists(a, b);
    forall v | v in inUse ensures OpenIn(shards, v) || ToCome(b, v, p) {
      if ToCome(a, v, p) {
        var j :| p <= j < |a| && a[j].v == v;
        assert b[j].v == v;
      }
    }
  }
}
