/** Message exchanges keep the resync invariant. */
module ResyncSteps {
  import opened Storage
  import opened ResyncLeader
  import opened ResyncFollower
  import opened ResyncMachine
  import opened ResyncInvariant

  // ------------------------------------------------------- leader's half

  /** The leader's cursor accepts the object the follower asked for. */
  lemma Accepted(s: Sync)
    requires Inv(s) && s.off.Obj? && s.off.shard != 0
    ensures MoveCursor(s.l, s.off).0
  {
  }

  lemma TurnIndex(s: Sync)
    requires Inv(s) && s.off.Obj? && s.off.shard != 0
    ensures FindId(Ids(s.l.list), s.off.shard) < |s.l.list|
  {
    if s.off.batch > 0 { FindDistinct(s.l.list, s.l.idx); }
  }

  lemma MovedShardTurn(l: Leader, off: ObjId, ctx: Ctx)
    requires LeaderOk(l) && off.Obj? && off.shard != 0 && ctx.Ctx? && off.batch == 0 && ShardTurn(l, off, ctx)
    ensures ShardTurn(MoveCursor(l, off).1, off, ctx)
  {
    MoveKeepsOk(l, off);
  }

  lemma MovedBatchTurn(base: map<ShardId, set<BlobId>>, listed: map<ShardId, set<BlobId>>, l: Leader, off: ObjId,
                       ctx: Ctx, shards: map<ShardId, LocalShard>, inUse: set<nat>, index: set<Key>)
    requires LeaderOk(l) && off.Obj? && off.shard != 0 && ctx.Ctx? && off.batch > 0
    requires BatchTurn(base, listed, l, off, ctx, shards, inUse, index)
    ensures BatchTurn(base, listed, MoveCursor(l, off).1, off, ctx, shards, inUse, index)
  {
    MoveKeepsOk(l, off);
  }

  lemma MovedInv(s: Sync)
    requires Inv(s) && s.off.Obj? && s.off.shard != 0
    ensures Inv(s.(l := MoveCursor(s.l, s.off).1)) && MoveCursor(s.l, s.off).1.cur == s.off
  {
    Accepted(s);
    MoveKeepsOk(s.l, s.off);
    if s.off.batch == 0 {
      MovedShardTurn(s.l, s.off, s.f.ctx);
    } else {
      MovedBatchTurn(s.base, s.listed, s.l, s.off, s.f.ctx, s.f.shards, s.f.inUse, s.f.index);
    }
  }

  lemma ServedInv(s: Sync, blobs: seq<BlobEntry>, n: nat)
    requires Inv(s) && CanRead(s, blobs, n)
    ensures Inv(s.(l := Served(s.l, s.off, blobs, n)))
  {
    ServedOk(s, blobs, n);
    if s.off.shard != 0 {
      Accepted(s);
      MovedInv(s);
    }
  }

  lemma UnsentInv(s: Sync, blobs: seq<BlobEntry>, n: nat, built: bool)
    requires Inv(s) && CanRead(s, blobs, n)
    ensures Inv(ReadOnly(s, blobs, n, built))
  {
    ServedInv(s, blobs, n);
    if s.off.shard != 0 { MovedInv(s); } else { MoveKeepsOk(s.l, s.off); }
  }

  // ------------------------------------------------------ PG meta message

  lemma WipedInv(s: Sync)
    requires Inv(s)
    ensures Inv(s.(f := Wiped(s.f, s.lsn, Ids(s.l.list)), off := PG_META))
  {
  }

  lemma FirstShard(s: Sync)
    requires Inv(s) && Matching(s.lsn, s.f.ctx) && s.off == PG_META && s.l.cur.shard == 0
    requires s.f.ctx.cursor == NoShard && s.f.shards == map[] && s.f.inUse == {}
    ensures Inv(s.(off := OffsetFor(NextShard(s.f.ctx.list, NoShard))))
  {
    if s.l.list != [] { FindDistinct(s.l.list, 0); }
  }

  lemma ResumeShard(s: Sync)
    requires Inv(s) && Matching(s.lsn, s.f.ctx) && s.off == PG_META && s.l.cur.shard == 0 && s.f.ctx.cursor != NoShard
    ensures Inv(s.(off := OffsetFor(s.f.ctx.cursor)))
  {
    if s.f.ctx.cursor.At? {
      var i := FindId(Ids(s.l.list), s.f.ctx.cursor.id);
      assert s.l.list[i].id == s.f.ctx.cursor.id;
    }
  }

  lemma PgMetaInv(s: Sync, out: Outcome, t: (Follower, ObjId))
    requires Inv(s) && s.off == PG_META && s.l.cur == PG_META
    requires t == OnPgMeta(s.f, s.lsn, Ids(s.l.list), out)
    ensures Inv(s.(f := t.0)) && Inv(s.(f := t.0, off := t.1))
  {
    if Matching(s.lsn, s.f.ctx) && s.f.ctx.cursor != NoShard {
      ResumeShard(s);
    } else if out.destroyed {
      WipedInv(s);
      FirstShard(s.(f := t.0));
    }
  }

  // --------------------------------------------------- shard meta message

  lemma SelectInv(s: Sync)
    requires Inv(s) && s.off.Obj? && s.off.shard != 0 && s.off.batch == 0 && s.l.cur == s.off
    ensures Inv(s.(f := s.f.(inUse := s.f.inUse + {s.l.list[s.l.idx].v})))
  {
    FindDistinct(s.l.list, s.l.idx);
    var v := s.l.list[s.l.idx].v;
    assert ToCome(s.l.list, v, s.l.idx);
    var t := s.(f := s.f.(inUse := s.f.inUse + {v}));
    SelectChunks(s.l.list, s.f.shards, s.f.inUse, s.l.idx, v);
    assert TurnOk(t);
  }

  lemma SelectChunks(list: seq<ShardEntry>, shards: map<ShardId, LocalShard>, inUse: set<nat>, p: nat, v: nat)
    requires ChunksOk(list, shards, inUse, p) && ToCome(list, v, p)
    ensures ChunksOk(list, shards, inUse + {v}, p)
  {
  }

  function WithShard(shards: map<ShardId, LocalShard>, e: ShardEntry): map<ShardId, LocalShard> {
    if e.id in shards then shards else shards[e.id := LocalShard(e.v, e.open)]
  }

  lemma WithShardOk(list: seq<ShardEntry>, shards: map<ShardId, LocalShard>, inUse: set<nat>, i: nat)
    requires DistinctIds(list) && OpenIsLast(list) && i < |list|
    requires ShardsOk(list, shards) && ChunksOk(list, shards, inUse, i)
    ensures ShardsOk(list, WithShard(shards, list[i])) && ChunksOk(list, WithShard(shards, list[i]), inUse, i)
  {
    FindDistinct(list, i);
    var more := WithShard(shards, list[i]);
    forall v | v in inUse ensures OpenIn(more, v) || ToCome(list, v, i) {
      if OpenIn(shards, v) {
        var s :| s in shards && shards[s].open && shards[s].v == v;
        assert more[s] == shards[s];
      }
    }
  }

  lemma CreateInv(s: Sync, f: Follower)
    requires Inv(s) && s.off.Obj? && s.off.shard != 0 && s.off.batch == 0 && s.l.cur == s.off
    requires f == s.f.(shards := WithShard(s.f.shards, s.l.list[s.l.idx]),
                       ctx := s.f.ctx.(cursor := At(s.off.shard), batch := 0))
    ensures Inv(s.(f := f))
  {
    var i, ids := s.l.idx, Ids(s.l.list);
    FindDistinct(s.l.list, i);
    WithShardOk(s.l.list, s.f.shards, s.f.inUse, i);
    DoneMono(ids, s.base, s.f.shards, f.shards, s.f.index, s.f.index, i, i);
    var r, p := s.f.record, s.f.pending;
    if r.Record? && r.lsn == s.lsn {
      DoneMono(r.list, s.base, s.f.shards, f.shards, s.f.dIndex, s.f.dIndex, CursorPos(r.list, r.cursor),
        CursorPos(r.list, r.cursor));
    }
    if p.Write? {
      DoneMono(ids, s.base, s.f.shards, f.shards, p.index, p.index, CursorPos(ids, p.cursor), CursorPos(ids, p.cursor));
    }
  }

  lemma FirstBatch(s: Sync)
    requires Inv(s) && s.off.Obj? && s.off.shard != 0 && s.off.batch == 0 && s.l.cur == s.off
    requires s.f.ctx.cursor == At(s.off.shard) && s.f.ctx.batch == 0 && s.off.shard in s.f.shards
    requires s.f.shards[s.off.shard].v in s.f.inUse && Listing(s.base, s.listed, s.off.shard, s.l.blobs)
    ensures Inv(s.(off := Obj(s.off.shard, 1)))
  {
    var t := s.(off := Obj(s.off.shard, 1));
    assert s.l.blobs[..0] == [];
    assert Received(s.f.index, s.off.shard, s.l.blobs[..0]);
    assert ExpectedNext(s.l) == t.off;
  }

  lemma ShardMetaInv(s: Sync, out: Outcome, t: (Follower, ObjId))
    requires Inv(s) && s.off.Obj? && s.off.shard != 0 && s.off.batch == 0 && s.l.cur == s.off
    requires Listing(s.base, s.listed, s.off.shard, s.l.blobs)
    requires t == OnShardMeta(s.f, s.off, s.l.list[s.l.idx], out)
    ensures Inv(s.(f := t.0)) && Inv(s.(f := t.0, off := t.1))
  {
    if out.selected {
      SelectInv(s);
      var s1 := s.(f := s.f.(inUse := s.f.inUse + {s.l.list[s.l.idx].v}));
      if out.created {
        CreateInv(s1, t.0);
        var s2 := s1.(f := t.0);
        assert ShardOk(s.l.list, s.off.shard, t.0.shards[s.off.shard]);
        FindDistinct(s.l.list, s.l.idx);
        FirstBatch(s2);
      }
    }
  }

  // -------------------------------------------------- blob batch message

  lemma LiveSplit(blobs: seq<BlobEntry>, i: nat, j: nat)
    requires i <= j <= |blobs|
    ensures LiveIds(blobs[..j]) == LiveIds(blobs[..i]) + LiveIds(blobs[i..j])
    ensures LiveIds(blobs[i..j]) <= LiveIds(blobs)
  {
    assert blobs[..j] == blobs[..i] + blobs[i..j];
  }

  lemma CommitStore(index: set<Key>, copies: map<Key, nat>, s: ShardId, done: set<BlobId>)
    requires StoredOnce(index, copies) && forall b :: b in done ==> Key(s, b) !in index
    ensures StoredOnce(index + KeysOf(s, done), Bumped(copies, KeysOf(s, done)))
  {
  }

  lemma CommitInv(s: Sync, done: set<BlobId>, f: Follower)
    requires Inv(s) && s.off.Obj? && s.off.shard != 0 && s.off.batch > 0 && s.l.cur == s.off
    requires done <= NewBlobs(s.f.index, s.off.shard, BatchIds(s.l))
    requires f == Committed(s.f.(ctx := s.f.ctx.(batch := s.off.batch)), s.off.shard, done)
    ensures Inv(s.(f := f))
  {
    var ids, i := Ids(s.l.list), s.l.idx;
    CommitStore(s.f.index, s.f.copies, s.off.shard, done);
    LiveSplit(s.l.blobs, s.l.start, s.l.start + s.l.count);
    assert IndexOk(s.listed, f.index);
    var p := Position(ids, s.off, s.f.ctx);
    DoneMono(ids, s.base, s.f.shards, s.f.shards, s.f.index, f.index, p, p);
  }

  lemma ReleaseChunks(list: seq<ShardEntry>, shards: map<ShardId, LocalShard>, inUse: set<nat>, i: nat, v: nat)
    requires ShardsOk(list, shards) && ChunksOk(list, shards, inUse, i) && i < |list| && list[i].v == v
    ensures ChunksOk(list, shards, inUse - {v}, i)
  {
    forall s | s in shards && shards[s].open && FindId(Ids(list), s) < i ensures shards[s].v in inUse - {v} {
      assert ShardOk(list, s, shards[s]);
    }
  }

  lemma ReleaseInv(s: Sync)
    requires Inv(s) && s.off.Obj? && s.off.shard != 0 && s.off.batch > 0
    ensures Inv(s.(f := Released(s.f, s.off.shard)))
  {
    var id := s.off.shard;
    if !s.f.shards[id].open {
      FindDistinct(s.l.list, s.l.idx);
      assert ShardOk(s.l.list, id, s.f.shards[id]);
      ReleaseChunks(s.l.list, s.f.shards, s.f.inUse, s.l.idx, s.f.shards[id].v);
    }
  }

  lemma NextShardPos(list: seq<ShardEntry>, i: nat)
    requires DistinctIds(list) && i < |list|
    ensures CursorOk(Ids(list), NextShard(Ids(list), At(list[i].id)))
    ensures CursorPos(Ids(list), NextShard(Ids(list), At(list[i].id))) == i + 1
    ensures NextShard(Ids(list), At(list[i].id)) == if i + 1 < |list| then At(list[i + 1].id) else End
  {
    FindDistinct(list, i);
    if i + 1 < |list| { FindDistinct(list, i + 1); }
  }

  lemma DoneNext(ids: seq<ShardId>, base: map<ShardId, set<BlobId>>, shards: map<ShardId, LocalShard>, index: set<Key>,
                 p: nat)
    requires DoneBefore(ids, base, shards, index, p) && (p < |ids| ==> Done(base, shards, index, ids[p]))
    ensures DoneBefore(ids, base, shards, index, p + 1)
  {
  }

  /** Schedule the cursor write once the shard is complete. */
  lemma PendInv(s: Sync, f: Follower)
    requires Inv(s) && s.off.Obj? && s.off.shard != 0 && s.off.batch > 0 && s.f.pending.NoWrite?
    requires Done(s.base, s.f.shards, s.f.index, s.off.shard)
    requires f == s.f.(pending := Write(NextShard(s.f.ctx.list, s.f.ctx.cursor),
                                        s.f.ctx.cursor == At(s.f.ctx.list[0]), s.f.index))
    ensures Inv(s.(f := f))
  {
    FindDistinct(s.l.list, s.l.idx);
    NextShardPos(s.l.list, s.l.idx);
    DoneNext(Ids(s.l.list), s.base, s.f.shards, s.f.index, s.l.idx);
    if s.l.idx == 0 { assert s.f.ctx.list[0] == s.off.shard; }
  }

  lemma ScheduleInv(s: Sync)
    requires Inv(s) && s.off.Obj? && s.off.shard != 0 && s.off.batch > 0
    requires Done(s.base, s.f.shards, s.f.index, s.off.shard)
    ensures Inv(s.(f := Scheduled(s.f)))
    ensures RecordDue(s.lsn, Scheduled(s.f).record, Scheduled(s.f).pending)
  {
    var next := NextShard(s.f.ctx.list, s.f.ctx.cursor);
    FlushInv(s);
    var s1 := s.(f := Flushed(s.f));
    var g := s1.f.(pending := Write(next, s.f.ctx.cursor == At(s.f.ctx.list[0]), s.f.index));
    PendInv(s1, g);
    FlushInv(s1.(f := g));
  }

  lemma PassChunks(list: seq<ShardEntry>, shards: map<ShardId, LocalShard>, inUse: set<nat>, i: nat)
    requires DistinctIds(list) && i < |list| && ShardsOk(list, shards) && ChunksOk(list, shards, inUse, i)
    requires list[i].id in shards && (shards[list[i].id].open <==> list[i].v in inUse)
    ensures ChunksOk(list, shards, inUse, i + 1)
  {
    FindDistinct(list, i);
    assert ShardOk(list, list[i].id, shards[list[i].id]);
    forall s | s in shards && shards[s].open && FindId(Ids(list), s) < i + 1 ensures shards[s].v in inUse {
      assert ShardOk(list, s, shards[s]);
    }
    forall v | v in inUse ensures OpenIn(shards, v) || ToCome(list, v, i + 1) {
      if !OpenIn(shards, v) {
        var j :| i <= j < |list| && list[j].v == v;
        assert j != i;
      }
    }
  }

  lemma AdvanceInv(s: Sync)
    requires Inv(s) && s.off.Obj? && s.off.shard != 0 && s.off.batch > 0 && s.l.cur == s.off && IsLastBatch(s.l)
    requires Done(s.base, s.f.shards, s.f.index, s.off.shard)
    requires RecordDue(s.lsn, s.f.record, s.f.pending)
    requires !s.f.shards[s.off.shard].open ==> s.f.shards[s.off.shard].v !in s.f.inUse
    ensures Inv(s.(off := OffsetFor(NextShard(s.f.ctx.list, s.f.ctx.cursor))))
  {
    var i := s.l.idx;
    FindDistinct(s.l.list, i);
    NextShardPos(s.l.list, i);
    assert ShardOk(s.l.list, s.off.shard, s.f.shards[s.off.shard]);
    PassChunks(s.l.list, s.f.shards, s.f.inUse, i);
    DoneNext(Ids(s.l.list), s.base, s.f.shards, s.f.index, i);
  }

  lemma ReceivedMore(index: set<Key>, s: ShardId, blobs: seq<BlobEntry>, i: nat, j: nat)
    requires i <= j <= |blobs| && Received(index, s, blobs[..i]) && KeysOf(s, LiveIds(blobs[i..j])) <= index
    ensures Received(index, s, blobs[..j])
  {
    LiveSplit(blobs, i, j);
  }

  lemma NextBatch(s: Sync)
    requires Inv(s) && s.off.Obj? && s.off.shard != 0 && s.off.batch > 0 && s.l.cur == s.off && !IsLastBatch(s.l)
    requires s.f.ctx.batch == s.off.batch && KeysOf(s.off.shard, BatchIds(s.l)) <= s.f.index
    ensures Inv(s.(off := Obj(s.off.shard, s.off.batch + 1)))
  {
    ReceivedMore(s.f.index, s.off.shard, s.l.blobs, s.l.start, s.l.start + s.l.count);
    assert ExpectedNext(s.l) == Obj(s.off.shard, s.off.batch + 1);
  }

  lemma AllReceived(s: Sync)
    requires Inv(s) && s.off.Obj? && s.off.shard != 0 && s.off.batch > 0 && s.l.cur == s.off && IsLastBatch(s.l)
    requires KeysOf(s.off.shard, BatchIds(s.l)) <= s.f.index
    ensures Done(s.base, s.f.shards, s.f.index, s.off.shard)
  {
    ReceivedMore(s.f.index, s.off.shard, s.l.blobs, s.l.start, |s.l.blobs|);
    assert s.l.blobs[..|s.l.blobs|] == s.l.blobs;
    assert KeysOf(s.off.shard, s.base[s.off.shard]) <= KeysOf(s.off.shard, LiveIds(s.l.blobs));
  }

  lemma LastBatch(s: Sync)
    requires Inv(s) && s.off.Obj? && s.off.shard != 0 && s.off.batch > 0 && s.l.cur == s.off && IsLastBatch(s.l)
    requires KeysOf(s.off.shard, BatchIds(s.l)) <= s.f.index
    ensures Inv(s.(f := Scheduled(Released(s.f, s.off.shard))))
    ensures Inv(s.(f := Scheduled(Released(s.f, s.off.shard)),
      off := OffsetFor(NextShard(s.f.ctx.list, s.f.ctx.cursor))))
  {
    AllReceived(s);
    ReleaseInv(s);
    Pass(s.(f := Released(s.f, s.off.shard)));
  }

  /** The shard is complete and its chunk released if it is sealed. */
  lemma Pass(s: Sync)
    requires Inv(s) && s.off.Obj? && s.off.shard != 0 && s.off.batch > 0 && s.l.cur == s.off && IsLastBatch(s.l)
    requires Done(s.base, s.f.shards, s.f.index, s.off.shard)
    requires !s.f.shards[s.off.shard].open ==> s.f.shards[s.off.shard].v !in s.f.inUse
    ensures Inv(s.(f := Scheduled(s.f)))
    ensures Inv(s.(f := Scheduled(s.f), off := OffsetFor(NextShard(s.f.ctx.list, s.f.ctx.cursor))))
  {
    ScheduleInv(s);
    AdvanceInv(s.(f := Scheduled(s.f)));
  }

  lemma BatchInv(s: Sync, out: Outcome, t: (Follower, ObjId))
    requires Inv(s) && s.off.Obj? && s.off.shard != 0 && s.off.batch > 0 && s.l.cur == s.off
    requires t == OnBatch(s.f, s.off, BatchIds(s.l), IsLastBatch(s.l), out)
    ensures Inv(s.(f := t.0)) && Inv(s.(f := t.0, off := t.1))
  {
    var id := s.off.shard;
    var missing := NewBlobs(s.f.index, id, BatchIds(s.l));
    var done := out.written * missing;
    var g := Committed(s.f.(ctx := s.f.ctx.(batch := s.off.batch)), id, done);
    CommitInv(s, done, g);
    if done == missing {
      assert KeysOf(id, BatchIds(s.l)) <= g.index;
      if IsLastBatch(s.l) { LastBatch(s.(f := g)); } else { NextBatch(s.(f := g)); }
    }
  }
}
