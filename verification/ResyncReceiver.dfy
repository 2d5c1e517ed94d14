/** The snapshot receive handler as it updates its fields in place. */
module ResyncReceiver {
  import opened Storage
  import opened ResyncLeader
  import opened ResyncFollower
  import opened ResyncMachine
  import opened ResyncInvariant
  import opened ResyncSteps
  import opened ResyncTheorems

  function Elements(s: seq<BlobId>): set<BlobId> {
    set b | b in s
  }

  ghost predicate NoRepeats(s: seq<BlobId>) {
    forall i, j :: 0 <= i < j < |s| ==> s[i] != s[j]
  }

  lemma CommitOneMore(f: Follower, s: ShardId, done: set<BlobId>, b: BlobId)
    requires b !in done
    ensures Committed(Committed(f, s, done), s, {b}) == Committed(f, s, done + {b})
  {
    assert KeysOf(s, done + {b}) == KeysOf(s, done) + KeysOf(s, {b});
    var one, two := Committed(Committed(f, s, done), s, {b}), Committed(f, s, done + {b});
    assert one.index == two.index;
    assert one.copies == two.copies;
  }

  class SnapshotReceiver {
    var ctx: Ctx
    var shards: map<ShardId, LocalShard>
    var inUse: set<nat>
    var index: set<Key>
    var copies: map<Key, nat>
    var dIndex: set<Key>
    var record: Record
    var pending: Pending

    ghost function View(): Follower reads this {
      Follower(ctx, shards, inUse, index, copies, dIndex, record, pending)
    }

    /** The shard after the cursor, found by scanning the list. */
    method GetNextShard() returns (c: Cursor)
      requires ctx.Ctx?
      ensures c == NextShard(ctx.list, ctx.cursor)
    {
      if ctx.list == [] { return End; }
      if ctx.cursor == NoShard { return At(ctx.list[0]); }
      var i := 0;
      while i < |ctx.list|
        invariant 0 <= i <= |ctx.list|
        invariant forall j :: 0 <= j < i ==> At(ctx.list[j]) != ctx.cursor
      {
        if At(ctx.list[i]) == ctx.cursor {
          FirstFound(ctx.list, ctx.cursor.id, i);
          return if i + 1 < |ctx.list| then At(ctx.list[i + 1]) else End;
        }
        i := i + 1;
      }
      return NoShard;
    }

    /** Wait for the pending cursor write: afterwards the waited cursor is durable, and
        so is every shard before it. */
    method Wait(ghost s: Sync)
      requires Inv(s) && s.f == View() && ctx.Ctx?
      modifies this`dIndex, this`record, this`pending
      ensures Inv(s.(f := View())) && View() == Flushed(old(View())) && pending == NoWrite
      ensures old(pending).Write? ==> CursorDurable(s, View(), old(pending).cursor)
    {
      FlushInv(s);
      FlushDurable(s);
      DoWrite();
    }

    method DoWrite()
      requires ctx.Ctx?
      modifies this`dIndex, this`record, this`pending
      ensures View() == Flushed(old(View()))
    {
      if pending.Write? {
        dIndex := dIndex + pending.index;
        if pending.init {
          record := Record(ctx.lsn, pending.cursor, ctx.lsn, ctx.list);
        } else if record.Record? {
          record := record.(lsn := ctx.lsn, cursor := pending.cursor);
        }
        pending := NoWrite;
      }
    }

    /** Record the next shard once a checkpoint holds everything received so far; the
        end marker is durable when this returns. */
    method UpdateSnpInfo(init: bool, ghost s: Sync)
      requires Inv(s) && s.f == View() && ShardComplete(s)
      requires init == (ctx.list != [] && ctx.cursor == At(ctx.list[0]))
      modifies this`dIndex, this`record, this`pending
      ensures Inv(s.(f := View())) && View() == Scheduled(old(View())) && RecordDue(s.lsn, record, pending)
      ensures NextShard(ctx.list, ctx.cursor) == End ==> CursorDurable(s, View(), End)
    {
      ScheduleInv(s);
      EndDurable(s);
      Schedule(init);
    }

    method Schedule(init: bool)
      requires ctx.Ctx? && ctx.cursor.At? && init == (ctx.list != [] && ctx.cursor == At(ctx.list[0]))
      modifies this`dIndex, this`record, this`pending
      ensures View() == Scheduled(old(View()))
    {
      DoWrite();
      var next := GetNextShard();
      pending := Write(next, init, index);
      if next == End { DoWrite(); }
    }

    /** Receive the shard record: pick its chunk, write it, register it. The answer is
        the first batch exactly when all three succeeded, and the same object otherwise. */
    method ProcessShard(off: ObjId, e: ShardEntry, out: Outcome, ghost s: Sync) returns (next: ObjId)
      requires Inv(s) && s.f == View() && s.off == off && AtShardStart(s) && e == s.l.list[s.l.idx]
      modifies this`inUse, this`shards, this`ctx
      ensures Inv(s.(f := View(), off := next)) && Inv(s.(f := View()))
      ensures (View(), next) == OnShardMeta(old(View()), off, e, out)
      ensures next == (if out.selected && out.created then Obj(e.id, 1) else off)
      ensures inUse == if out.selected then old(inUse) + {e.v} else old(inUse)
      ensures old(shards).Keys <= shards.Keys && forall x :: x in old(shards) ==> shards[x] == old(shards)[x]
      ensures next != off ==> ctx.cursor == At(e.id) && e.id in shards && shards[e.id].v == e.v && e.v in inUse
      ensures next != off && e.id !in old(shards) ==> shards[e.id].open == e.open
      ensures next == off ==> shards == old(shards) && ctx == old(ctx)
    {
      ShardMetaInv(s, out, OnShardMeta(s.f, off, e, out));
      ShardKept(s, e, out);
      next := RegisterShard(off, e, out);
    }

    method RegisterShard(off: ObjId, e: ShardEntry, out: Outcome) returns (next: ObjId)
      requires ctx.Ctx? && off.Obj?
      modifies this`inUse, this`shards, this`ctx
      ensures (View(), next) == OnShardMeta(old(View()), off, e, out)
    {
      if !out.selected { return off; }
      inUse := inUse + {e.v};
      if !out.created { return off; }
      if e.id !in shards {
        shards := shards[e.id := LocalShard(e.v, e.open)];
      }
      ctx := ctx.(cursor := At(e.id), batch := 0);
      return Obj(off.shard, 1);
    }

    /** Store the blobs of the batch not yet indexed. The loop stops at the first new
        blob of `corrupt`, which fails verification, or of `full`, which finds no room;
        the writes of `failed` fail. The commits of `dropped` fail after their write,
        which the batch does not notice. */
    method StoreBlobs(s: ShardId, blobs: seq<BlobId>, corrupt: set<BlobId>, full: set<BlobId>, failed: set<BlobId>,
                      dropped: set<BlobId>)
      returns (ok: bool, done: set<BlobId>)
      requires NoRepeats(blobs)
      modifies this`index, this`copies
      ensures View() == Committed(old(View()), s, done)
      ensures Stored(NewBlobs(old(index), s, Elements(blobs)), corrupt + full + failed, dropped, ok, done)
      ensures done == UpTo(old(index), s, blobs, StopsAt(old(index), s, blobs, corrupt + full), failed, dropped)
    {
      done, ok := {}, true;
      CommitNone(View(), s);
      var i := 0;
      while i < |blobs|
        invariant 0 <= i <= |blobs|
        invariant View() == Committed(old(View()), s, done)
        invariant Stored(NewBlobs(old(index), s, Elements(blobs[..i])), corrupt + full + failed, dropped, ok, done)
        invariant done == UpTo(old(index), s, blobs, i, failed, dropped)
        invariant forall j :: 0 <= j < i ==> !Stops(old(index), s, blobs[j], corrupt + full)
      {
        var b := blobs[i];
        NewSnoc(old(index), s, blobs, i);
        if Key(s, b) !in index {
          if b in corrupt || b in full {
            Unfinished(old(index), s, blobs, i, corrupt + full + failed, dropped, ok, done);
            StopsHere(old(index), s, blobs, corrupt + full, i);
            return false, done;
          } else if b in failed {
            ok := false;
          } else if b !in dropped {
            CommitOneMore(old(View()), s, done, b);
            index := index + KeysOf(s, {b});
            copies := Bumped(copies, KeysOf(s, {b}));
            done := done + {b};
          }
        }
        i := i + 1;
      }
      assert blobs[..|blobs|] == blobs;
      StopsHere(old(index), s, blobs, corrupt + full, i);
    }

    /** Receive a batch. The answer is another object exactly when no new blob is corrupt,
        without room or failing to write. If no commit failed either, every blob of the
        batch is then indexed and the resync goes on as it should. After a last batch
        the shard is complete if and only if no failed commit was of a blob that stays
        live. */
    method ProcessBlobs(off: ObjId, blobs: seq<BlobId>, last: bool, corrupt: set<BlobId>, full: set<BlobId>,
                        failed: set<BlobId>, dropped: set<BlobId>, ghost s: Sync)
      returns (next: ObjId, ghost out: Outcome)
      requires Inv(s) && s.f == View() && s.off == off && AtBatch(s) && NoRepeats(blobs)
      requires Elements(blobs) == BatchIds(s.l) && last == IsLastBatch(s.l)
      modifies this
      ensures (View(), next) == OnBatchDropping(old(View()), off, Elements(blobs), last, out, dropped)
      ensures BatchMeans(s, Elements(blobs), corrupt + full + failed, dropped, View(), next)
    {
      var id := ctx.cursor.id;
      ctx := ctx.(batch := off.batch);
      var ok, done := StoreBlobs(id, blobs, corrupt, full, failed, dropped);
      out := Outcome(true, true, true, if ok then NewBlobs(old(index), id, Elements(blobs)) else done);
      BatchStored(s, Elements(blobs), corrupt + full + failed, dropped, ok, done, out, View());
      if !ok { return off, out; }
      if !last { return Obj(off.shard, off.batch + 1), out; }
      next := FinishShard();
    }

    /** Release the chunk of a sealed shard and record the next shard. */
    method FinishShard() returns (next: ObjId)
      requires ctx.Ctx? && ctx.cursor.At? && ctx.cursor.id in shards
      modifies this`inUse, this`dIndex, this`record, this`pending
      ensures View() == Scheduled(Released(old(View()), ctx.cursor.id))
      ensures next == OffsetFor(NextShard(ctx.list, ctx.cursor))
    {
      var id := ctx.cursor.id;
      if !shards[id].open {
        inUse := inUse - {shards[id].v};
      }
      Schedule(ctx.list != [] && ctx.cursor == At(ctx.list[0]));
      var c := GetNextShard();
      return OffsetFor(c);
    }
  }

  // --------------------------------------------------------- storing a batch

  /** Of the new blobs `missing`, `done` are stored: none of `bad` or `dropped`, and all
      the others when nothing is bad, which is what `ok` says. */
  ghost predicate Stored(missing: set<BlobId>, bad: set<BlobId>, dropped: set<BlobId>, ok: bool, done: set<BlobId>) {
    done <= missing - dropped && done !! bad && (ok <==> missing !! bad) && (ok ==> done == missing - dropped)
  }

  /** The loop ends at a new blob of `stop`. */
  predicate Stops(index: set<Key>, s: ShardId, b: BlobId, stop: set<BlobId>) {
    Key(s, b) !in index && b in stop
  }

  /** Where the loop ends. */
  function StopsAt(index: set<Key>, s: ShardId, blobs: seq<BlobId>, stop: set<BlobId>): (n: nat)
    ensures n <= |blobs|
  {
    if blobs == [] || Stops(index, s, blobs[0], stop) then 0 else 1 + StopsAt(index, s, blobs[1..], stop)
  }

  lemma {:induction false} StopsHere(index: set<Key>, s: ShardId, blobs: seq<BlobId>, stop: set<BlobId>, i: nat)
    requires i <= |blobs| && (forall j :: 0 <= j < i ==> !Stops(index, s, blobs[j], stop))
    requires i < |blobs| ==> Stops(index, s, blobs[i], stop)
    ensures StopsAt(index, s, blobs, stop) == i
  {
    if i > 0 {
      assert forall j :: 0 <= j < i - 1 ==> blobs[1..][j] == blobs[j + 1];
      StopsHere(index, s, blobs[1..], stop, i - 1);
    }
  }

  /** The new blobs among the first `n` whose write and commit succeed. */
  function UpTo(index: set<Key>, s: ShardId, blobs: seq<BlobId>, n: nat, failed: set<BlobId>, dropped: set<BlobId>)
    : set<BlobId>
    requires n <= |blobs|
  {
    NewBlobs(index, s, Elements(blobs[..n])) - failed - dropped
  }

  lemma CommitNone(f: Follower, s: ShardId)
    ensures Committed(f, s, {}) == f
  {
    assert KeysOf(s, {}) == {} && Bumped(f.copies, {}) == f.copies && f.index + {} == f.index;
  }

  lemma NewSnoc(index: set<Key>, s: ShardId, blobs: seq<BlobId>, i: nat)
    requires i < |blobs| && NoRepeats(blobs)
    ensures blobs[i] !in NewBlobs(index, s, Elements(blobs[..i]))
    ensures NewBlobs(index, s, Elements(blobs[..i + 1]))
      == NewBlobs(index, s, Elements(blobs[..i])) + (if Key(s, blobs[i]) in index then {} else {blobs[i]})
  {
    assert blobs[..i + 1] == blobs[..i] + [blobs[i]];
    assert Elements(blobs[..i + 1]) == Elements(blobs[..i]) + {blobs[i]};
  }

  lemma Unfinished(index: set<Key>, s: ShardId, blobs: seq<BlobId>, i: nat, bad: set<BlobId>, dropped: set<BlobId>,
                   ok: bool, done: set<BlobId>)
    requires i < |blobs| && Key(s, blobs[i]) !in index && blobs[i] in bad
    requires Stored(NewBlobs(index, s, Elements(blobs[..i])), bad, dropped, ok, done)
    ensures Stored(NewBlobs(index, s, Elements(blobs)), bad, dropped, false, done)
  {
    assert blobs[i] in NewBlobs(index, s, Elements(blobs));
    assert NewBlobs(index, s, Elements(blobs[..i])) <= NewBlobs(index, s, Elements(blobs));
  }

  /** What a batch with new blobs of `bad` and `dropped` comes to: `f` is the follower
      afterwards and `next` the object it asks for. */
  ghost predicate BatchMeans(s: Sync, blobs: set<BlobId>, bad: set<BlobId>, dropped: set<BlobId>, f: Follower,
                             next: ObjId)
    requires LeaderOk(s.l) && s.off.Obj? && s.off.shard in s.base
  {
    var missing := NewBlobs(s.f.index, s.off.shard, blobs);
    && (next != s.off <==> missing !! bad)
    && (KeysOf(s.off.shard, blobs) <= f.index <==> next != s.off && missing !! dropped)
    && (missing !! dropped ==> Inv(s.(f := f)) && Inv(s.(f := f, off := next)))
    && (next != s.off && IsLastBatch(s.l) ==>
          (Done(s.base, f.shards, f.index, s.off.shard) <==> missing * dropped !! s.base[s.off.shard]))
  }

  lemma IndexedAll(index: set<Key>, id: ShardId, blobs: set<BlobId>, done: set<BlobId>)
    requires done <= NewBlobs(index, id, blobs)
    ensures KeysOf(id, blobs) <= index + KeysOf(id, done) <==> done == NewBlobs(index, id, blobs)
  {
    if KeysOf(id, blobs) <= index + KeysOf(id, done) {
      forall b | b in NewBlobs(index, id, blobs) ensures b in done {
        assert Key(id, b) in KeysOf(id, blobs);
      }
    }
  }

  /** The handler's answer to a batch of which `done` was stored. */
  lemma BatchAnswer(s: Sync, blobs: set<BlobId>, bad: set<BlobId>, dropped: set<BlobId>, ok: bool, done: set<BlobId>,
                    out: Outcome, g: Follower)
    requires Inv(s) && AtBatch(s) && blobs == BatchIds(s.l)
    requires Stored(NewBlobs(s.f.index, s.off.shard, blobs), bad, dropped, ok, done)
    requires out.written == if ok then NewBlobs(s.f.index, s.off.shard, blobs) else done
    requires g == Committed(s.f.(ctx := s.f.ctx.(batch := s.off.batch)), s.off.shard, done)
    ensures OnBatchDropping(s.f, s.off, blobs, IsLastBatch(s.l), out, dropped)
      == if !ok then (g, s.off)
         else if IsLastBatch(s.l)
         then (Scheduled(Released(g, s.off.shard)), OffsetFor(NextShard(g.ctx.list, g.ctx.cursor)))
         else (g, Obj(s.off.shard, s.off.batch + 1))
  {
    var missing := NewBlobs(s.f.index, s.off.shard, blobs);
    assert out.written * missing == out.written && out.written - dropped == done;
    if !ok { assert done != missing; }
  }

  lemma BatchStored(s: Sync, blobs: set<BlobId>, bad: set<BlobId>, dropped: set<BlobId>, ok: bool, done: set<BlobId>,
                    out: Outcome, g: Follower)
    requires Inv(s) && AtBatch(s) && blobs == BatchIds(s.l)
    requires Stored(NewBlobs(s.f.index, s.off.shard, blobs), bad, dropped, ok, done)
    requires out.written == if ok then NewBlobs(s.f.index, s.off.shard, blobs) else done
    requires g == Committed(s.f.(ctx := s.f.ctx.(batch := s.off.batch)), s.off.shard, done)
    ensures s.off.shard in s.base
    ensures var t := OnBatchDropping(s.f, s.off, blobs, IsLastBatch(s.l), out, dropped);
      && BatchMeans(s, blobs, bad, dropped, t.0, t.1)
      && t == if !ok then (g, s.off)
              else if IsLastBatch(s.l)
              then (Scheduled(Released(g, s.off.shard)), OffsetFor(NextShard(g.ctx.list, g.ctx.cursor)))
              else (g, Obj(s.off.shard, s.off.batch + 1))
  {
    var t := OnBatchDropping(s.f, s.off, blobs, IsLastBatch(s.l), out, dropped);
    BatchAnswer(s, blobs, bad, dropped, ok, done, out, g);
    AskedNext(s);
    IndexedAll(s.f.index, s.off.shard, blobs, done);
    if NewBlobs(s.f.index, s.off.shard, blobs) !! dropped {
      DroppingNone(s.f, s.off, blobs, IsLastBatch(s.l), out, dropped);
      BatchInv(s, out, t);
    }
    if ok && IsLastBatch(s.l) { DroppedCommits(s, out, dropped, t); }
  }

  /** The durable records name cursor `c`, and every shard before it is durable. */
  ghost predicate CursorDurable(s: Sync, f: Follower, c: Cursor) {
    && f.record.Record? && f.record.lsn == s.lsn && f.record.cursor == c
    && DoneBefore(Ids(s.l.list), s.base, f.shards, f.dIndex, CursorPos(Ids(s.l.list), c))
  }

  lemma FlushDurable(s: Sync)
    requires Inv(s) && s.f.ctx.Ctx?
    ensures s.f.pending.Write? ==> CursorDurable(s, Flushed(s.f), s.f.pending.cursor)
  {
    FlushInv(s);
  }

  /** The end marker is durable as soon as it is scheduled. */
  lemma EndDurable(s: Sync)
    requires Inv(s) && ShardComplete(s)
    ensures NextShard(s.f.ctx.list, s.f.ctx.cursor) == End ==> CursorDurable(s, Scheduled(s.f), End)
  {
    FlushInv(s);
    var t := s.(f := Flushed(s.f));
    var g := t.f.(pending := Write(NextShard(s.f.ctx.list, s.f.ctx.cursor), s.f.ctx.cursor == At(s.f.ctx.list[0]),
                                   s.f.index));
    PendInv(t, g);
    FlushDurable(t.(f := g));
  }

  ghost predicate AtShardStart(s: Sync) {
    && s.off.Obj? && s.off.shard != 0 && s.off.batch == 0 && s.l.cur == s.off && s.f.ctx.Ctx?
    && 0 <= s.l.idx < |s.l.list|
    && Listing(s.base, s.listed, s.off.shard, s.l.blobs)
  }

  ghost predicate AtBatch(s: Sync) {
    && s.off.Obj? && s.off.shard != 0 && s.off.batch > 0 && s.l.cur == s.off && s.l.start + s.l.count <= |s.l.blobs|
    && s.f.ctx.Ctx? && s.f.ctx.cursor == At(s.off.shard) && s.off.shard in s.f.shards
  }

  ghost predicate ShardComplete(s: Sync) {
    && s.off.Obj? && s.off.shard != 0 && s.off.batch > 0 && s.f.ctx.Ctx? && s.f.ctx.cursor.At?
    && Done(s.base, s.f.shards, s.f.index, s.off.shard)
  }

  lemma ShardKept(s: Sync, e: ShardEntry, out: Outcome)
    requires Inv(s) && AtShardStart(s) && e == s.l.list[s.l.idx]
    ensures var t := OnShardMeta(s.f, s.off, e, out).0;
      && s.off.shard == e.id && s.f.shards.Keys <= t.shards.Keys
      && (forall x :: x in s.f.shards ==> t.shards[x] == s.f.shards[x])
      && (out.selected && out.created ==> e.id in t.shards && t.shards[e.id].v == e.v && e.v in t.inUse)
      && (out.selected && out.created && e.id !in s.f.shards ==> t.shards[e.id].open == e.open)
  {
    FindDistinct(s.l.list, s.l.idx);
    if e.id in s.f.shards { assert ShardOk(s.l.list, e.id, s.f.shards[e.id]); }
  }

  /** After the last batch the follower asks for another object. */
  lemma AskedNext(s: Sync)
    requires Inv(s) && AtBatch(s)
    ensures OffsetFor(NextShard(s.f.ctx.list, s.f.ctx.cursor)) != s.off
  {
    FindDistinct(s.l.list, s.l.idx);
    NextShardPos(s.l.list, s.l.idx);
  }
}
