/** What holds of every resync run. */
module ResyncTheorems {
  import opened Storage
  import opened ResyncLeader
  import opened ResyncFollower
  import opened ResyncMachine
  import opened ResyncInvariant
  import opened ResyncSteps

  /** The follower's checks pass for every message of a run: the object id is valid,
      the context is the snapshot's, and the shard the cursor names exists. */
  lemma MessagesAreHandled(s: Sync)
    requires Inv(s) && s.off.Obj?
    ensures Handles(s.f, s.lsn, s.off) && (s.off.shard != 0 ==> IsValidObjId(s.f.ctx, s.off))
  {
  }

  lemma ExchangeHalves(s: Sync, blobs: seq<BlobEntry>, n: nat, out: Outcome, t: Leader, r: (Follower, ObjId))
    requires Inv(s) && CanExchange(s, blobs, n) && t == Served(s.l, s.off, blobs, n) && Inv(s.(l := t))
    requires s.off.shard != 0 && t.cur == s.off && MoveCursor(s.l, s.off).0
    requires r == OnMessage(s.f, s.lsn, s.off, MessageOf(t, s.off, true), out)
    ensures Inv(s.(l := t, f := r.0)) && Inv(s.(l := t, f := r.0, off := r.1))
  {
    MessagesAreHandled(s);
    if s.off.batch == 0 {
      ShardMetaInv(s.(l := t), out, r);
    } else {
      BatchInv(s.(l := t), out, r);
    }
  }

  lemma ExchangeInv(s: Sync, blobs: seq<BlobEntry>, n: nat, out: Outcome, lost: bool)
    requires Inv(s) && CanExchange(s, blobs, n)
    ensures Inv(Exchanged(s, blobs, n, out, lost))
  {
    ServedInv(s, blobs, n);
    ServedOk(s, blobs, n);
    var t := Served(s.l, s.off, blobs, n);
    var ok := MoveCursor(s.l, s.off).0;
    var r := OnMessage(s.f, s.lsn, s.off, MessageOf(t, s.off, ok), out);
    if s.off.shard != 0 {
      Accepted(s);
      ExchangeHalves(s, blobs, n, out, t, r);
    } else if ok {
      PgMetaInv(s.(l := t), out, r);
    }
  }

  lemma StepInv(s: Sync, e: Step)
    requires Inv(s) && Enabled(s, e)
    ensures Inv(Next(s, e))
  {
    match e
    case Exchange(blobs, n, out, lost) => ExchangeInv(s, blobs, n, out, lost);
    case Unsent(blobs, n, built) => UnsentInv(s, blobs, n, built);
    case Rewind => RewindInv(s);
    case RestartLeader(list) => RestartLeaderInv(s, list);
    case Checkpoint(upTo) => CheckpointInv(s, upTo);
    case FlushCursor => FlushInv(s);
    case Crash => CrashInv(s);
  }

  lemma {:induction false} RunInv(s: Sync, run: seq<Step>)
    requires Inv(s) && IsRun(run, s)
    ensures Inv(RunOf(run, s))
    decreases |run|
  {
    if run != [] {
      StepInv(s, run[0]);
      RunInv(Next(s, run[0]), run[1..]);
    }
  }

  /** Every object the follower asks for is accepted by the leader's cursor, after
      any run with lost messages, failures, crashes and leader restarts. */
  lemma RequestsAccepted(init: Sync, run: seq<Step>, blobs: seq<BlobEntry>, n: nat, out: Outcome, lost: bool)
    requires Init(init) && IsRun(run, init) && CanExchange(RunOf(run, init), blobs, n)
    ensures MoveCursor(Exchanged(RunOf(run, init), blobs, n, out, lost).l,
      Exchanged(RunOf(run, init), blobs, n, out, lost).off).0
  {
    InitInv(init);
    RunInv(init, run);
    var s := RunOf(run, init);
    var t := Exchanged(s, blobs, n, out, lost);
    ExchangeInv(s, blobs, n, out, lost);
    if t.off.Obj? && t.off.shard != 0 {
      Accepted(t);
    } else if t.off.Obj? {
      AsksAgain(s, blobs, n, out, lost);
    }
  }

  /** The PG meta object is asked for again only by a leader that stands there. */
  lemma AsksAgain(s: Sync, blobs: seq<BlobEntry>, n: nat, out: Outcome, lost: bool)
    requires Inv(s) && CanExchange(s, blobs, n) && Exchanged(s, blobs, n, out, lost).off == PG_META
    ensures Exchanged(s, blobs, n, out, lost).l.cur == PG_META
  {
    ServedOk(s, blobs, n);
    if s.off.shard != 0 {
      Accepted(s);
      MessagesAreHandled(s);
      FindDistinct(s.l.list, MoveCursor(s.l, s.off).1.idx);
      NextShardPos(s.l.list, MoveCursor(s.l, s.off).1.idx);
    }
  }

  /** When the follower asks for the end, its index holds every blob that stayed
      live on the leader, nothing the leader never listed, and each blob once. */
  lemma FinishedComplete(init: Sync, run: seq<Step>)
    requires Init(init) && IsRun(run, init) && RunOf(run, init).off == Last
    ensures var s := RunOf(run, init);
      forall i :: 0 <= i < |s.l.list| ==> Done(s.base, s.f.shards, s.f.index, s.l.list[i].id)
    ensures IndexOk(RunOf(run, init).listed, RunOf(run, init).f.index)
    ensures StoredOnce(RunOf(run, init).f.index, RunOf(run, init).f.copies)
  {
    InitInv(init);
    RunInv(init, run);
    var s := RunOf(run, init);
    forall i | 0 <= i < |s.l.list| ensures Done(s.base, s.f.shards, s.f.index, s.l.list[i].id) {
      assert Ids(s.l.list)[i] == s.l.list[i].id;
    }
  }

  /** When the leader's lists never change, the follower ends with exactly them. */
  lemma FinishedExact(init: Sync, run: seq<Step>, k: Key)
    requires Init(init) && IsRun(run, init) && RunOf(run, init).off == Last
    requires RunOf(run, init).base == RunOf(run, init).listed
    requires forall s :: s in RunOf(run, init).listed ==> s in Ids(RunOf(run, init).l.list)
    ensures k in RunOf(run, init).f.index <==>
      k.shard in RunOf(run, init).listed && k.blob in RunOf(run, init).listed[k.shard]
  {
    FinishedComplete(init, run);
    var s := RunOf(run, init);
    if k.shard in s.listed && k.blob in s.listed[k.shard] {
      var i :| 0 <= i < |Ids(s.l.list)| && Ids(s.l.list)[i] == k.shard;
      assert Done(s.base, s.f.shards, s.f.index, s.l.list[i].id);
      assert k in KeysOf(k.shard, s.base[k.shard]);
    }
  }

  /** In every state, the durable cursor has only durably complete shards behind it. */
  lemma DurableCursor(init: Sync, run: seq<Step>, i: nat)
    requires Init(init) && IsRun(run, init)
    requires RunOf(run, init).f.record.Record? && RunOf(run, init).f.record.lsn == RunOf(run, init).lsn
    requires i < CursorPos(Ids(RunOf(run, init).l.list), RunOf(run, init).f.record.cursor)
    requires i < |RunOf(run, init).l.list|
    ensures Done(RunOf(run, init).base, RunOf(run, init).f.shards, RunOf(run, init).f.dIndex,
      RunOf(run, init).l.list[i].id)
  {
    InitInv(init);
    RunInv(init, run);
    assert Ids(RunOf(run, init).l.list)[i] == RunOf(run, init).l.list[i].id;
  }

  /** What a crash leaves of the follower: the shard records, the blobs of the last
      checkpoint, each still stored once, and exactly the chunks of open shards in
      use. */
  lemma CrashLeaves(s: Sync, k: Key, v: nat)
    requires Inv(s)
    ensures var f := Next(s, Crash).f;
      && f.shards == s.f.shards && (k in f.index <==> k in s.f.dIndex) && StoredOnce(f.index, f.copies)
      && (v in f.inUse <==> OpenIn(s.f.shards, v)) && f.pending == NoWrite
  {
    CrashInv(s);
  }

  /** So a crash loses no blob of a shard behind the cursor the restart resumes at. */
  lemma CrashResumes(s: Sync, out: Outcome, t: Follower)
    requires Inv(s) && t == Recovered(s.f) && Matching(s.lsn, t.ctx) && t.ctx.cursor != NoShard
    ensures OnPgMeta(t, s.lsn, Ids(s.l.list), out) == (t, OffsetFor(t.ctx.cursor))
    ensures DoneBefore(Ids(s.l.list), s.base, t.shards, t.index, CursorPos(Ids(s.l.list), t.ctx.cursor))
  {
    CrashInv(s);
  }

  /** A finished resync leaves a chunk in use exactly when it holds an open shard. */
  lemma FinishedChunks(init: Sync, run: seq<Step>, v: nat)
    requires Init(init) && IsRun(run, init) && RunOf(run, init).off == Last
    ensures v in RunOf(run, init).f.inUse <==> OpenIn(RunOf(run, init).f.shards, v)
  {
    InitInv(init);
    RunInv(init, run);
    var s := RunOf(run, init);
    if OpenIn(s.f.shards, v) {
      var id :| id in s.f.shards && s.f.shards[id].open && s.f.shards[id].v == v;
      assert ShardOk(s.l.list, id, s.f.shards[id]);
    }
  }

  // --------------------------------------- a restart without the PG meta

  /** After a reload the cursor names the next shard to receive. The check takes it
      for the current one, so it also accepts the shard after it. */
  lemma ReloadAccepts(r: Record, i: nat, id: ObjId)
    requires r.Record? && r.lsn == r.listLsn && i < |r.list| && r.cursor == At(r.list[i])
    requires forall j :: 0 <= j < |r.list| ==> 0 < r.list[j] < 0xFFFF_FFFF_FFFF
    requires forall j, k :: 0 <= j < |r.list| && 0 <= k < |r.list| && r.list[j] == r.list[k] ==> j == k
    requires id.Obj? && 0 < id.shard < 0xFFFF_FFFF_FFFF
    ensures IsValidObjId(ReloadedCtx(r), id) <==>
      (id.shard == r.list[i] && id.batch <= 1) || (i + 1 < |r.list| && id == Obj(r.list[i + 1], 0))
  {
    FirstFound(r.list, r.list[i], i);
  }

  /** A data message as the leader builds it: the record of the shard, or the first
      batch, which holds every blob that stays live when it is the last. */
  ghost predicate Honest(s: Sync, id: ObjId, msg: Msg) {
    && id.Obj? && FindId(Ids(s.l.list), id.shard) < |s.l.list|
    && if id.batch == 0 then msg == ShardMeta(s.l.list[FindId(Ids(s.l.list), id.shard)])
       else msg.Batch? && id.shard in s.base && (msg.last ==> s.base[id.shard] <= msg.blobs)
  }

  /** Whatever data message the follower accepts first after a crash, instead of the
      PG meta: everything before the object it then asks for is complete if and only
      if the message is for the shard the durable cursor names, or that shard was
      already durably complete when the crash came. */
  lemma DirectRestartSkips(s: Sync, i: nat, id: ObjId, msg: Msg, out: Outcome, t: Follower, r: (Follower, ObjId))
    requires Inv(s) && t == Recovered(s.f) && Matching(s.lsn, t.ctx) && i < |s.l.list|
    requires t.ctx.cursor == At(s.l.list[i].id)
    requires forall j :: 0 <= j < |s.l.list| ==> s.l.list[j].id < 0xFFFF_FFFF_FFFF
    requires Honest(s, id, msg) && IsValidObjId(t.ctx, id) && Handles(t, s.lsn, id)
    requires r == OnMessage(t, s.lsn, id, msg, out)
    ensures DoneBefore(Ids(s.l.list), s.base, r.0.shards, r.0.index, Position(Ids(s.l.list), r.1, r.0.ctx))
      <==> id.shard == s.l.list[i].id || Done(s.base, s.f.shards, s.f.dIndex, s.l.list[i].id)
  {
    FirstObjects(s, i, id, t);
    CrashInv(s);
    if id.shard == s.l.list[i].id {
      if id.batch == 0 { RestartOwnMeta(s, i, id, out, t, r); } else { RestartOwnBatch(s, i, id, msg, out, t, r); }
    } else {
      RestartNextShard(s, i, out, t, r);
    }
  }

  /** The objects accepted first: see `ReloadAccepts`. */
  lemma FirstObjects(s: Sync, i: nat, id: ObjId, t: Follower)
    requires Inv(s) && t == Recovered(s.f) && Matching(s.lsn, t.ctx) && i < |s.l.list|
    requires t.ctx.cursor == At(s.l.list[i].id)
    requires forall j :: 0 <= j < |s.l.list| ==> s.l.list[j].id < 0xFFFF_FFFF_FFFF
    requires id.Obj? && FindId(Ids(s.l.list), id.shard) < |s.l.list| && IsValidObjId(t.ctx, id)
    ensures (id.shard == s.l.list[i].id && id.batch <= 1) || (i + 1 < |s.l.list| && id == Obj(s.l.list[i + 1].id, 0))
  {
    CrashInv(s);
    FindDistinct(s.l.list, i);
    NextShardPos(s.l.list, i);
    assert Ids(s.l.list)[FindId(Ids(s.l.list), id.shard)] == id.shard;
  }

  lemma RestartOwnMeta(s: Sync, i: nat, id: ObjId, out: Outcome, t: Follower, r: (Follower, ObjId))
    requires Inv(s.(f := t, off := PG_META)) && Matching(s.lsn, t.ctx) && i < |s.l.list|
    requires t.ctx.cursor == At(s.l.list[i].id)
    requires id == Obj(s.l.list[i].id, 0) && r == OnShardMeta(t, id, s.l.list[i], out)
    ensures DoneBefore(Ids(s.l.list), s.base, r.0.shards, r.0.index, Position(Ids(s.l.list), r.1, r.0.ctx))
  {
    FindDistinct(s.l.list, i);
    DoneMono(Ids(s.l.list), s.base, t.shards, r.0.shards, t.index, r.0.index, i, i);
  }

  lemma RestartOwnBatch(s: Sync, i: nat, id: ObjId, msg: Msg, out: Outcome, t: Follower, r: (Follower, ObjId))
    requires Inv(s.(f := t, off := PG_META)) && Matching(s.lsn, t.ctx) && i < |s.l.list|
    requires t.ctx.cursor == At(s.l.list[i].id)
    requires id.Obj? && id.shard == s.l.list[i].id && id.shard in t.shards && id.shard in s.base
    requires msg.Batch? && (msg.last ==> s.base[id.shard] <= msg.blobs)
    requires r == OnBatch(t, id, msg.blobs, msg.last, out)
    ensures DoneBefore(Ids(s.l.list), s.base, r.0.shards, r.0.index, Position(Ids(s.l.list), r.1, r.0.ctx))
  {
    var ids := Ids(s.l.list);
    FindDistinct(s.l.list, i);
    NextShardPos(s.l.list, i);
    if i + 1 < |s.l.list| { FindDistinct(s.l.list, i + 1); }
    DoneMono(ids, s.base, t.shards, r.0.shards, t.index, r.0.index, i, i);
    if out.written * NewBlobs(t.index, id.shard, msg.blobs) == NewBlobs(t.index, id.shard, msg.blobs) && msg.last {
      BatchCompletes(t.index, id.shard, s.base[id.shard], msg.blobs);
      assert ids[i] == id.shard && Done(s.base, r.0.shards, r.0.index, id.shard);
      DoneNext(ids, s.base, r.0.shards, r.0.index, i);
    }
  }

  lemma BatchCompletes(index: set<Key>, id: ShardId, base: set<BlobId>, blobs: set<BlobId>)
    requires base <= blobs
    ensures KeysOf(id, base) <= index + KeysOf(id, NewBlobs(index, id, blobs))
  {
  }

  lemma RestartNextShard(s: Sync, i: nat, out: Outcome, t: Follower, r: (Follower, ObjId))
    requires Inv(s.(f := t, off := PG_META)) && Matching(s.lsn, t.ctx) && i + 1 < |s.l.list|
    requires t.ctx.cursor == At(s.l.list[i].id)
    requires t.index == s.f.dIndex && t.shards == s.f.shards
    requires r == OnShardMeta(t, Obj(s.l.list[i + 1].id, 0), s.l.list[i + 1], out)
    ensures DoneBefore(Ids(s.l.list), s.base, r.0.shards, r.0.index, Position(Ids(s.l.list), r.1, r.0.ctx))
      <==> Done(s.base, s.f.shards, s.f.dIndex, s.l.list[i].id)
  {
    var ids := Ids(s.l.list);
    FindDistinct(s.l.list, i);
    FindDistinct(s.l.list, i + 1);
    DoneMono(ids, s.base, t.shards, r.0.shards, t.index, r.0.index, i, i);
    assert ids[i] == s.l.list[i].id != s.l.list[i + 1].id;
    assert Done(s.base, r.0.shards, r.0.index, ids[i]) <==> Done(s.base, s.f.shards, s.f.dIndex, ids[i]);
    if Done(s.base, r.0.shards, r.0.index, ids[i]) { DoneNext(ids, s.base, r.0.shards, r.0.index, i); }
  }

  // ------------------------------------------------ commits that fail

  /** Failed commits of blobs the index has already make no difference. */
  lemma DroppingNone(f: Follower, off: ObjId, blobs: set<BlobId>, last: bool, out: Outcome, dropped: set<BlobId>)
    requires f.ctx.Ctx? && f.ctx.cursor.At? && f.ctx.cursor.id in f.shards && off.Obj?
    requires NewBlobs(f.index, f.ctx.cursor.id, blobs) !! dropped
    ensures OnBatchDropping(f, off, blobs, last, out, dropped) == OnBatch(f, off, blobs, last, out)
  {
    var done := out.written * NewBlobs(f.index, f.ctx.cursor.id, blobs);
    assert done - dropped == done;
  }

  /** The blobs of the batch that the index does not get. */
  function Dropped(index: set<Key>, id: ShardId, blobs: set<BlobId>, dropped: set<BlobId>): set<BlobId> {
    dropped * NewBlobs(index, id, blobs)
  }

  lemma DroppedIndex(index: set<Key>, id: ShardId, base: set<BlobId>, had: set<BlobId>, blobs: set<BlobId>,
                     dropped: set<BlobId>)
    requires base <= had + blobs && KeysOf(id, had) <= index
    ensures KeysOf(id, base) <= index + KeysOf(id, NewBlobs(index, id, blobs) - dropped)
      <==> Dropped(index, id, blobs, dropped) !! base
  {
    var after := index + KeysOf(id, NewBlobs(index, id, blobs) - dropped);
    forall b | b in base ensures Key(id, b) in after <==> b !in Dropped(index, id, blobs, dropped) {
      if b in had { assert Key(id, b) in KeysOf(id, had); }
    }
    if KeysOf(id, base) <= after {
      forall b | b in base ensures b !in Dropped(index, id, blobs, dropped) {
        assert Key(id, b) in KeysOf(id, base);
      }
    }
  }

  /** Every write of a shard's last batch succeeds: the follower goes on to the next
      shard whatever commits fail, and the shard is complete if and only if no
      commit of a blob that stays live failed. */
  lemma DroppedCommits(s: Sync, out: Outcome, dropped: set<BlobId>, t: (Follower, ObjId))
    requires Inv(s) && s.off.Obj? && s.off.shard != 0 && s.off.batch > 0 && s.l.cur == s.off && IsLastBatch(s.l)
    requires NewBlobs(s.f.index, s.off.shard, BatchIds(s.l)) <= out.written
    requires t == OnBatchDropping(s.f, s.off, BatchIds(s.l), true, out, dropped)
    ensures t.1 == OffsetFor(NextShard(s.f.ctx.list, s.f.ctx.cursor))
    ensures Position(Ids(s.l.list), t.1, t.0.ctx) == FindId(Ids(s.l.list), s.off.shard) + 1
    ensures Done(s.base, t.0.shards, t.0.index, s.off.shard) <==>
      Dropped(s.f.index, s.off.shard, BatchIds(s.l), dropped) !! s.base[s.off.shard]
  {
    var id, i := s.off.shard, s.l.idx;
    FindDistinct(s.l.list, i);
    NextShardPos(s.l.list, i);
    if i + 1 < |s.l.list| { FindDistinct(s.l.list, i + 1); }
    var missing := NewBlobs(s.f.index, id, BatchIds(s.l));
    assert out.written * missing == missing;
    LiveParts(s.l);
    DroppedIndex(s.f.index, id, s.base[id], LiveIds(s.l.blobs[..s.l.start]), BatchIds(s.l), dropped);
  }

  lemma LiveParts(l: Leader)
    requires l.start + l.count == |l.blobs|
    ensures LiveIds(l.blobs) == LiveIds(l.blobs[..l.start]) + BatchIds(l)
  {
    LiveSplit(l.blobs, l.start, |l.blobs|);
    assert l.blobs[..|l.blobs|] == l.blobs;
  }
}
