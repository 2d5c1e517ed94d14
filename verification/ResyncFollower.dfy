/** Follower side of baseline resync: the snapshot receive handler and the message
    handler that drives it. */
module ResyncFollower {
  import opened Storage
  import opened ResyncLeader

  /** The shard cursor: unset, a shard, or the end marker. */
  datatype Cursor = NoShard | At(id: ShardId) | End

  /** Snapshot context. Received live, the cursor names the shard being received;
      reloaded, it names the next shard to receive. */
  datatype Ctx = NoCtx | Ctx(lsn: nat, list: seq<ShardId>, cursor: Cursor, batch: nat)

  /** The two durable records: cursor (`lsn`, `cursor`) and shard list (`listLsn`, `list`). */
  datatype Record = NoRecord | Record(lsn: nat, cursor: Cursor, listLsn: nat, list: seq<ShardId>)

  /** A cursor write that waits for a checkpoint covering `index`. */
  datatype Pending = NoWrite | Write(cursor: Cursor, init: bool, index: set<Key>)

  datatype LocalShard = LocalShard(v: nat, open: bool)

  /** `copies[k]` counts the committed allocations of blob `k`; `index` and
      `dIndex` are the keys of the index in memory and in the last checkpoint;
      `inUse` are the virtual chunks in state INUSE. */
  datatype Follower = Follower(ctx: Ctx, shards: map<ShardId, LocalShard>, inUse: set<nat>, index: set<Key>,
                               copies: map<Key, nat>, dIndex: set<Key>, record: Record, pending: Pending)

  datatype Msg = Empty | PgMeta(ids: seq<ShardId>) | ShardMeta(entry: ShardEntry) | Batch(blobs: set<BlobId>,
    last: bool)

  /** What the follower's own I/O does while it handles one message: `destroyed`
      and `created` for the local PG, `selected` and `created` for a shard's block,
      `written` for the blobs whose write succeeds. */
  datatype Outcome = Outcome(destroyed: bool, selected: bool, created: bool, written: set<BlobId>)

  // ------------------------------------------------------------- the cursor

  function NextShard(list: seq<ShardId>, cursor: Cursor): Cursor {
    if list == [] then End
    else match cursor
      case NoShard => At(list[0])
      case End => NoShard
      case At(id) =>
        var i := FindId(list, id);
        if i + 1 < |list| then At(list[i + 1]) else if i < |list| then End else NoShard
  }

  function SeqNum(c: Cursor): nat {
    match c case NoShard => 0 case At(id) => id case End => 0xFFFF_FFFF_FFFF
  }

  function OffsetFor(c: Cursor): ObjId {
    match c case NoShard => PG_META case At(id) => Obj(id, 0) case End => Last
  }

  predicate IsValidObjId(ctx: Ctx, id: ObjId)
    requires id.Obj?
  {
    if ctx.NoCtx? then id.shard == 0
    else
      || id.shard == 0
      || (id.shard == SeqNum(NextShard(ctx.list, ctx.cursor)) && id.batch == 0)
      || (id.shard == SeqNum(ctx.cursor) && (id.batch == 0 || id.batch == ctx.batch || id.batch == ctx.batch + 1))
  }

  // --------------------------------------------------------- message handling

  /** The PG destroyed and a fresh context in place. */
  function Wiped(f: Follower, lsn: nat, ids: seq<ShardId>): Follower {
    Follower(Ctx(lsn, ids, NoShard, 0), map[], {}, {}, map[], {}, NoRecord, NoWrite)
  }

  function OnPgMeta(f: Follower, lsn: nat, ids: seq<ShardId>, out: Outcome): (Follower, ObjId) {
    if f.ctx.Ctx? && f.ctx.lsn == lsn && f.ctx.cursor != NoShard then (f, OffsetFor(f.ctx.cursor))
    else if !out.destroyed then (f, PG_META)
    else if !out.created then (Wiped(f, lsn, ids), PG_META)
    else (Wiped(f, lsn, ids), OffsetFor(NextShard(ids, NoShard)))
  }

  function OnShardMeta(f: Follower, off: ObjId, e: ShardEntry, out: Outcome): (Follower, ObjId)
    requires f.ctx.Ctx? && off.Obj?
  {
    if !out.selected then (f, off)
    else if !out.created then (f.(inUse := f.inUse + {e.v}), off)
    else
      (f.(inUse := f.inUse + {e.v},
          shards := if e.id in f.shards then f.shards else f.shards[e.id := LocalShard(e.v, e.open)],
          ctx := f.ctx.(cursor := At(e.id), batch := 0)),
       Obj(off.shard, 1))
  }

  function KeysOf(s: ShardId, blobs: set<BlobId>): set<Key> {
    set b | b in blobs :: Key(s, b)
  }

  function NewBlobs(index: set<Key>, s: ShardId, blobs: set<BlobId>): set<BlobId> {
    set b | b in blobs && Key(s, b) !in index
  }

  function Bumped(copies: map<Key, nat>, keys: set<Key>): map<Key, nat> {
    map k | k in copies.Keys + keys :: (if k in copies then copies[k] else 0) + (if k in keys then 1 else 0)
  }

  function Committed(f: Follower, s: ShardId, blobs: set<BlobId>): Follower {
    f.(index := f.index + KeysOf(s, blobs), copies := Bumped(f.copies, KeysOf(s, blobs)))
  }

  function RecordAfter(record: Record, ctx: Ctx, p: Pending): Record
    requires ctx.Ctx? && p.Write?
  {
    if p.init then Record(ctx.lsn, p.cursor, ctx.lsn, ctx.list)
    else if record.Record? then record.(lsn := ctx.lsn, cursor := p.cursor)
    else NoRecord
  }

  /** Wait for the checkpoint of the pending cursor write, then do the write. */
  function Flushed(f: Follower): Follower
    requires f.ctx.Ctx?
  {
    if f.pending.NoWrite? then f
    else f.(dIndex := f.dIndex + f.pending.index, record := RecordAfter(f.record, f.ctx, f.pending), pending := NoWrite)
  }

  /** Give the chunk of a sealed shard back. */
  function Released(f: Follower, s: ShardId): Follower
    requires s in f.shards
  {
    if f.shards[s].open then f else f.(inUse := f.inUse - {f.shards[s].v})
  }

  /** Schedule the cursor write for the shard after the current one; the one for the
      end marker is waited for. */
  function Scheduled(f: Follower): Follower
    requires f.ctx.Ctx? && f.ctx.cursor.At?
  {
    var next := NextShard(f.ctx.list, f.ctx.cursor);
    var init := f.ctx.list != [] && f.ctx.cursor == At(f.ctx.list[0]);
    var g := Flushed(f).(pending := Write(next, init, f.index));
    if next.End? then Flushed(g) else g
  }

  function OnBatch(f: Follower, off: ObjId, blobs: set<BlobId>, last: bool, out: Outcome): (Follower, ObjId)
    requires f.ctx.Ctx? && f.ctx.cursor.At? && f.ctx.cursor.id in f.shards && off.Obj?
  {
    var s := f.ctx.cursor.id;
    var missing := NewBlobs(f.index, s, blobs);
    var done := out.written * missing;
    var g := Committed(f.(ctx := f.ctx.(batch := off.batch)), s, done);
    if done != missing then (g, off)
    else if last then (Scheduled(Released(g, s)), OffsetFor(NextShard(f.ctx.list, f.ctx.cursor)))
    else (g, Obj(off.shard, off.batch + 1))
  }

  /** The same when the commit or the index insertion of the blobs of `dropped` fails
      after their write: the continuation returns the error code of the write, which
      is success, so the batch counts as stored. */
  function OnBatchDropping(f: Follower, off: ObjId, blobs: set<BlobId>, last: bool, out: Outcome, dropped: set<BlobId>)
    : (Follower, ObjId)
    requires f.ctx.Ctx? && f.ctx.cursor.At? && f.ctx.cursor.id in f.shards && off.Obj?
  {
    var s := f.ctx.cursor.id;
    var missing := NewBlobs(f.index, s, blobs);
    var done := out.written * missing;
    var g := Committed(f.(ctx := f.ctx.(batch := off.batch)), s, done - dropped);
    if done != missing then (g, off)
    else if last then (Scheduled(Released(g, s)), OffsetFor(NextShard(f.ctx.list, f.ctx.cursor)))
    else (g, Obj(off.shard, off.batch + 1))
  }

  /** The release asserts of the handler: a data message finds its context and the
      shard the cursor names. */
  predicate Handles(f: Follower, lsn: nat, off: ObjId)
    requires off.Obj?
  {
    off.shard != 0 && IsValidObjId(f.ctx, off) ==>
      && f.ctx.Ctx? && f.ctx.lsn == lsn
      && (off.batch != 0 ==> f.ctx.cursor.At? && f.ctx.cursor.id in f.shards)
  }

  /** Handle the message of object `off`; the result names the object to ask for next. */
  function OnMessage(f: Follower, lsn: nat, off: ObjId, msg: Msg, out: Outcome): (Follower, ObjId)
    requires off.Obj? && Handles(f, lsn, off)
  {
    match msg
    case Empty => (f, off)
    case PgMeta(ids) => OnPgMeta(f, lsn, ids, out)
    case ShardMeta(e) =>
      if off.shard == 0 || !IsValidObjId(f.ctx, off) then (f, Resumed(f.ctx)) else OnShardMeta(f, off, e, out)
    case Batch(blobs, last) =>
      if off.shard == 0 || off.batch == 0 || !IsValidObjId(f.ctx, off) then (f, Resumed(f.ctx))
      else OnBatch(f, off, blobs, last, out)
  }

  /** Where to resume when the object is not the expected one. */
  function Resumed(ctx: Ctx): ObjId {
    OffsetFor(if ctx.NoCtx? then NoShard else ctx.cursor)
  }

  // ---------------------------------------------------------------- restart

  function ReloadedCtx(record: Record): Ctx {
    if record.Record? && record.lsn == record.listLsn then Ctx(record.lsn, record.list, record.cursor, 0) else NoCtx
  }

  function OpenChunks(shards: map<ShardId, LocalShard>): set<nat> {
    set s | s in shards && shards[s].open :: shards[s].v
  }

  /** What a crash leaves: superblocks and the last checkpoint; chunks of open
      shards are put back in use. */
  function Recovered(f: Follower): Follower {
    f.(ctx := ReloadedCtx(f.record), inUse := OpenChunks(f.shards), index := f.dIndex,
       copies := map k | k in f.dIndex && k in f.copies :: f.copies[k], pending := NoWrite)
  }
}
