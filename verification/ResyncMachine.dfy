/** Baseline resync as a run of message exchanges, with messages and replies
    lost, I/O failures, checkpoints, follower crashes and leader restarts. */
module ResyncMachine {
  import opened Storage
  import opened ResyncLeader
  import opened ResyncFollower

  /** One resync of the snapshot at `lsn`. Every list of a shard's blobs the leader
      builds holds `base` (the blobs that stay live) and nothing outside `listed`.
      `off` is the object the leader serves next. */
  datatype Sync = Sync(lsn: nat, base: map<ShardId, set<BlobId>>, listed: map<ShardId, set<BlobId>>, l: Leader,
                       off: ObjId, f: Follower)

  datatype Step =
    | Exchange(blobs: seq<BlobEntry>, n: nat, out: Outcome, lost: bool)
    | Unsent(blobs: seq<BlobEntry>, n: nat, built: bool)
    | Rewind
    | RestartLeader(list: seq<ShardEntry>)
    | Checkpoint(upTo: set<Key>)
    | FlushCursor
    | Crash

  /** A list of the shard's blobs the leader's index may give. */
  predicate Listing(base: map<ShardId, set<BlobId>>, listed: map<ShardId, set<BlobId>>, s: ShardId,
                    blobs: seq<BlobEntry>) {
    s in base && s in listed && base[s] <= LiveIds(blobs) <= listed[s]
  }

  /** The iterator at object `off`: a fresh list at a shard's start, `n` entries in
      a batch. */
  predicate CanRead(s: Sync, blobs: seq<BlobEntry>, n: nat) {
    && LeaderOk(s.l) && s.off.Obj?
    && var (ok, t) := MoveCursor(s.l, s.off);
       ok && s.off.shard != 0 ==>
         if s.off.batch == 0 then Listing(s.base, s.listed, s.off.shard, blobs) else t.start + n <= |t.blobs|
  }

  function Served(l: Leader, off: ObjId, blobs: seq<BlobEntry>, n: nat): Leader
    requires LeaderOk(l) && off.Obj?
  {
    var (ok, t) := MoveCursor(l, off);
    if !ok then ResetCursor(l)
    else if off.shard == 0 then t
    else if off.batch == 0 then t.(blobs := blobs)
    else t.(count := n)
  }

  lemma MoveKeepsOk(l: Leader, off: ObjId)
    requires LeaderOk(l) && off.Obj?
    ensures LeaderOk(MoveCursor(l, off).1) && MoveCursor(l, off).1.list == l.list
    ensures MoveCursor(l, off).0 ==> MoveCursor(l, off).1.cur == off
  {
  }

  /** The message for `off`, from the leader after it served it. */
  function MessageOf(l: Leader, off: ObjId, ok: bool): Msg
    requires LeaderOk(l) && off.Obj? && (ok ==> l.cur == off)
  {
    if !ok then Empty
    else if off.shard == 0 then PgMeta(Ids(l.list))
    else if off.batch == 0 then ShardMeta(l.list[l.idx])
    else Batch(BatchIds(l), IsLastBatch(l))
  }

  /** The follower's release asserts hold for the message. */
  predicate CanExchange(s: Sync, blobs: seq<BlobEntry>, n: nat) {
    CanRead(s, blobs, n) && Handles(s.f, s.lsn, s.off)
  }

  lemma ServedOk(s: Sync, blobs: seq<BlobEntry>, n: nat)
    requires CanRead(s, blobs, n)
    ensures LeaderOk(Served(s.l, s.off, blobs, n)) && Served(s.l, s.off, blobs, n).list == s.l.list
    ensures MoveCursor(s.l, s.off).0 ==> Served(s.l, s.off, blobs, n).cur == s.off
  {
    MoveKeepsOk(s.l, s.off);
  }

  predicate SameShards(a: seq<ShardEntry>, b: seq<ShardEntry>) {
    |a| == |b| && forall i :: 0 <= i < |a| ==>
      a[i].id == b[i].id && a[i].v == b[i].v && a[i].lsn == b[i].lsn && (b[i].open ==> a[i].open)
  }

  predicate Enabled(s: Sync, e: Step) {
    match e
    case Exchange(blobs, n, _, _) => CanExchange(s, blobs, n)
    case Unsent(blobs, n, _) => CanRead(s, blobs, n)
    case Rewind => true
    case RestartLeader(list) => SameShards(s.l.list, list)
    case Checkpoint(upTo) => s.f.dIndex <= upTo <= s.f.index
    case FlushCursor => s.f.pending.Write? && s.f.ctx.Ctx? && s.f.pending.index <= s.f.dIndex
    case Crash => true
  }

  function Exchanged(s: Sync, blobs: seq<BlobEntry>, n: nat, out: Outcome, lost: bool): Sync
    requires CanExchange(s, blobs, n)
  {
    ServedOk(s, blobs, n);
    var l := Served(s.l, s.off, blobs, n);
    var (f, next) := OnMessage(s.f, s.lsn, s.off, MessageOf(l, s.off, MoveCursor(s.l, s.off).0), out);
    s.(l := l, f := f, off := if lost then s.off else next)
  }

  /** A message the leader failed to build or send: the cursor has moved, the list
      or the batch may have been built. */
  function ReadOnly(s: Sync, blobs: seq<BlobEntry>, n: nat, built: bool): Sync
    requires CanRead(s, blobs, n)
  {
    s.(l := if built || !MoveCursor(s.l, s.off).0 then Served(s.l, s.off, blobs, n) else MoveCursor(s.l, s.off).1)
  }

  function Next(s: Sync, e: Step): Sync
    requires Enabled(s, e)
  {
    match e
    case Exchange(blobs, n, out, lost) => Exchanged(s, blobs, n, out, lost)
    case Unsent(blobs, n, built) => ReadOnly(s, blobs, n, built)
    case Rewind => s.(off := PG_META)
    case RestartLeader(list) => s.(l := FreshLeader(list), off := PG_META)
    case Checkpoint(upTo) => s.(f := s.f.(dIndex := upTo))
    case FlushCursor => s.(f := Flushed(s.f))
    case Crash => s.(f := Recovered(s.f), off := PG_META)
  }

  predicate IsRun(run: seq<Step>, s: Sync)
    decreases |run|
  {
    run == [] || (Enabled(s, run[0]) && IsRun(run[1..], Next(s, run[0])))
  }

  function RunOf(run: seq<Step>, s: Sync): Sync
    requires IsRun(run, s)
    decreases |run|
  {
    if run == [] then s else RunOf(run[1..], Next(s, run[0]))
  }
}
