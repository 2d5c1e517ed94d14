/** The shard records of a resync, against what the leader's list said of each
    shard when its record was sent. */
module ResyncShards {
  import opened Storage
  import opened ResyncLeader
  import opened ResyncFollower
  import opened ResyncMachine
  import opened ResyncInvariant
  import opened ResyncSteps
  import opened ResyncTheorems

  predicate Listed(list: seq<ShardEntry>, id: ShardId) {
    FindId(Ids(list), id) < |list|
  }

  function EntryOf(list: seq<ShardEntry>, id: ShardId): ShardEntry
    requires Listed(list, id)
  {
    list[FindId(Ids(list), id)]
  }

  /** The follower throws away its copy of the PG: a PG meta message arrives, no
      resync of this snapshot is under way, and the PG can be destroyed. */
  predicate Wipes(s: Sync, e: Step) {
    && LeaderOk(s.l) && e.Exchange? && s.off == PG_META && MoveCursor(s.l, s.off).0 && e.out.destroyed
    && !(s.f.ctx.Ctx? && s.f.ctx.lsn == s.lsn && s.f.ctx.cursor != NoShard)
  }

  /** The record of the shard at `off` arrives and is written. */
  predicate Creates(s: Sync, e: Step) {
    && e.Exchange? && s.off.Obj? && s.off.shard != 0 && s.off.batch == 0 && e.out.selected && e.out.created
    && Listed(s.l.list, s.off.shard)
  }

  /** For each shard the list entry that was sent when its record was first written,
      since the PG was last thrown away. */
  function SentAfter(s: Sync, e: Step, sent: map<ShardId, ShardEntry>): map<ShardId, ShardEntry> {
    if Wipes(s, e) then map[]
    else if Creates(s, e) && s.off.shard !in sent then sent[s.off.shard := EntryOf(s.l.list, s.off.shard)]
    else sent
  }

  function SentBy(run: seq<Step>, s: Sync, sent: map<ShardId, ShardEntry>): map<ShardId, ShardEntry>
    requires IsRun(run, s)
    decreases |run|
  {
    if run == [] then sent else SentBy(run[1..], Next(s, run[0]), SentAfter(s, run[0], sent))
  }

  ghost predicate Registered(shards: map<ShardId, LocalShard>, sent: map<ShardId, ShardEntry>) {
    shards.Keys == sent.Keys
    && forall id :: id in sent ==> id in shards && shards[id] == LocalShard(sent[id].v, sent[id].open)
  }

  /** The entry sent is the one listed now, except that the shard may have been
      sealed since. */
  ghost predicate SentFrom(list: seq<ShardEntry>, sent: map<ShardId, ShardEntry>) {
    forall id :: id in sent ==> Listed(list, id) && Same(sent[id], EntryOf(list, id))
  }

  predicate Same(was: ShardEntry, now: ShardEntry) {
    was == now.(open := was.open) && (now.open ==> was.open)
  }

  ghost predicate RecordsOk(s: Sync, sent: map<ShardId, ShardEntry>) {
    Matching(s.lsn, s.f.ctx) ==> Registered(s.f.shards, sent) && SentFrom(s.l.list, sent)
  }

  // -------------------------------------------------------------- the steps

  lemma PgMetaShards(f: Follower, lsn: nat, ids: seq<ShardId>, out: Outcome)
    ensures var t := OnPgMeta(f, lsn, ids, out).0;
      if out.destroyed && !(f.ctx.Ctx? && f.ctx.lsn == lsn && f.ctx.cursor != NoShard)
      then t.shards == map[] else t == f
  {
  }

  lemma BatchShards(f: Follower, off: ObjId, blobs: set<BlobId>, last: bool, out: Outcome)
    requires f.ctx.Ctx? && f.ctx.cursor.At? && f.ctx.cursor.id in f.shards && off.Obj?
    ensures var t := OnBatch(f, off, blobs, last, out).0;
      t.shards == f.shards && t.ctx.Ctx? && t.ctx.lsn == f.ctx.lsn
  {
  }

  lemma ServedEntry(s: Sync, blobs: seq<BlobEntry>, n: nat)
    requires Inv(s) && CanExchange(s, blobs, n) && s.off.shard != 0
    ensures MoveCursor(s.l, s.off).0 && Listed(s.l.list, s.off.shard)
    ensures var l := Served(s.l, s.off, blobs, n);
      LeaderOk(l) && l.list == s.l.list && l.cur == s.off && l.list[l.idx] == EntryOf(s.l.list, s.off.shard)
    ensures Matching(s.lsn, s.f.ctx)
  {
    Accepted(s);
    ServedOk(s, blobs, n);
    FindDistinct(s.l.list, Served(s.l, s.off, blobs, n).idx);
  }

  /** The record of a listed shard registers it as it is listed, once. */
  lemma CreateRecords(list: seq<ShardEntry>, f: Follower, off: ObjId, out: Outcome, sent: map<ShardId, ShardEntry>)
    requires f.ctx.Ctx? && off.Obj? && Listed(list, off.shard) && off.batch == 0
    requires Registered(f.shards, sent) && SentFrom(list, sent)
    ensures var t := OnShardMeta(f, off, EntryOf(list, off.shard), out).0;
      var now := if out.selected && out.created && off.shard !in sent
        then sent[off.shard := EntryOf(list, off.shard)] else sent;
      Registered(t.shards, now) && SentFrom(list, now) && t.ctx.Ctx? && t.ctx.lsn == f.ctx.lsn
  {
    assert EntryOf(list, off.shard).id == Ids(list)[FindId(Ids(list), off.shard)];
  }

  lemma ShardRecords(s: Sync, blobs: seq<BlobEntry>, n: nat, out: Outcome, lost: bool, t: Sync,
                     sent: map<ShardId, ShardEntry>)
    requires Inv(s) && CanExchange(s, blobs, n) && s.off.shard != 0 && s.off.batch == 0 && RecordsOk(s, sent)
    requires t == Exchanged(s, blobs, n, out, lost)
    ensures RecordsOk(t, SentAfter(s, Exchange(blobs, n, out, lost), sent))
  {
    ServedEntry(s, blobs, n);
    MessagesAreHandled(s);
    CreateRecords(s.l.list, s.f, s.off, out, sent);
  }

  lemma BatchRecords(s: Sync, blobs: seq<BlobEntry>, n: nat, out: Outcome, lost: bool, t: Sync)
    requires Inv(s) && CanExchange(s, blobs, n) && s.off.shard != 0 && s.off.batch != 0
    requires t == Exchanged(s, blobs, n, out, lost)
    ensures t.l.list == s.l.list && t.lsn == s.lsn && t.f.shards == s.f.shards && Matching(s.lsn, s.f.ctx)
  {
    ServedEntry(s, blobs, n);
    MessagesAreHandled(s);
    var l := Served(s.l, s.off, blobs, n);
    BatchShards(s.f, s.off, BatchIds(l), IsLastBatch(l), out);
  }

  lemma MetaRecords(s: Sync, blobs: seq<BlobEntry>, n: nat, out: Outcome, lost: bool, t: Sync,
                    sent: map<ShardId, ShardEntry>)
    requires Inv(s) && CanExchange(s, blobs, n) && s.off.shard == 0 && RecordsOk(s, sent)
    requires t == Exchanged(s, blobs, n, out, lost)
    ensures RecordsOk(t, SentAfter(s, Exchange(blobs, n, out, lost), sent))
  {
    ServedOk(s, blobs, n);
    PgMetaShards(s.f, s.lsn, Ids(s.l.list), out);
  }

  lemma ReadRecords(s: Sync, blobs: seq<BlobEntry>, n: nat, built: bool, t: Sync)
    requires CanRead(s, blobs, n) && t == ReadOnly(s, blobs, n, built)
    ensures t.f == s.f && t.lsn == s.lsn && t.l.list == s.l.list
  {
    ServedOk(s, blobs, n);
    MoveKeepsOk(s.l, s.off);
  }

  lemma SealedSince(a: seq<ShardEntry>, b: seq<ShardEntry>, sent: map<ShardId, ShardEntry>)
    requires SameShards(a, b) && SentFrom(a, sent)
    ensures SentFrom(b, sent)
  {
    SameIdLists(a, b);
    forall id | id in sent ensures Listed(b, id) && Same(sent[id], EntryOf(b, id)) {
      assert Listed(a, id) && Same(sent[id], EntryOf(a, id));
    }
  }

  lemma CrashMatching(s: Sync)
    requires Inv(s) && Matching(s.lsn, Recovered(s.f).ctx)
    ensures Matching(s.lsn, s.f.ctx)
  {
  }

  lemma StepRecords(s: Sync, e: Step, t: Sync, sent: map<ShardId, ShardEntry>)
    requires Inv(s) && Enabled(s, e) && t == Next(s, e) && RecordsOk(s, sent)
    ensures RecordsOk(t, SentAfter(s, e, sent))
  {
    match e
    case Exchange(blobs, n, out, lost) =>
      if s.off.shard == 0 {
        MetaRecords(s, blobs, n, out, lost, t, sent);
      } else if s.off.batch == 0 {
        ShardRecords(s, blobs, n, out, lost, t, sent);
      } else {
        BatchRecords(s, blobs, n, out, lost, t);
      }
    case Unsent(blobs, n, built) => ReadRecords(s, blobs, n, built, t);
    case Rewind =>
    case RestartLeader(list) =>
      if Matching(s.lsn, s.f.ctx) { SealedSince(s.l.list, list, sent); }
    case Checkpoint(_) =>
    case FlushCursor =>
    case Crash =>
      if Matching(s.lsn, t.f.ctx) { CrashMatching(s); }
  }

  lemma {:induction false} RunRecords(run: seq<Step>, s: Sync, sent: map<ShardId, ShardEntry>)
    requires Inv(s) && IsRun(run, s) && RecordsOk(s, sent)
    ensures RecordsOk(RunOf(run, s), SentBy(run, s, sent))
    decreases |run|
  {
    if run != [] {
      var t := Next(s, run[0]);
      StepInv(s, run[0]);
      StepRecords(s, run[0], t, sent);
      RunRecords(run[1..], t, SentAfter(s, run[0], sent));
    }
  }

  // ------------------------------------------------------------ the results

  /** Some shard sent as open has virtual chunk `v`. */
  ghost predicate SentOpen(sent: map<ShardId, ShardEntry>, v: nat) {
    exists id :: id in sent && sent[id].open && sent[id].v == v
  }

  /** In every state of a resync the follower's shard records are exactly the entries
      that were sent, chunk and open flag, and each of them is the leader's entry
      of now, except that the leader may have sealed the shard since. */
  lemma RecordsAsSent(init: Sync, run: seq<Step>)
    requires Init(init) && IsRun(run, init) && Matching(RunOf(run, init).lsn, RunOf(run, init).f.ctx)
    ensures Registered(RunOf(run, init).f.shards, SentBy(run, init, map[]))
    ensures SentFrom(RunOf(run, init).l.list, SentBy(run, init, map[]))
  {
    InitInv(init);
    RunRecords(run, init, map[]);
  }

  lemma OpenAsSent(shards: map<ShardId, LocalShard>, sent: map<ShardId, ShardEntry>, v: nat)
    requires Registered(shards, sent)
    ensures OpenIn(shards, v) <==> SentOpen(sent, v)
  {
    if OpenIn(shards, v) {
      var id :| id in shards && shards[id].open && shards[id].v == v;
      assert id in sent && sent[id].open && sent[id].v == v;
    }
    if SentOpen(sent, v) {
      var id :| id in sent && sent[id].open && sent[id].v == v;
      assert id in shards && shards[id].open && shards[id].v == v;
    }
  }

  /** A finished resync has a record of every listed shard, with the chunk and the
      open flag that were sent for it, and leaves a chunk in use exactly when a shard
      sent for it was open. */
  lemma FinishedShards(init: Sync, run: seq<Step>, i: nat, v: nat)
    requires Init(init) && IsRun(run, init) && RunOf(run, init).off == Last
    ensures var s, sent := RunOf(run, init), SentBy(run, init, map[]);
      && (i < |s.l.list| ==>
            && s.l.list[i].id in sent && s.l.list[i].id in s.f.shards && Same(sent[s.l.list[i].id], s.l.list[i])
            && s.f.shards[s.l.list[i].id] == LocalShard(s.l.list[i].v, sent[s.l.list[i].id].open))
      && (v in s.f.inUse <==> SentOpen(sent, v))
  {
    var s, sent := RunOf(run, init), SentBy(run, init, map[]);
    InitInv(init);
    RunInv(init, run);
    RecordsAsSent(init, run);
    FinishedChunks(init, run, v);
    OpenAsSent(s.f.shards, sent, v);
    if i < |s.l.list| {
      FinishedComplete(init, run);
      FindDistinct(s.l.list, i);
      assert Done(s.base, s.f.shards, s.f.index, s.l.list[i].id);
    }
  }

  // ------------------------------------------------ a leader that stays up

  ghost predicate NoRestart(run: seq<Step>) {
    forall i :: 0 <= i < |run| ==> !run[i].RestartLeader?
  }

  ghost predicate SentIs(list: seq<ShardEntry>, sent: map<ShardId, ShardEntry>) {
    forall id :: id in sent ==> Listed(list, id) && sent[id] == EntryOf(list, id)
  }

  lemma SameList(s: Sync, e: Step)
    requires Inv(s) && Enabled(s, e) && !e.RestartLeader?
    ensures Next(s, e).l.list == s.l.list
  {
    match e
    case Exchange(blobs, n, _, _) => ServedOk(s, blobs, n);
    case Unsent(blobs, n, built) => ReadRecords(s, blobs, n, built, Next(s, e));
    case Rewind =>
    case Checkpoint(_) =>
    case FlushCursor =>
    case Crash =>
  }

  lemma StepSentIs(s: Sync, e: Step, sent: map<ShardId, ShardEntry>)
    requires SentIs(s.l.list, sent)
    ensures SentIs(s.l.list, SentAfter(s, e, sent))
  {
  }

  lemma NoRestartRest(run: seq<Step>)
    requires NoRestart(run) && run != []
    ensures !run[0].RestartLeader? && NoRestart(run[1..])
  {
    assert forall i :: 0 <= i < |run[1..]| ==> run[1..][i] == run[i + 1];
  }

  lemma {:induction false} RunSentIs(run: seq<Step>, s: Sync, sent: map<ShardId, ShardEntry>)
    requires Inv(s) && IsRun(run, s) && NoRestart(run) && SentIs(s.l.list, sent)
    ensures RunOf(run, s).l.list == s.l.list && SentIs(s.l.list, SentBy(run, s, sent))
    decreases |run|
  {
    if run != [] {
      NoRestartRest(run);
      StepInv(s, run[0]);
      SameList(s, run[0]);
      StepSentIs(s, run[0], sent);
      RunSentIs(run[1..], Next(s, run[0]), SentAfter(s, run[0], sent));
    }
  }

  /** Some open shard of the list has virtual chunk `v`. */
  ghost predicate ListedOpen(list: seq<ShardEntry>, v: nat) {
    exists i :: 0 <= i < |list| && list[i].open && list[i].v == v
  }

  /** Without a restart of the leader in between, the finished follower has the
      leader's shards as listed: the same ids, chunks and open flags, and exactly the
      chunks of open shards in use. */
  lemma FinishedAsListed(init: Sync, run: seq<Step>, i: nat, v: nat)
    requires Init(init) && IsRun(run, init) && NoRestart(run) && RunOf(run, init).off == Last
    ensures var s := RunOf(run, init);
      && s.l.list == init.l.list
      && (i < |s.l.list| ==>
            && s.l.list[i].id in s.f.shards
            && s.f.shards[s.l.list[i].id] == LocalShard(s.l.list[i].v, s.l.list[i].open))
      && (v in s.f.inUse <==> ListedOpen(s.l.list, v))
  {
    var s, sent := RunOf(run, init), SentBy(run, init, map[]);
    InitInv(init);
    RunSentIs(run, init, map[]);
    FinishedShards(init, run, i, v);
    RunInv(init, run);
    if i < |s.l.list| { FindDistinct(s.l.list, i); }
    if SentOpen(sent, v) {
      var id :| id in sent && sent[id].open && sent[id].v == v;
      assert s.l.list[FindId(Ids(s.l.list), id)].open;
    }
    if ListedOpen(s.l.list, v) {
      var j :| 0 <= j < |s.l.list| && s.l.list[j].open && s.l.list[j].v == v;
      FinishedShards(init, run, j, v);
      FindDistinct(s.l.list, j);
      assert sent[s.l.list[j].id].open;
    }
  }
}
