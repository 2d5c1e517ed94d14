/** Every step of the replica keeps the invariant. Steps are built from
    elementary updates; each update is checked against one part of the invariant
    at a time. */
module GcSteps {
  import opened Storage
  import opened GcMachine
  import opened GcInvariant

  // ------------------------------------------------------- general lemmas

  lemma FrameProgress(s: Node, t: Node)
    requires Progress(s) && t.tasks == s.tasks && t.recs == s.recs
    requires forall a :: a in s.tasks ==> Frame(ViewOf(s), ViewOf(t), a, s.tasks[a].job)
    requires forall a :: a in s.recs ==> Frame(ViewOf(s), ViewOf(t), a, s.recs[a])
    requires TasksQuiet(t.log, t.shards, t.applied, t.tasks)
    ensures Progress(t)
  {
    forall a | a in t.tasks ensures PhaseOk(ViewOf(t), a, t.tasks[a].job, t.tasks[a].phase) {
      FramePhase(ViewOf(s), ViewOf(t), a, s.tasks[a].job, s.tasks[a].phase);
    }
    forall a | a in t.recs ensures Recorded(ViewOf(t), a, t.recs[a]) {
      FrameRecorded(ViewOf(s), ViewOf(t), a, s.recs[a]);
    }
  }

  lemma JobAt(s: Node, a: Slot)
    requires RecsMatch(s.tasks, s.recs)
    ensures a in s.tasks ==> a in JobsOf(s.tasks, s.recs) && JobsOf(s.tasks, s.recs)[a] == s.tasks[a].job
    ensures a in s.recs ==> a in JobsOf(s.tasks, s.recs) && JobsOf(s.tasks, s.recs)[a] == s.recs[a]
    ensures a in JobsOf(s.tasks, s.recs) ==> HasJob(s, a)
  {
  }

  /** A chunk of slot `a`'s task is home to slot `a` only, and before the record
      only `from` is. */
  lemma HomeUnique(s: Node, a: Slot, b: Slot, c: Chunk)
    requires Ownership(s) && a in JobsOf(s.tasks, s.recs) && Uses(JobsOf(s.tasks, s.recs)[a], c)
    requires InHome(s.slots, s.recs, b, c)
    ensures b == a && (a !in s.recs ==> c == JobsOf(s.tasks, s.recs)[a].from)
  {
    var jobs := JobsOf(s.tasks, s.recs);
    JobAt(s, b);
    assert JobsOwn(s.slots, jobs, s.recs, s.reserved) && JobsAvoidSlots(s.slots, jobs) && JobsDisjoint(jobs);
  }

  // ------------------------------------------------------ appending blocks

  function Appended(s: Node, c: Chunk, blocks: Data): Node { s.(disk := Append(s.disk, c, blocks)) }

  lemma AppendTruthful(disk: Disk, c: Chunk, blocks: Data, pl: map<Key, Data>, index: Index)
    requires Truthful(disk, pl, index)
    ensures Truthful(Append(disk, c, blocks), pl, index)
  {
    forall k | IsLive(index, k) ensures k in pl && Holds(Append(disk, c, blocks), index[k].pba, pl[k]) {
      AppendKeepsHolds(disk, c, blocks, index[k].pba, pl[k]);
    }
  }

  lemma AppendPutsAhead(s: Node, c: Chunk, blocks: Data)
    requires PutsAhead(s.log, s.cpLsn, s.disk, s.slots, s.recs, s.shards)
    ensures PutsAhead(s.log, s.cpLsn, Append(s.disk, c, blocks), s.slots, s.recs, s.shards)
  {
    forall i | s.cpLsn <= i < |s.log| && s.log[i].Put?
      ensures PutReady(Payloads(s.log), s.log[i], Append(s.disk, c, blocks), s.slots, s.recs, s.shards)
    {
      AppendKeepsHolds(s.disk, c, blocks, s.log[i].pba, s.log[i].data);
    }
  }

  lemma AppendFrame(s: Node, c: Chunk, blocks: Data, a: Slot, j: Job)
    ensures Frame(ViewOf(s), ViewOf(Appended(s, c, blocks)), a, j)
  {
    forall p: Pba, d | Uses(j, p.chunk) && Holds(s.disk, p, d) ensures Holds(Append(s.disk, c, blocks), p, d) {
      AppendKeepsHolds(s.disk, c, blocks, p, d);
    }
  }

  lemma AppendInv(s: Node, c: Chunk, blocks: Data)
    requires Inv(s)
    ensures Inv(Appended(s, c, blocks))
  {
    var t := Appended(s, c, blocks);
    AppendTruthful(s.disk, c, blocks, Payloads(s.log), s.index);
    AppendTruthful(s.disk, c, blocks, Payloads(s.log), s.dIndex);
    AppendPutsAhead(s, c, blocks);
    forall a | a in s.tasks ensures Frame(ViewOf(s), ViewOf(t), a, s.tasks[a].job) {
      AppendFrame(s, c, blocks, a, s.tasks[a].job);
    }
    forall a | a in s.recs ensures Frame(ViewOf(s), ViewOf(t), a, s.recs[a]) {
      AppendFrame(s, c, blocks, a, s.recs[a]);
    }
    FrameProgress(s, t);
  }

  // --------------------------------------------------- growing the log

  function Logged(s: Node, op: Op): Node { s.(log := s.log + [op]) }

  lemma {:induction false} LogPrefix(log: seq<Op>, op: Op, n: nat)
    requires n <= |log|
    ensures PutKeys(log + [op], n) == PutKeys(log, n) && Alive(log + [op], n) == Alive(log, n)
  {
    if n > 0 {
      LogPrefix(log, op, n - 1);
      assert (log + [op])[n - 1] == log[n - 1];
    }
  }

  lemma {:induction false} PayloadKeys(log: seq<Op>)
    ensures Payloads(log).Keys == PutKeys(log, |log|)
  {
    if log != [] {
      var rest := log[..|log| - 1];
      assert log == rest + [log[|log| - 1]];
      PayloadKeys(rest);
      LogPrefix(rest, log[|log| - 1], |rest|);
    }
  }

  /** A put under a fresh key, or any other operation, keeps all old payloads. */
  lemma PayloadsGrow(log: seq<Op>, op: Op)
    requires op.Put? ==> op.key !in PutKeys(log, |log|)
    ensures forall k :: k in Payloads(log) ==> k in Payloads(log + [op]) && Payloads(log + [op])[k] == Payloads(log)[k]
    ensures op.Put? ==> op.key in Payloads(log + [op]) && Payloads(log + [op])[op.key] == op.data
  {
    assert (log + [op])[..|log|] == log;
    PayloadKeys(log);
  }

  /** What the proposing step checked about the new operation. */
  ghost predicate Fresh(s: Node, op: Op) {
    match op
    case Put(k, p, d) =>
      && k !in PutKeys(s.log, |s.log|)
      && k.shard in s.shards && !s.shards[k.shard].sealed && s.shards[k.shard].slot !in JobsOf(s.tasks, s.recs)
      && p.chunk == s.shards[k.shard].chunk && Holds(s.disk, p, d)
      && (forall i :: 0 <= i < |s.log| ==> s.log[i] != Seal(k.shard))
    case Del(k) => k in PutKeys(s.log, |s.log|)
    case Create(sh, a, c) => a in s.slots && s.slots[a] == c && a !in JobsOf(s.tasks, s.recs)
    case Seal(sh) => true
  }

  lemma {:induction false} PutKeysMember(log: seq<Op>, i: nat, n: nat)
    requires i < n <= |log| && log[i].Put?
    ensures log[i].key in PutKeys(log, n)
  {
    if i < n - 1 { PutKeysMember(log, i, n - 1); }
  }

  lemma LogGrows(s: Node, op: Op)
    requires LogOk(s.log) && Fresh(s, op)
    ensures LogOk(s.log + [op])
  {
    var log := s.log + [op];
    forall i, j | 0 <= i < j < |log| && log[i].Put? && log[j].Put? ensures log[i].key != log[j].key {
      if j == |s.log| { PutKeysMember(s.log, i, |s.log|); }
    }
    forall i | 0 <= i < |log| && log[i].Del? ensures log[i].key in PutKeys(log, i) {
      LogPrefix(s.log, op, i);
    }
  }

  lemma LogContents(s: Node, op: Op)
    requires Cursors(s) && Contents(s) && Fresh(s, op)
    ensures Contents(Logged(s, op))
  {
    LogPrefix(s.log, op, s.applied);
    LogPrefix(s.log, op, s.cpLsn);
    PayloadsGrow(s.log, op);
  }

  lemma LogPutsAhead(s: Node, op: Op)
    requires PutsAhead(s.log, s.cpLsn, s.disk, s.slots, s.recs, s.shards) && Fresh(s, op)
    requires PlacedShards(s.slots, s.recs, s.shards) && RecsMatch(s.tasks, s.recs)
    ensures PutsAhead(s.log + [op], s.cpLsn, s.disk, s.slots, s.recs, s.shards)
  {
    PayloadsGrow(s.log, op);
    var log := s.log + [op];
    forall i | s.cpLsn <= i < |log| && log[i].Put?
      ensures PutReady(Payloads(log), log[i], s.disk, s.slots, s.recs, s.shards)
    {
      if i == |s.log| {
        JobAt(s, s.shards[op.key.shard].slot);
        assert InHome(s.slots, s.recs, s.shards[op.key.shard].slot, s.shards[op.key.shard].chunk);
      } else {
        assert log[i] == s.log[i];
      }
    }
  }

  lemma LogAhead(s: Node, op: Op)
    requires Ahead(s) && Fresh(s, op) && PlacedShards(s.slots, s.recs, s.shards) && RecsMatch(s.tasks, s.recs)
    ensures Ahead(Logged(s, op))
  {
    LogPutsAhead(s, op);
  }

  lemma LogFrame(s: Node, op: Op, a: Slot, j: Job)
    requires Fresh(s, op) && a in JobsOf(s.tasks, s.recs)
    ensures Frame(ViewOf(s), ViewOf(Logged(s, op)), a, j)
  {
    PayloadsGrow(s.log, op);
  }

  lemma LogInv(s: Node, op: Op)
    requires Inv(s) && Fresh(s, op)
    ensures Inv(Logged(s, op))
  {
    var t := Logged(s, op);
    LogGrows(s, op);
    LogContents(s, op);
    LogAhead(s, op);
    LogProgress(s, op);
  }

  lemma LogProgress(s: Node, op: Op)
    requires Progress(s) && Fresh(s, op) && RecsMatch(s.tasks, s.recs)
    ensures Progress(Logged(s, op))
  {
    var t := Logged(s, op);
    forall a | a in s.tasks
      ensures Frame(ViewOf(s), ViewOf(t), a, s.tasks[a].job) && Quiet(t.log, t.shards, a, t.applied)
    {
      JobAt(s, a);
      LogFrame(s, op, a, s.tasks[a].job);
    }
    forall a | a in s.recs ensures Frame(ViewOf(s), ViewOf(t), a, s.recs[a]) {
      JobAt(s, a);
      LogFrame(s, op, a, s.recs[a]);
    }
    FrameProgress(s, t);
  }

  lemma ProposePutInv(s: Node, k: Key, data: Data)
    requires Inv(s) && CanProposePut(s, k, data)
    ensures Inv(ProposePut(s, k, data))
  {
    var c := s.shards[k.shard].chunk;
    AppendInv(s, c, data);
    AppendHoldsNew(s.disk, c, data);
    JobAt(s, s.shards[k.shard].slot);
    LogInv(Appended(s, c, data), Put(k, NextPba(s.disk, c, |data|), data));
  }

  lemma ProposeDelInv(s: Node, k: Key)
    requires Inv(s) && CanProposeDel(s, k)
    ensures Inv(ProposeDel(s, k))
  {
    LogInv(s, Del(k));
  }

  lemma ProposeCreateInv(s: Node, sh: ShardId, a: Slot, header: Block)
    requires Inv(s) && CanProposeCreate(s, sh, a)
    ensures Inv(ProposeCreate(s, sh, a, header))
  {
    AppendInv(s, s.slots[a], [header]);
    JobAt(s, a);
    LogInv(Appended(s, s.slots[a], [header]), Create(sh, a, s.slots[a]));
  }

  lemma ProposeSealInv(s: Node, sh: ShardId, footer: Block)
    requires Inv(s) && CanProposeSeal(s, sh)
    ensures Inv(ProposeSeal(s, sh, footer))
  {
    AppendInv(s, s.shards[sh].chunk, [footer]);
    LogInv(Appended(s, s.shards[sh].chunk, [footer]), Seal(sh));
  }

  // ------------------------------------------------------- committing

  function Committed(s: Node, index: Index): Node { s.(index := index, applied := s.applied + 1) }

  /** A commit that changes one key of the index: the key's slot has no task, or
      the key is not live afterwards. */
  lemma IndexFrame(s: Node, t: Node, k: Key, a: Slot, j: Job)
    requires t == s.(index := t.index, applied := t.applied)
    requires forall k' :: IsLive(t.index, k') && k' != k ==> IsLive(s.index, k') && t.index[k'] == s.index[k']
    requires IsLive(t.index, k) ==> !InSlot(s.shards, k.shard, a)
    ensures Frame(ViewOf(s), ViewOf(t), a, j)
  {
  }

  /** A put about to be committed belongs to a slot without a task. */
  lemma PutNotUnderGc(s: Node, a: Slot)
    requires CanApply(s) && s.log[s.applied].Put? && Cursors(s) && Progress(s)
    requires a in s.tasks || a in s.recs
    ensures !InSlot(s.shards, s.log[s.applied].key.shard, a)
  {
    if a in s.tasks {
      assert Quiet(s.log, s.shards, a, s.applied);
    } else {
      assert Recorded(ViewOf(s), a, s.recs[a]);
    }
  }

  lemma CommitProgress(s: Node, t: Node, k: Key)
    requires Progress(s) && t == s.(index := t.index, applied := s.applied + 1)
    requires forall k' :: IsLive(t.index, k') && k' != k ==> IsLive(s.index, k') && t.index[k'] == s.index[k']
    requires forall a :: (a in s.tasks || a in s.recs) && IsLive(t.index, k) ==> !InSlot(s.shards, k.shard, a)
    ensures Progress(t)
  {
    forall a | a in s.tasks ensures Frame(ViewOf(s), ViewOf(t), a, s.tasks[a].job) {
      IndexFrame(s, t, k, a, s.tasks[a].job);
    }
    forall a | a in s.recs ensures Frame(ViewOf(s), ViewOf(t), a, s.recs[a]) {
      IndexFrame(s, t, k, a, s.recs[a]);
    }
    FrameProgress(s, t);
  }

  lemma {:induction false} PutKeysFrom(log: seq<Op>, n: nat, k: Key) returns (i: nat)
    requires n <= |log| && k in PutKeys(log, n)
    ensures i < n && log[i].Put? && log[i].key == k
  {
    if log[n - 1].Put? && log[n - 1].key == k { i := n - 1; } else { i := PutKeysFrom(log, n - 1, k); }
  }

  lemma PutKeysAt(log: seq<Op>, n: nat)
    requires UniquePuts(log) && n < |log| && log[n].Put?
    ensures log[n].key !in PutKeys(log, n)
  {
    if log[n].key in PutKeys(log, n) {
      var i := PutKeysFrom(log, n, log[n].key);
    }
  }

  lemma PutImage(log: seq<Op>, n: nat, index: Index)
    requires UniquePuts(log) && n < |log| && log[n].Put? && ImageOf(log, n, index)
    ensures log[n].key !in index && ImageOf(log, n + 1, AddBlob(index, log[n].key, log[n].pba))
  {
    PutKeysAt(log, n);
    assert LiveKeys(AddBlob(index, log[n].key, log[n].pba)) == LiveKeys(index) + {log[n].key};
  }

  lemma DelImage(log: seq<Op>, n: nat, index: Index)
    requires n < |log| && log[n].Del? && ImageOf(log, n, index)
    ensures ImageOf(log, n + 1, DelBlob(index, log[n].key))
  {
    assert LiveKeys(DelBlob(index, log[n].key)) == LiveKeys(index) - {log[n].key};
  }

  lemma PutTruthful(disk: Disk, pl: map<Key, Data>, index: Index, k: Key, p: Pba)
    requires Truthful(disk, pl, index) && k in pl && Holds(disk, p, pl[k])
    ensures Truthful(disk, pl, AddBlob(index, k, p))
  {
  }

  lemma PutContents(s: Node, t: Node, k: Key, p: Pba, d: Data)
    requires CanApply(s) && s.log[s.applied] == Put(k, p, d) && LogOk(s.log) && Cursors(s) && Contents(s) && Ahead(s)
    requires t == s.(index := AddBlob(s.index, k, p), applied := s.applied + 1)
    ensures Contents(t)
  {
    PutImage(s.log, s.applied, s.index);
    assert PutReady(Payloads(s.log), s.log[s.applied], s.disk, s.slots, s.recs, s.shards);
    PutTruthful(s.disk, Payloads(s.log), s.index, k, p);
  }

  lemma PutPlacement(s: Node, t: Node, k: Key, p: Pba, d: Data)
    requires CanApply(s) && s.log[s.applied] == Put(k, p, d) && Cursors(s) && Placement(s) && Ahead(s)
    requires t == s.(index := AddBlob(s.index, k, p), applied := s.applied + 1)
    ensures Placement(t)
  {
    assert PutReady(Payloads(s.log), s.log[s.applied], s.disk, s.slots, s.recs, s.shards);
  }

  lemma PutProgress(s: Node, t: Node, k: Key, p: Pba)
    requires CanApply(s) && s.log[s.applied].Put? && s.log[s.applied].key == k && Cursors(s) && Progress(s)
    requires t == s.(index := AddBlob(s.index, k, p), applied := s.applied + 1)
    ensures Progress(t)
  {
    forall a | a in s.tasks || a in s.recs ensures !InSlot(s.shards, k.shard, a) {
      PutNotUnderGc(s, a);
    }
    CommitProgress(s, t, k);
  }

  lemma PutInv(s: Node, t: Node, k: Key, p: Pba, d: Data)
    requires Inv(s) && CanApply(s) && s.log[s.applied] == Put(k, p, d)
    requires t == s.(index := AddBlob(s.index, k, p), applied := s.applied + 1)
    ensures Inv(t)
  {
    PutContents(s, t, k, p, d);
    PutPlacement(s, t, k, p, d);
    PutProgress(s, t, k, p);
  }

  lemma DelContents(s: Node, t: Node, k: Key)
    requires CanApply(s) && s.log[s.applied] == Del(k) && Contents(s)
    requires t == s.(index := DelBlob(s.index, k), applied := s.applied + 1)
    ensures Contents(t)
  {
    DelImage(s.log, s.applied, s.index);
    DelTruthful(s.disk, Payloads(s.log), s.index, k);
  }

  lemma DelTruthful(disk: Disk, pl: map<Key, Data>, index: Index, k: Key)
    requires Truthful(disk, pl, index)
    ensures Truthful(disk, pl, DelBlob(index, k))
  {
  }

  lemma DelPlaced(slots: map<Slot, Chunk>, recs: map<Slot, Job>, shards: map<ShardId, Shard>, index: Index, k: Key)
    requires PlacedIndex(slots, recs, shards, index)
    ensures PlacedIndex(slots, recs, shards, DelBlob(index, k))
  {
  }

  lemma DelInv(s: Node, t: Node, k: Key)
    requires Inv(s) && CanApply(s) && s.log[s.applied] == Del(k)
    requires t == s.(index := DelBlob(s.index, k), applied := s.applied + 1)
    ensures Inv(t)
  {
    DelContents(s, t, k);
    DelPlaced(s.slots, s.recs, s.shards, s.index, k);
    CommitProgress(s, t, k);
  }

  /** Adding a shard to a slot without a task, or changing a shard's seal flag. */
  lemma ShardFrame(s: Node, t: Node, a: Slot, j: Job)
    requires t == s.(shards := t.shards, dcLsn := t.dcLsn, applied := t.applied)
    requires forall sh :: InSlot(t.shards, sh, a) ==>
      InSlot(s.shards, sh, a) && t.shards[sh].chunk == s.shards[sh].chunk
    ensures Frame(ViewOf(s), ViewOf(t), a, j)
  {
  }

  lemma ShardProgress(s: Node, t: Node)
    requires Progress(s) && t == s.(shards := t.shards, dcLsn := t.dcLsn, applied := s.applied + 1)
    requires forall a, sh :: (a in s.tasks || a in s.recs) && InSlot(t.shards, sh, a) ==>
      InSlot(s.shards, sh, a) && t.shards[sh].chunk == s.shards[sh].chunk
    ensures Progress(t)
  {
    forall a | a in s.tasks ensures Frame(ViewOf(s), ViewOf(t), a, s.tasks[a].job) {
      ShardFrame(s, t, a, s.tasks[a].job);
    }
    forall a | a in s.recs ensures Frame(ViewOf(s), ViewOf(t), a, s.recs[a]) {
      ShardFrame(s, t, a, s.recs[a]);
    }
    FrameProgress(s, t);
  }

  lemma SameContents(s: Node, t: Node)
    requires Contents(s) && t == s.(applied := t.applied, shards := t.shards, dcLsn := t.dcLsn)
    requires CanApply(s) && t.applied == s.applied + 1 && !s.log[s.applied].Put? && !s.log[s.applied].Del?
    ensures Contents(t)
  {
  }

  /** Shards of `old` are in `now`, in the same slot and chunk. */
  ghost predicate ShardsKept(old': map<ShardId, Shard>, now: map<ShardId, Shard>) {
    forall sh :: sh in old' ==> sh in now && now[sh].slot == old'[sh].slot && now[sh].chunk == old'[sh].chunk
  }

  lemma KeptPlaced(slots: map<Slot, Chunk>, recs: map<Slot, Job>, shards: map<ShardId, Shard>, now: map<ShardId, Shard>,
                   index: Index)
    requires ShardsKept(shards, now) && PlacedIndex(slots, recs, shards, index)
    ensures PlacedIndex(slots, recs, now, index)
  {
  }

  lemma KeptPutsAhead(log: seq<Op>, from: nat, disk: Disk, slots: map<Slot, Chunk>, recs: map<Slot, Job>,
                      shards: map<ShardId, Shard>, now: map<ShardId, Shard>)
    requires ShardsKept(shards, now) && PutsAhead(log, from, disk, slots, recs, shards)
    ensures PutsAhead(log, from, disk, slots, recs, now)
  {
    forall i | from <= i < |log| && log[i].Put? ensures PutReady(Payloads(log), log[i], disk, slots, recs, now) {
      assert PutReady(Payloads(log), log[i], disk, slots, recs, shards);
    }
  }

  lemma CreatePlaced(slots: map<Slot, Chunk>, recs: map<Slot, Job>, shards: map<ShardId, Shard>, sh: ShardId, a: Slot,
                     c: Chunk)
    requires PlacedShards(slots, recs, shards) && (sh !in shards ==> InHome(slots, recs, a, c))
    ensures PlacedShards(slots, recs, AddShard(shards, sh, a, c))
  {
  }

  lemma CreatePlacement(s: Node, t: Node, sh: ShardId, a: Slot, c: Chunk)
    requires Placement(s) && t == s.(shards := AddShard(s.shards, sh, a, c), applied := t.applied)
    requires sh !in s.shards ==> InHome(s.slots, s.recs, a, c)
    ensures Placement(t)
  {
    CreatePlaced(s.slots, s.recs, s.shards, sh, a, c);
    KeptPlaced(s.slots, s.recs, s.shards, t.shards, s.index);
    KeptPlaced(s.slots, s.recs, s.shards, t.shards, s.dIndex);
  }

  lemma CreateAhead(s: Node, t: Node, sh: ShardId, a: Slot, c: Chunk)
    requires Ahead(s) && t == s.(shards := AddShard(s.shards, sh, a, c), applied := t.applied)
    ensures Ahead(t)
  {
    KeptPutsAhead(s.log, s.cpLsn, s.disk, s.slots, s.recs, s.shards, t.shards);
  }

  lemma CreateHome(s: Node)
    requires CanApply(s) && s.log[s.applied].Create? && Ahead(s) && Ownership(s)
    requires s.log[s.applied].shard !in s.shards
    ensures InHome(s.slots, s.recs, s.log[s.applied].slot, s.log[s.applied].chunk)
    ensures s.log[s.applied].slot !in s.tasks && s.log[s.applied].slot !in s.recs
  {
    assert CreatesAhead(s.log, s.slots, s.shards, JobsOf(s.tasks, s.recs));
    JobAt(s, s.log[s.applied].slot);
  }

  lemma CreateProgress(s: Node, t: Node, sh: ShardId, a: Slot, c: Chunk)
    requires Progress(s) && t == s.(shards := AddShard(s.shards, sh, a, c), applied := s.applied + 1)
    requires sh !in s.shards ==> a !in s.tasks && a !in s.recs
    ensures Progress(t)
  {
    ShardProgress(s, t);
  }

  lemma CreateInv(s: Node, t: Node, sh: ShardId, a: Slot, c: Chunk)
    requires Inv(s) && CanApply(s) && s.log[s.applied] == Create(sh, a, c)
    requires t == s.(shards := AddShard(s.shards, sh, a, c), applied := s.applied + 1)
    ensures Inv(t)
  {
    if sh !in s.shards { CreateHome(s); }
    SameContents(s, t);
    CreatePlacement(s, t, sh, a, c);
    CreateAhead(s, t, sh, a, c);
    CreateProgress(s, t, sh, a, c);
  }

  lemma SealAhead(s: Node, t: Node, sh: ShardId)
    requires CanApply(s) && s.log[s.applied] == Seal(sh) && Ahead(s) && LogOk(s.log)
    requires t == s.(dcLsn := Max(s.dcLsn, s.applied), shards := SealShard(s.shards, sh), applied := s.applied + 1)
    ensures Ahead(t)
  {
    KeptPutsAhead(s.log, s.cpLsn, s.disk, s.slots, s.recs, s.shards, t.shards);
    SealFlushes(s.log, s.dcLsn, s.shards, s.applied);
    KeptCreatesAhead(s.log, s.slots, s.shards, t.shards, JobsOf(s.tasks, s.recs));
  }

  lemma KeptCreatesAhead(log: seq<Op>, slots: map<Slot, Chunk>, shards: map<ShardId, Shard>, now: map<ShardId, Shard>,
                         jobs: map<Slot, Job>)
    requires ShardsKept(shards, now) && CreatesAhead(log, slots, shards, jobs)
    ensures CreatesAhead(log, slots, now, jobs)
  {
  }

  lemma SealFlushes(log: seq<Op>, dcLsn: nat, shards: map<ShardId, Shard>, n: nat)
    requires SealsLast(log) && SealFlushed(log, dcLsn, shards) && n < |log| && log[n].Seal?
    ensures SealFlushed(log, Max(dcLsn, n), SealShard(shards, log[n].shard))
  {
  }

  lemma SealPlacement(s: Node, t: Node, sh: ShardId)
    requires Placement(s) && t == s.(dcLsn := t.dcLsn, shards := SealShard(s.shards, sh), applied := t.applied)
    ensures Placement(t)
  {
    KeptPlaced(s.slots, s.recs, s.shards, t.shards, s.index);
    KeptPlaced(s.slots, s.recs, s.shards, t.shards, s.dIndex);
  }

  lemma SealProgress(s: Node, t: Node, sh: ShardId)
    requires Progress(s) && t == s.(dcLsn := t.dcLsn, shards := SealShard(s.shards, sh), applied := s.applied + 1)
    ensures Progress(t)
  {
    ShardProgress(s, t);
  }

  lemma SealInv(s: Node, t: Node, sh: ShardId)
    requires Inv(s) && CanApply(s) && s.log[s.applied] == Seal(sh)
    requires t == s.(dcLsn := Max(s.dcLsn, s.applied), shards := SealShard(s.shards, sh), applied := s.applied + 1)
    ensures Inv(t)
  {
    SameContents(s, t);
    SealAhead(s, t, sh);
    SealPlacement(s, t, sh);
    SealProgress(s, t, sh);
  }

  lemma ApplyPutInv(s: Node)
    requires Inv(s) && CanApply(s) && s.log[s.applied].Put?
    ensures Inv(Apply(s))
  {
    var op := s.log[s.applied];
    PutInv(s, Apply(s), op.key, op.pba, op.data);
  }

  lemma ApplyDelInv(s: Node)
    requires Inv(s) && CanApply(s) && s.log[s.applied].Del?
    ensures Inv(Apply(s))
  {
    DelInv(s, Apply(s), s.log[s.applied].key);
  }

  lemma ApplyCreateInv(s: Node)
    requires Inv(s) && CanApply(s) && s.log[s.applied].Create?
    ensures Inv(Apply(s))
  {
    var op := s.log[s.applied];
    CreateInv(s, Apply(s), op.shard, op.slot, op.chunk);
  }

  lemma ApplySealInv(s: Node)
    requires Inv(s) && CanApply(s) && s.log[s.applied].Seal?
    ensures Inv(Apply(s))
  {
    SealInv(s, Apply(s), s.log[s.applied].shard);
  }

  lemma ApplyInv(s: Node)
    requires Inv(s) && CanApply(s)
    ensures Inv(Apply(s))
  {
    var op := s.log[s.applied];
    if op.Put? {
      ApplyPutInv(s);
    } else if op.Del? {
      ApplyDelInv(s);
    } else if op.Create? {
      ApplyCreateInv(s);
    } else {
      ApplySealInv(s);
    }
  }

  // ------------------------------------------- checkpoint, crash, recovery

  lemma CheckpointFrame(s: Node, a: Slot, j: Job)
    requires Cursors(s)
    ensures Frame(ViewOf(s), ViewOf(Checkpoint(s)), a, j)
  {
  }

  lemma CheckpointProgress(s: Node)
    requires Cursors(s) && Progress(s)
    ensures Progress(Checkpoint(s))
  {
    var t := Checkpoint(s);
    forall a | a in s.tasks ensures Frame(ViewOf(s), ViewOf(t), a, s.tasks[a].job) {
      CheckpointFrame(s, a, s.tasks[a].job);
    }
    forall a | a in s.recs ensures Frame(ViewOf(s), ViewOf(t), a, s.recs[a]) {
      CheckpointFrame(s, a, s.recs[a]);
    }
    FrameProgress(s, t);
  }

  lemma CheckpointAhead(s: Node)
    requires Cursors(s) && Ahead(s)
    ensures Ahead(Checkpoint(s))
  {
  }

  lemma CheckpointInv(s: Node)
    requires Inv(s)
    ensures Inv(Checkpoint(s))
  {
    CheckpointProgress(s);
    CheckpointAhead(s);
  }

  lemma CrashOwnership(s: Node)
    requires Ownership(s)
    ensures Ownership(Crash(s))
  {
    var t := Crash(s);
    var jobs := JobsOf(s.tasks, s.recs);
    assert JobsOf(t.tasks, t.recs) == s.recs;
    forall a | a in s.recs ensures a in jobs && jobs[a] == s.recs[a] { JobAt(s, a); }
    assert SlotsDistinct(s.slots);
    CrashJobs(s.slots, jobs, s.recs, s.reserved);
    CrashFree(s);
  }

  lemma CrashJobs(slots: map<Slot, Chunk>, jobs: map<Slot, Job>, recs: map<Slot, Job>, reserved: set<Chunk>)
    requires forall a :: a in recs ==> a in jobs && jobs[a] == recs[a]
    requires JobsOwn(slots, jobs, recs, reserved) && JobsAvoidSlots(slots, jobs) && JobsDisjoint(jobs)
    ensures JobsOwn(slots, recs, recs, reserved) && JobsAvoidSlots(slots, recs) && JobsDisjoint(recs)
  {
  }

  lemma CrashFree(s: Node)
    requires ReservedOk(s.slots, s.recs, s.reserved)
    requires forall a :: a in s.recs ==> a in s.slots && Uses(s.recs[a], s.slots[a])
    ensures FreeOk(s.slots, s.recs, s.reserved, Crash(s).free)
  {
    var t := Crash(s);
    forall c, a | c in t.free && a in s.slots ensures s.slots[a] != c {
      if s.slots[a] == c { assert InRecord(s, c); }
    }
  }

  lemma CrashProgress(s: Node)
    requires Progress(s)
    ensures Progress(Crash(s))
  {
    var t := Crash(s);
    forall a | a in t.recs ensures Recorded(ViewOf(t), a, t.recs[a]) {
      assert Recorded(ViewOf(s), a, s.recs[a]);
    }
  }

  lemma CrashAhead(s: Node)
    requires Ahead(s) && RecsMatch(s.tasks, s.recs)
    ensures Ahead(Crash(s))
  {
    var t := Crash(s);
    forall a | a in JobsOf(t.tasks, t.recs) ensures a in JobsOf(s.tasks, s.recs) { JobAt(s, a); }
  }

  lemma CrashInv(s: Node)
    requires Inv(s)
    ensures Inv(Crash(s))
  {
    CrashOwnership(s);
    CrashProgress(s);
    CrashAhead(s);
  }

  lemma RecoverJobs(s: Node, a: Slot)
    requires CanRecover(s, a)
    ensures JobsOf(Recover(s, a).tasks, s.recs) == JobsOf(s.tasks, s.recs)
  {
    assert JobsOf(Recover(s, a).tasks, s.recs).Keys == JobsOf(s.tasks, s.recs).Keys;
  }

  lemma RecoverProgress(s: Node, a: Slot)
    requires CanRecover(s, a) && Progress(s) && Cursors(s)
    ensures Progress(Recover(s, a))
  {
    var t := Recover(s, a);
    assert ViewOf(t) == ViewOf(s);
    assert Recorded(ViewOf(s), a, s.recs[a]);
    assert PhaseOk(ViewOf(s), a, t.tasks[a].job, t.tasks[a].phase);
    assert Quiet(s.log, s.shards, a, s.applied);
  }

  lemma RecoverRecsMatch(s: Node, a: Slot)
    requires CanRecover(s, a) && RecsMatch(s.tasks, s.recs)
    ensures RecsMatch(Recover(s, a).tasks, s.recs)
  {
  }

  lemma RecoverInv(s: Node, a: Slot)
    requires Inv(s) && CanRecover(s, a)
    ensures Inv(Recover(s, a))
  {
    RecoverJobs(s, a);
    RecoverRecsMatch(s, a);
    RecoverProgress(s, a);
  }

  lemma EndRecoveryInv(s: Node)
    requires Inv(s) && CanEndRecovery(s)
    ensures Inv(EndRecovery(s))
  {
    assert ViewOf(EndRecovery(s)) == ViewOf(s);
  }
}
