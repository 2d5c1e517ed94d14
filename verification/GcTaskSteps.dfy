/** The steps of a GC task keep the invariant. */
module GcTaskSteps {
  import opened Storage
  import opened GcMachine
  import opened GcInvariant
  import opened GcSteps

  // ------------------------------------------------------------ starting

  lemma StartOwned(slots: map<Slot, Chunk>, jobs: map<Slot, Job>, recs: map<Slot, Job>, reserved: set<Chunk>,
                   free: set<Chunk>, a: Slot, to: Chunk, emergent: bool)
    requires Owned(slots, jobs, recs, reserved, free) && a in slots && a !in jobs && a !in recs && to in free
    ensures Owned(slots, jobs[a := Job(slots[a], to, emergent)], recs, reserved, free - {to})
  {
    var now := jobs[a := Job(slots[a], to, emergent)];
    assert JobsOwn(slots, now, recs, reserved);
    assert JobsAvoidSlots(slots, now);
    assert JobsDisjoint(now);
    assert FreeOk(slots, now, reserved, free - {to});
  }

  /** The seal's flush and the replay before GC leave no put behind. */
  lemma StartQuiet(s: Node, a: Slot, to: Chunk, emergent: bool)
    requires CanStart(s, a, to, emergent) && SealFlushed(s.log, s.dcLsn, s.shards)
    ensures Quiet(s.log, s.shards, a, s.applied)
  {
  }

  lemma StartJobs(s: Node, a: Slot, to: Chunk, emergent: bool)
    requires CanStart(s, a, to, emergent)
    ensures JobsOf(Start(s, a, to, emergent).tasks, s.recs)
      == JobsOf(s.tasks, s.recs)[a := Job(s.slots[a], to, emergent)]
  {
    var t := Start(s, a, to, emergent);
    assert JobsOf(t.tasks, s.recs).Keys == JobsOf(s.tasks, s.recs).Keys + {a};
  }

  lemma StartProgress(s: Node, a: Slot, to: Chunk, emergent: bool)
    requires CanStart(s, a, to, emergent) && Progress(s) && Quiet(s.log, s.shards, a, s.applied)
    ensures Progress(Start(s, a, to, emergent))
  {
    assert ViewOf(Start(s, a, to, emergent)) == ViewOf(s);
  }

  lemma StartCreates(s: Node, a: Slot, to: Chunk, emergent: bool)
    requires CanStart(s, a, to, emergent) && CreatesAhead(s.log, s.slots, s.shards, JobsOf(s.tasks, s.recs))
    ensures CreatesAhead(s.log, s.slots, s.shards, JobsOf(s.tasks, s.recs)[a := Job(s.slots[a], to, emergent)])
  {
  }

  lemma StartRecsMatch(s: Node, a: Slot, to: Chunk, emergent: bool)
    requires CanStart(s, a, to, emergent) && RecsMatch(s.tasks, s.recs)
    ensures RecsMatch(Start(s, a, to, emergent).tasks, s.recs)
  {
  }

  lemma StartInv(s: Node, a: Slot, to: Chunk, emergent: bool)
    requires Inv(s) && CanStart(s, a, to, emergent)
    ensures Inv(Start(s, a, to, emergent))
  {
    StartQuiet(s, a, to, emergent);
    StartJobs(s, a, to, emergent);
    JobAt(s, a);
    StartOwned(s.slots, JobsOf(s.tasks, s.recs), s.recs, s.reserved, s.free, a, to, emergent);
    StartRecsMatch(s, a, to, emergent);
    StartCreates(s, a, to, emergent);
    StartProgress(s, a, to, emergent);
  }

  // -------------------------------------------------------------- purging

  /** No slot, shard record or live index entry, in memory or durable, refers to
      `c`, and no record names it. */
  ghost predicate Unreferenced(s: Node, c: Chunk) {
    && (forall a :: a in s.slots ==> s.slots[a] != c)
    && (forall sh :: sh in s.shards ==> s.shards[sh].chunk != c)
    && (forall k :: IsLive(s.index, k) ==> s.index[k].pba.chunk != c)
    && (forall k :: IsLive(s.dIndex, k) ==> s.dIndex[k].pba.chunk != c)
    && (forall a :: a in s.recs ==> !Uses(s.recs[a], c))
  }

  lemma ToUnreferenced(s: Node, a: Slot)
    requires Ownership(s) && Placement(s) && a in s.tasks && a !in s.recs
    ensures Unreferenced(s, s.tasks[a].job.to)
  {
    var c := s.tasks[a].job.to;
    var jobs := JobsOf(s.tasks, s.recs);
    JobAt(s, a);
    assert JobsOwn(s.slots, jobs, s.recs, s.reserved) && JobsAvoidSlots(s.slots, jobs) && JobsDisjoint(jobs);
    forall b | b in s.recs ensures !Uses(s.recs[b], c) { JobAt(s, b); }
    forall sh | sh in s.shards ensures s.shards[sh].chunk != c {
      assert InHome(s.slots, s.recs, s.shards[sh].slot, s.shards[sh].chunk);
      if s.shards[sh].chunk == c { HomeUnique(s, a, s.shards[sh].slot, c); }
    }
    NoEntryIn(s, a, s.index);
    NoEntryIn(s, a, s.dIndex);
  }

  lemma NoEntryIn(s: Node, a: Slot, index: Index)
    requires Ownership(s) && PlacedIndex(s.slots, s.recs, s.shards, index) && a in s.tasks && a !in s.recs
    ensures forall k :: IsLive(index, k) ==> index[k].pba.chunk != s.tasks[a].job.to
  {
    var jobs := JobsOf(s.tasks, s.recs);
    JobAt(s, a);
    assert JobsOwn(s.slots, jobs, s.recs, s.reserved);
    forall k | IsLive(index, k) ensures index[k].pba.chunk != s.tasks[a].job.to {
      if index[k].pba.chunk == s.tasks[a].job.to {
        HomeUnique(s, a, s.shards[k.shard].slot, index[k].pba.chunk);
      }
    }
  }

  function Reset(s: Node, to: Chunk): Node {
    s.(disk := s.disk[to := []], gcIndex := s.gcIndex[to := map[]])
  }

  lemma ResetHolds(disk: Disk, to: Chunk, p: Pba, d: Data)
    requires p.chunk != to && Holds(disk, p, d)
    ensures Holds(disk[to := []], p, d)
  {
  }

  lemma ResetTruthful(disk: Disk, pl: map<Key, Data>, index: Index, to: Chunk)
    requires Truthful(disk, pl, index) && (forall k :: IsLive(index, k) ==> index[k].pba.chunk != to)
    ensures Truthful(disk[to := []], pl, index)
  {
  }

  lemma ResetPutsAhead(s: Node, to: Chunk)
    requires PutsAhead(s.log, s.cpLsn, s.disk, s.slots, s.recs, s.shards)
    requires (forall a :: a in s.slots ==> s.slots[a] != to)
    ensures PutsAhead(s.log, s.cpLsn, s.disk[to := []], s.slots, s.recs, s.shards)
  {
    forall i | s.cpLsn <= i < |s.log| && s.log[i].Put?
      ensures PutReady(Payloads(s.log), s.log[i], s.disk[to := []], s.slots, s.recs, s.shards)
    {
      assert PutReady(Payloads(s.log), s.log[i], s.disk, s.slots, s.recs, s.shards);
    }
  }

  lemma ResetFrame(s: Node, to: Chunk, a: Slot, j: Job)
    requires !Uses(j, to)
    ensures Frame(ViewOf(s), ViewOf(Reset(s, to)), a, j)
  {
    forall p: Pba, d | Uses(j, p.chunk) && Holds(s.disk, p, d) ensures Holds(s.disk[to := []], p, d) {
      ResetHolds(s.disk, to, p, d);
    }
  }

  /** The chunk of one task is none of another slot's. */
  lemma ToApart(s: Node, a: Slot, b: Slot)
    requires Ownership(s) && a in s.tasks && a !in s.recs && b != a && HasJob(s, b)
    ensures !Uses(JobOf(s, b), s.tasks[a].job.to)
  {
    JobAt(s, a);
    JobAt(s, b);
    assert JobsDisjoint(JobsOf(s.tasks, s.recs));
  }

  lemma PurgeFrame(s: Node, v: View, a: Slot, b: Slot)
    requires Ownership(s) && a in s.tasks && a !in s.recs && b != a && HasJob(s, b)
    requires v == ViewOf(Reset(s, s.tasks[a].job.to))
    ensures Frame(ViewOf(s), v, b, JobOf(s, b))
    ensures b in s.tasks ==> JobOf(s, b) == s.tasks[b].job
  {
    ToApart(s, a, b);
    ResetFrame(s, s.tasks[a].job.to, b, JobOf(s, b));
  }

  lemma PurgeTasks(s: Node, v: View, tasks: map<Slot, Task>, a: Slot)
    requires Ownership(s) && TasksOk(ViewOf(s), s.tasks) && a in s.tasks && a !in s.recs
    requires v == ViewOf(Reset(s, s.tasks[a].job.to)) && a in tasks && tasks == s.tasks[a := tasks[a]]
    requires PhaseOk(v, a, tasks[a].job, tasks[a].phase)
    ensures TasksOk(v, tasks)
  {
    forall b | b in tasks ensures PhaseOk(v, b, tasks[b].job, tasks[b].phase) {
      if b != a {
        PurgeFrame(s, v, a, b);
        FramePhase(ViewOf(s), v, b, s.tasks[b].job, s.tasks[b].phase);
      }
    }
  }

  lemma PurgeRecs(s: Node, v: View, a: Slot)
    requires Ownership(s) && RecsOk(ViewOf(s), s.recs) && a in s.tasks && a !in s.recs
    requires v == ViewOf(Reset(s, s.tasks[a].job.to))
    ensures RecsOk(v, s.recs)
  {
    forall b | b in s.recs ensures Recorded(v, b, s.recs[b]) {
      PurgeFrame(s, v, a, b);
      FrameRecorded(ViewOf(s), v, b, s.recs[b]);
    }
  }

  lemma PurgeProgress(s: Node, a: Slot)
    requires CanPurge(s, a) && Progress(s) && Ownership(s) && a !in s.recs
    ensures Progress(Purge(s, a))
  {
    var t := Purge(s, a);
    assert ViewOf(t) == ViewOf(Reset(s, s.tasks[a].job.to));
    PurgeTasks(s, ViewOf(t), t.tasks, a);
    PurgeRecs(s, ViewOf(t), a);
  }

  lemma PurgeContents(s: Node, t: Node, to: Chunk)
    requires Contents(s) && Unreferenced(s, to) && t == Reset(s, to).(tasks := t.tasks)
    ensures Contents(t)
  {
    ResetTruthful(s.disk, Payloads(s.log), s.index, to);
    ResetTruthful(s.disk, Payloads(s.log), s.dIndex, to);
  }

  lemma PurgeInv(s: Node, a: Slot)
    requires Inv(s) && CanPurge(s, a)
    ensures Inv(Purge(s, a))
  {
    var to := s.tasks[a].job.to;
    ToUnreferenced(s, a);
    PurgeContents(s, Purge(s, a), to);
    ResetPutsAhead(s, to);
    PhaseOwnership(s, a, Copying({}, map[]));
    SetPhaseJobs(s, a, Copying({}, map[]));
    PurgeProgress(s, a);
  }

  // -------------------------------------------------------------- copying

  /** Before the record, shards of the slot and shards in `from` are the same. */
  lemma FromShards(s: Node, a: Slot, sh: ShardId)
    requires Ownership(s) && PlacedShards(s.slots, s.recs, s.shards) && a in s.tasks && sh in s.shards
    ensures InChunk(s, sh, s.tasks[a].job.from) ==> s.shards[sh].slot == a
    ensures a !in s.recs && s.shards[sh].slot == a ==> InChunk(s, sh, s.tasks[a].job.from)
  {
    JobAt(s, a);
    assert JobsOwn(s.slots, JobsOf(s.tasks, s.recs), s.recs, s.reserved);
    assert InHome(s.slots, s.recs, s.shards[sh].slot, s.shards[sh].chunk);
    if s.shards[sh].chunk == s.tasks[a].job.from { HomeUnique(s, a, s.shards[sh].slot, s.shards[sh].chunk); }
  }

  /** Before the record, live entries of the slot are in `from`. */
  lemma FromEntries(s: Node, a: Slot, index: Index, k: Key)
    requires Ownership(s) && PlacedIndex(s.slots, s.recs, s.shards, index) && a in s.tasks && a !in s.recs
    requires IsLive(index, k) && InSlot(s.shards, k.shard, a)
    ensures index[k].pba.chunk == s.tasks[a].job.from
  {
    JobAt(s, a);
    assert JobsOwn(s.slots, JobsOf(s.tasks, s.recs), s.recs, s.reserved);
  }

  lemma QueryTruthful(s: Node, a: Slot, sh: ShardId)
    requires Ownership(s) && Placement(s) && Truthful(s.disk, Payloads(s.log), s.index)
    requires CanQuery(s, a, sh) && a !in s.recs
    ensures TruthfulIn(s.disk, Payloads(s.log), LiveOf(s.index, sh), s.tasks[a].job.from)
  {
    FromShards(s, a, sh);
    forall k | IsLive(s.index, k) && k.shard == sh ensures s.index[k].pba.chunk == s.tasks[a].job.from {
      FromEntries(s, a, s.index, k);
    }
  }

  lemma QueryPhase(v: View, a: Slot, j: Job, p: Phase, sh: ShardId)
    requires p.Copying? && PhaseOk(v, a, j, p) && TruthfulIn(v.disk, Payloads(v.log), LiveOf(v.index, sh), j.from)
    ensures PhaseOk(v, a, j, Copying(p.queried + {sh}, p.todo + LiveOf(v.index, sh)))
  {
  }

  lemma QueryInv(s: Node, a: Slot, sh: ShardId, marks: Data)
    requires Inv(s) && CanQuery(s, a, sh)
    ensures Inv(Query(s, a, sh, marks))
  {
    var t := Appended(s, s.tasks[a].job.to, marks);
    var p := s.tasks[a].phase;
    AppendInv(s, s.tasks[a].job.to, marks);
    QueryTruthful(t, a, sh);
    QueryPhase(ViewOf(t), a, t.tasks[a].job, p, sh);
    PhaseInv(t, a, Copying(p.queried + {sh}, p.todo + LiveOf(s.index, sh)));
  }

  function Listed(s: Node, to: Chunk, k: Key, p: Pba): Node {
    s.(gcIndex := s.gcIndex[to := GcOf(s.gcIndex, to)[k := p]])
  }

  lemma ListedFrame(s: Node, to: Chunk, k: Key, p: Pba, b: Slot, j: Job)
    requires j.to != to
    ensures Frame(ViewOf(s), ViewOf(Listed(s, to, k, p)), b, j)
  {
  }

  lemma CopyPhase(s: Node, a: Slot, j: Job, k: Key, p: Pba, ph: Phase)
    requires ph.Copying? && PhaseOk(ViewOf(s), a, j, ph)
    requires p.chunk == j.to && k in Payloads(s.log) && Holds(s.disk, p, Payloads(s.log)[k])
    ensures PhaseOk(ViewOf(Listed(s, j.to, k, p)), a, j, Copying(ph.queried, ph.todo - {k}))
  {
    var v := ViewOf(Listed(s, j.to, k, p));
    assert GcOf(v.gcIndex, j.to) == GcOf(s.gcIndex, j.to)[k := p];
  }

  lemma CopyOthers(s: Node, a: Slot, b: Slot, k: Key, p: Pba)
    requires Progress(s) && Ownership(s) && a in s.tasks && a != b
    ensures b in s.tasks ==>
      PhaseOk(ViewOf(Listed(s, s.tasks[a].job.to, k, p)), b, s.tasks[b].job, s.tasks[b].phase)
    ensures b in s.recs ==> Recorded(ViewOf(Listed(s, s.tasks[a].job.to, k, p)), b, s.recs[b])
  {
    var to := s.tasks[a].job.to;
    var v := ViewOf(Listed(s, to, k, p));
    JobAt(s, a);
    JobAt(s, b);
    assert JobsDisjoint(JobsOf(s.tasks, s.recs));
    if b in s.tasks {
      ListedFrame(s, to, k, p, b, s.tasks[b].job);
      FramePhase(ViewOf(s), v, b, s.tasks[b].job, s.tasks[b].phase);
    }
    if b in s.recs {
      ListedFrame(s, to, k, p, b, s.recs[b]);
      FrameRecorded(ViewOf(s), v, b, s.recs[b]);
    }
  }

  lemma CopyProgress(s: Node, a: Slot, k: Key, p: Pba)
    requires Progress(s) && Ownership(s) && a in s.tasks && s.tasks[a].phase.Copying? && a !in s.recs
    requires p.chunk == s.tasks[a].job.to && k in Payloads(s.log) && Holds(s.disk, p, Payloads(s.log)[k])
    ensures var ph := s.tasks[a].phase;
      Progress(SetPhase(Listed(s, s.tasks[a].job.to, k, p), a, Copying(ph.queried, ph.todo - {k})))
  {
    var j := s.tasks[a].job;
    var ph := s.tasks[a].phase;
    CopyPhase(s, a, j, k, p, ph);
    forall b | b != a
      ensures b in s.tasks ==> PhaseOk(ViewOf(Listed(s, j.to, k, p)), b, s.tasks[b].job, s.tasks[b].phase)
      ensures b in s.recs ==> Recorded(ViewOf(Listed(s, j.to, k, p)), b, s.recs[b])
    {
      CopyOthers(s, a, b, k, p);
    }
    ProgressFrom(s, SetPhase(Listed(s, j.to, k, p), a, Copying(ph.queried, ph.todo - {k})), a);
  }

  /** Progress after a step of slot `a`'s task, from progress of each slot. */
  lemma ProgressFrom(s: Node, t: Node, a: Slot)
    requires Progress(s) && a in s.tasks && a in t.tasks && t.recs == s.recs && a !in s.recs
    requires t.tasks == s.tasks[a := t.tasks[a]]
    requires t.log == s.log && t.shards == s.shards && t.applied == s.applied
    requires PhaseOk(ViewOf(t), a, t.tasks[a].job, t.tasks[a].phase)
    requires forall b :: b != a && b in s.tasks ==> PhaseOk(ViewOf(t), b, s.tasks[b].job, s.tasks[b].phase)
    requires forall b :: b != a && b in s.recs ==> Recorded(ViewOf(t), b, s.recs[b])
    ensures Progress(t)
  {
  }

  lemma ListInv(s: Node, a: Slot, k: Key, p: Pba)
    requires Inv(s) && a in s.tasks && s.tasks[a].phase.Copying?
    requires p.chunk == s.tasks[a].job.to && k in Payloads(s.log) && Holds(s.disk, p, Payloads(s.log)[k])
    ensures var ph := s.tasks[a].phase;
      Inv(SetPhase(Listed(s, s.tasks[a].job.to, k, p), a, Copying(ph.queried, ph.todo - {k})))
  {
    var ph := s.tasks[a].phase;
    CopyProgress(s, a, k, p);
    PhaseOwnership(s, a, Copying(ph.queried, ph.todo - {k}));
    SetPhaseJobs(s, a, Copying(ph.queried, ph.todo - {k}));
  }

  lemma CopyInv(s: Node, a: Slot, k: Key)
    requires Inv(s) && CanCopy(s, a, k)
    ensures Inv(Copy(s, a, k))
  {
    var to := s.tasks[a].job.to;
    var todo := s.tasks[a].phase.todo;
    var data := ReadBlocks(s.disk, todo[k]);
    assert TruthfulIn(s.disk, Payloads(s.log), todo, s.tasks[a].job.from) by {
      assert PhaseOk(ViewOf(s), a, s.tasks[a].job, s.tasks[a].phase);
    }
    assert data == Payloads(s.log)[k];
    AppendInv(s, to, data);
    AppendHoldsNew(s.disk, to, data);
    ListInv(Appended(s, to, data), a, k, NextPba(s.disk, to, |data|));
  }

  lemma EndCopyPhase(s: Node, a: Slot)
    requires Ownership(s) && Placement(s)
    requires CanEndCopy(s, a) && a !in s.recs && PhaseOk(ViewOf(s), a, s.tasks[a].job, s.tasks[a].phase)
    ensures PhaseOk(ViewOf(s), a, s.tasks[a].job, Sweeping)
  {
    forall k | IsLive(s.index, k) && InSlot(s.shards, k.shard, a) ensures k in GcOf(s.gcIndex, s.tasks[a].job.to) {
      FromShards(s, a, k.shard);
    }
  }

  lemma EndCopyInv(s: Node, a: Slot)
    requires Inv(s) && CanEndCopy(s, a)
    ensures Inv(EndCopy(s, a))
  {
    EndCopyPhase(s, a);
    PhaseInv(s, a, Sweeping);
  }

  // ------------------------------------------------- sweeping, failing, recording

  function Dropped(s: Node, k: Key): Node { s.(index := s.index - {k}) }

  lemma DropImage(log: seq<Op>, n: nat, index: Index, k: Key)
    requires ImageOf(log, n, index) && k in index && index[k] == Tombstone
    ensures ImageOf(log, n, index - {k})
  {
    assert LiveKeys(index - {k}) == LiveKeys(index);
  }

  lemma DropProgress(s: Node, k: Key)
    requires Progress(s) && k in s.index && s.index[k] == Tombstone
    ensures Progress(Dropped(s, k))
  {
    var t := Dropped(s, k);
    forall a | a in s.tasks ensures Frame(ViewOf(s), ViewOf(t), a, s.tasks[a].job) {
      IndexFrame(s, t, k, a, s.tasks[a].job);
    }
    forall a | a in s.recs ensures Frame(ViewOf(s), ViewOf(t), a, s.recs[a]) {
      IndexFrame(s, t, k, a, s.recs[a]);
    }
    FrameProgress(s, t);
  }

  /** Removing a tombstone changes nothing a reader or another task can see. */
  lemma DropInv(s: Node, k: Key)
    requires Inv(s) && k in s.index && s.index[k] == Tombstone
    ensures Inv(Dropped(s, k))
  {
    DropImage(s.log, s.applied, s.index, k);
    DropProgress(s, k);
  }

  lemma SweepInv(s: Node, a: Slot, k: Key)
    requires Inv(s) && CanSweep(s, a, k)
    ensures Inv(Sweep(s, a, k))
  {
    DropInv(s, k);
  }

  lemma FlushPhase(s: Node, a: Slot)
    requires CanFlush(s, a) && Progress(s)
    ensures PhaseOk(ViewOf(Checkpoint(s)), a, s.tasks[a].job, Copied)
  {
    assert PhaseOk(ViewOf(s), a, s.tasks[a].job, Sweeping);
    assert Quiet(s.log, s.shards, a, s.applied);
  }

  lemma FlushInv(s: Node, a: Slot)
    requires Inv(s) && CanFlush(s, a)
    ensures Inv(Flush(s, a))
  {
    CheckpointInv(s);
    FlushPhase(s, a);
    PhaseInv(Checkpoint(s), a, Copied);
  }

  lemma FewerJobs(s: Node, a: Slot)
    ensures JobsOf(s.tasks - {a}, s.recs - {a}) == JobsOf(s.tasks, s.recs) - {a}
  {
    assert JobsOf(s.tasks - {a}, s.recs - {a}).Keys == (JobsOf(s.tasks, s.recs) - {a}).Keys;
  }

  /** A job ends and leaves chunk `c`, which no slot has, to the free chunks. */
  lemma EndOwned(slots: map<Slot, Chunk>, jobs: map<Slot, Job>, recs: map<Slot, Job>, reserved: set<Chunk>,
                 free: set<Chunk>, a: Slot, c: Chunk)
    requires Owned(slots, jobs, recs, reserved, free) && a in jobs && Uses(jobs[a], c)
    requires c in reserved && slots[a] != c && slots[a] !in reserved
    ensures Owned(slots, jobs - {a}, recs - {a}, reserved, free)
    ensures Owned(slots, jobs - {a}, recs - {a}, reserved, free + {c})
  {
    var now := jobs - {a};
    assert JobsOwn(slots, now, recs - {a}, reserved);
    assert FreeOk(slots, now, reserved, free + {c});
  }

  lemma FewerRecsMatch(tasks: map<Slot, Task>, recs: map<Slot, Job>, a: Slot)
    requires RecsMatch(tasks, recs)
    ensures RecsMatch(tasks - {a}, recs - {a})
  {
  }

  lemma FailOwned(s: Node, a: Slot)
    requires CanFail(s, a) && Ownership(s)
    ensures Owned(s.slots, JobsOf(s.tasks, s.recs) - {a}, s.recs - {a}, s.reserved, s.free + {s.tasks[a].job.to})
  {
    var jobs := JobsOf(s.tasks, s.recs);
    JobAt(s, a);
    assert JobsOwn(s.slots, jobs, s.recs, s.reserved);
    EndOwned(s.slots, jobs, s.recs, s.reserved, s.free, a, s.tasks[a].job.to);
  }

  lemma FailOwnership(s: Node, a: Slot)
    requires CanFail(s, a) && Ownership(s)
    ensures Ownership(Fail(s, a))
  {
    FailOwned(s, a);
    FewerJobs(s, a);
    FewerRecsMatch(s.tasks, s.recs, a);
    NoRecord(s.tasks, s.recs, a);
  }

  lemma NoRecord(tasks: map<Slot, Task>, recs: map<Slot, Job>, a: Slot)
    requires RecsMatch(tasks, recs) && a in tasks && tasks[a].phase.BeforeRecord()
    ensures a !in recs && recs - {a} == recs
  {
  }

  lemma FailAhead(s: Node, a: Slot)
    requires CanFail(s, a) && Ahead(s) && a !in s.recs
    ensures Ahead(Fail(s, a))
  {
    FewerJobs(s, a);
    assert s.recs - {a} == s.recs;
  }

  lemma FailInv(s: Node, a: Slot)
    requires Inv(s) && CanFail(s, a)
    ensures Inv(Fail(s, a))
  {
    FailOwnership(s, a);
    FailAhead(s, a);
    assert ViewOf(Fail(s, a)) == ViewOf(s);
  }

  lemma RecordJobs(tasks: map<Slot, Task>, recs: map<Slot, Job>, a: Slot, p: Phase)
    requires a in tasks && a !in recs
    ensures JobsOf(tasks[a := Task(tasks[a].job, p)], recs[a := tasks[a].job]) == JobsOf(tasks, recs)
  {
    assert JobsOf(tasks[a := Task(tasks[a].job, p)], recs[a := tasks[a].job]).Keys == JobsOf(tasks, recs).Keys;
  }

  lemma RecordOwned(slots: map<Slot, Chunk>, jobs: map<Slot, Job>, recs: map<Slot, Job>, reserved: set<Chunk>,
                    free: set<Chunk>, a: Slot)
    requires Owned(slots, jobs, recs, reserved, free) && a in jobs && a !in recs
    ensures Owned(slots, jobs, recs[a := jobs[a]], reserved, free)
  {
  }

  lemma RecordRecsMatch(s: Node, a: Slot)
    requires CanRecord(s, a) && RecsMatch(s.tasks, s.recs)
    ensures RecsMatch(Record(s, a).tasks, Record(s, a).recs)
  {
  }

  /** Recording widens the home of the slot from `from` to both chunks. */
  lemma WiderHome(slots: map<Slot, Chunk>, recs: map<Slot, Job>, shards: map<ShardId, Shard>, index: Index, a: Slot,
                  j: Job)
    requires a !in recs && a in slots && Uses(j, slots[a])
    ensures PlacedShards(slots, recs, shards) ==> PlacedShards(slots, recs[a := j], shards)
    ensures PlacedIndex(slots, recs, shards, index) ==> PlacedIndex(slots, recs[a := j], shards, index)
  {
  }

  lemma RecordPlacement(s: Node, a: Slot)
    requires CanRecord(s, a) && Ownership(s) && Placement(s) && a !in s.recs
    ensures Placement(Record(s, a))
  {
    JobAt(s, a);
    assert JobsOwn(s.slots, JobsOf(s.tasks, s.recs), s.recs, s.reserved);
    WiderHome(s.slots, s.recs, s.shards, s.index, a, s.tasks[a].job);
    WiderHome(s.slots, s.recs, s.shards, s.dIndex, a, s.tasks[a].job);
  }

  lemma RecordPutsAhead(s: Node, a: Slot)
    requires CanRecord(s, a) && PutsAhead(s.log, s.cpLsn, s.disk, s.slots, s.recs, s.shards)
    requires Quiet(s.log, s.shards, a, s.cpLsn)
    ensures PutsAhead(s.log, s.cpLsn, s.disk, s.slots, Record(s, a).recs, s.shards)
  {
    forall i | s.cpLsn <= i < |s.log| && s.log[i].Put?
      ensures PutReady(Payloads(s.log), s.log[i], s.disk, s.slots, Record(s, a).recs, s.shards)
    {
      assert PutReady(Payloads(s.log), s.log[i], s.disk, s.slots, s.recs, s.shards);
    }
  }

  lemma RecordAhead(s: Node, a: Slot)
    requires CanRecord(s, a) && Ahead(s) && Progress(s)
    requires JobsOf(Record(s, a).tasks, Record(s, a).recs) == JobsOf(s.tasks, s.recs)
    ensures Ahead(Record(s, a))
  {
    assert PhaseOk(ViewOf(s), a, s.tasks[a].job, Copied);
    RecordPutsAhead(s, a);
  }

  lemma RecordProgress(s: Node, a: Slot)
    requires CanRecord(s, a) && Progress(s)
    ensures Progress(Record(s, a))
  {
    assert ViewOf(Record(s, a)) == ViewOf(s);
    assert PhaseOk(ViewOf(s), a, s.tasks[a].job, Copied);
  }

  lemma RecordOwnership(s: Node, a: Slot)
    requires CanRecord(s, a) && Ownership(s) && a !in s.recs
    ensures Ownership(Record(s, a))
    ensures JobsOf(Record(s, a).tasks, Record(s, a).recs) == JobsOf(s.tasks, s.recs)
  {
    JobAt(s, a);
    RecordJobs(s.tasks, s.recs, a, Record(s, a).tasks[a].phase);
    RecordOwned(s.slots, JobsOf(s.tasks, s.recs), s.recs, s.reserved, s.free, a);
    RecordRecsMatch(s, a);
  }

  lemma RecordInv(s: Node, a: Slot)
    requires Inv(s) && CanRecord(s, a)
    ensures Inv(Record(s, a))
  {
    NoRecord(s.tasks, s.recs, a);
    RecordOwnership(s, a);
    RecordPlacement(s, a);
    RecordAhead(s, a);
    RecordProgress(s, a);
  }

  // -------------------------------------------------- swapping the index

  function Swapped(s: Node, k: Key, p: Pba): Node { s.(index := s.index[k := Live(p)]) }

  lemma SwapImage(log: seq<Op>, n: nat, index: Index, k: Key, p: Pba)
    requires ImageOf(log, n, index) && IsLive(index, k)
    ensures ImageOf(log, n, index[k := Live(p)])
  {
    assert LiveKeys(index[k := Live(p)]) == LiveKeys(index);
  }

  lemma SwapTruthful(disk: Disk, pl: map<Key, Data>, index: Index, k: Key, p: Pba)
    requires Truthful(disk, pl, index) && k in pl && Holds(disk, p, pl[k])
    ensures Truthful(disk, pl, index[k := Live(p)])
  {
  }

  /** What the swap needs of the entry it replaces and of the copy. */
  ghost predicate Swappable(s: Node, a: Slot, k: Key, p: Pba) {
    && a in s.tasks && a in s.recs && s.tasks[a].job == s.recs[a] && s.tasks[a].phase.Swapping?
    && k in s.tasks[a].phase.pending
    && IsLive(s.index, k) && InSlot(s.shards, k.shard, a)
    && p.chunk == s.recs[a].to && k in GcOf(s.gcIndex, s.recs[a].to)
    && k in Payloads(s.log) && Holds(s.disk, p, Payloads(s.log)[k])
  }

  lemma CanReplace(s: Node, a: Slot, k: Key)
    requires Ownership(s) && Placement(s) && Progress(s) && CanSwap(s, a, k)
    requires IsLive(s.index, k) && s.index[k].pba.chunk == s.tasks[a].job.from
    ensures Swappable(s, a, k, s.tasks[a].phase.pending[k])
  {
    JobAt(s, a);
    RecCopies(s, a);
    PendingInTo(ViewOf(s), a, s.tasks[a].job, s.tasks[a].phase.pending, k);
    HomeUnique(s, a, s.shards[k.shard].slot, s.index[k].pba.chunk);
  }

  lemma SwapOwnPhase(v: View, w: View, a: Slot, j: Job, pending: map<Key, Pba>, k: Key, p: Pba)
    requires w == v.(index := v.index[k := Live(p)]) && PhaseOk(v, a, j, Swapping(pending)) && k in pending
    ensures PhaseOk(w, a, j, Swapping(pending))
  {
  }

  lemma SwapOwnRecord(v: View, w: View, a: Slot, j: Job, k: Key, p: Pba)
    requires w == v.(index := v.index[k := Live(p)]) && Recorded(v, a, j) && k in GcOf(v.gcIndex, j.to)
    ensures Recorded(w, a, j)
  {
  }

  lemma SwapProgress(s: Node, a: Slot, k: Key, p: Pba)
    requires Progress(s) && Swappable(s, a, k, p)
    ensures Progress(Swapped(s, k, p))
  {
    var t := Swapped(s, k, p);
    forall b | b in s.tasks ensures PhaseOk(ViewOf(t), b, t.tasks[b].job, t.tasks[b].phase) {
      if b == a {
        SwapOwnPhase(ViewOf(s), ViewOf(t), a, s.tasks[a].job, s.tasks[a].phase.pending, k, p);
      } else {
        IndexFrame(s, t, k, b, s.tasks[b].job);
        FramePhase(ViewOf(s), ViewOf(t), b, s.tasks[b].job, s.tasks[b].phase);
      }
    }
    forall b | b in s.recs ensures Recorded(ViewOf(t), b, t.recs[b]) {
      if b == a {
        SwapOwnRecord(ViewOf(s), ViewOf(t), a, s.recs[a], k, p);
      } else {
        IndexFrame(s, t, k, b, s.recs[b]);
        FrameRecorded(ViewOf(s), ViewOf(t), b, s.recs[b]);
      }
    }
  }

  lemma SwapPlacement(s: Node, a: Slot, k: Key, p: Pba)
    requires Placement(s) && Swappable(s, a, k, p)
    ensures Placement(Swapped(s, k, p))
  {
  }

  lemma SwapContents(s: Node, k: Key, p: Pba)
    requires Contents(s) && IsLive(s.index, k) && k in Payloads(s.log) && Holds(s.disk, p, Payloads(s.log)[k])
    ensures Contents(Swapped(s, k, p))
  {
    SwapImage(s.log, s.applied, s.index, k, p);
    SwapTruthful(s.disk, Payloads(s.log), s.index, k, p);
  }

  lemma ReplaceInv(s: Node, a: Slot, k: Key, p: Pba)
    requires Inv(s) && Swappable(s, a, k, p)
    ensures Inv(Swapped(s, k, p))
  {
    SwapContents(s, k, p);
    SwapPlacement(s, a, k, p);
    SwapProgress(s, a, k, p);
  }

  lemma FilterReplaceInv(s: Node, a: Slot, k: Key)
    requires Inv(s) && CanSwap(s, a, k) && IsLive(s.index, k) && s.index[k].pba.chunk == s.tasks[a].job.from
    ensures Inv(Swapped(s, k, s.tasks[a].phase.pending[k]))
  {
    CanReplace(s, a, k);
    ReplaceInv(s, a, k, s.tasks[a].phase.pending[k]);
  }

  /** The index after the filter decided, whichever way. */
  lemma FilterInv(s: Node, a: Slot, k: Key)
    requires Inv(s) && CanSwap(s, a, k)
    ensures Inv(s.(index := SwapEntry(s.index, k, s.tasks[a].job.from, s.tasks[a].phase.pending[k])))
  {
    var t := s.(index := SwapEntry(s.index, k, s.tasks[a].job.from, s.tasks[a].phase.pending[k]));
    if k in s.index && s.index[k] == Tombstone {
      DropInv(s, k);
      assert t == Dropped(s, k);
    } else if k in s.index && s.index[k].pba.chunk == s.tasks[a].job.from {
      FilterReplaceInv(s, a, k);
      assert t == Swapped(s, k, s.tasks[a].phase.pending[k]);
    } else {
      assert t == s;
    }
  }

  lemma SwapPhase(v: View, a: Slot, j: Job, pending: map<Key, Pba>, k: Key)
    requires PhaseOk(v, a, j, Swapping(pending)) && (IsLive(v.index, k) ==> v.index[k].pba.chunk != j.from)
    ensures PhaseOk(v, a, j, Swapping(pending - {k}))
  {
  }

  lemma PendingInTo(v: View, a: Slot, j: Job, pending: map<Key, Pba>, k: Key)
    requires PhaseOk(v, a, j, Swapping(pending)) && CopiesTrue(v, j) && k in pending
    ensures pending[k].chunk == j.to && k in GcOf(v.gcIndex, j.to)
    ensures k in Payloads(v.log) && Holds(v.disk, pending[k], Payloads(v.log)[k])
  {
  }

  lemma EntryMoved(index: Index, k: Key, from: Chunk, p: Pba)
    requires p.chunk != from
    ensures IsLive(SwapEntry(index, k, from, p), k) ==> SwapEntry(index, k, from, p)[k].pba.chunk != from
  {
  }

  lemma RecCopies(s: Node, a: Slot)
    requires RecsMatch(s.tasks, s.recs) && Progress(s) && a in s.tasks && s.tasks[a].phase.Swapping?
    ensures a in s.recs && s.recs[a] == s.tasks[a].job && CopiesTrue(ViewOf(s), s.tasks[a].job)
    ensures PhaseOk(ViewOf(s), a, s.tasks[a].job, Swapping(s.tasks[a].phase.pending))
  {
    assert Recorded(ViewOf(s), a, s.recs[a]);
  }

  lemma SwapDone(s: Node, a: Slot, k: Key)
    requires Ownership(s) && Progress(s) && CanSwap(s, a, k)
    ensures var t := SwapEntry(s.index, k, s.tasks[a].job.from, s.tasks[a].phase.pending[k]);
      IsLive(t, k) ==> t[k].pba.chunk != s.tasks[a].job.from
  {
    JobAt(s, a);
    RecCopies(s, a);
    PendingInTo(ViewOf(s), a, s.tasks[a].job, s.tasks[a].phase.pending, k);
    FromNotTo(s.slots, JobsOf(s.tasks, s.recs), s.recs, s.reserved, a);
    EntryMoved(s.index, k, s.tasks[a].job.from, s.tasks[a].phase.pending[k]);
  }

  lemma FromNotTo(slots: map<Slot, Chunk>, jobs: map<Slot, Job>, recs: map<Slot, Job>, reserved: set<Chunk>, a: Slot)
    requires JobsOwn(slots, jobs, recs, reserved) && a in jobs
    ensures jobs[a].from != jobs[a].to
  {
  }

  lemma SwapInv(s: Node, a: Slot, k: Key)
    requires Inv(s) && CanSwap(s, a, k)
    ensures Inv(Swap(s, a, k))
  {
    var j := s.tasks[a].job;
    var pending := s.tasks[a].phase.pending;
    var t := s.(index := SwapEntry(s.index, k, j.from, pending[k]));
    FilterInv(s, a, k);
    SwapDone(s, a, k);
    SwapPhase(ViewOf(t), a, j, pending, k);
    PhaseInv(t, a, Swapping(pending - {k}));
  }

  // ----------------------------------------------- moving the superblocks

  function PgAt(s: Node, a: Slot, c: Chunk): Node { s.(slots := s.slots[a := c]) }

  lemma PgOwned(slots: map<Slot, Chunk>, jobs: map<Slot, Job>, recs: map<Slot, Job>, reserved: set<Chunk>,
                free: set<Chunk>, a: Slot)
    requires Owned(slots, jobs, recs, reserved, free) && a in jobs && a in recs
    ensures Owned(slots[a := jobs[a].to], jobs, recs, reserved, free)
  {
    var now := slots[a := jobs[a].to];
    assert SlotsDistinct(now);
    assert JobsOwn(now, jobs, recs, reserved);
    assert JobsAvoidSlots(now, jobs);
    assert FreeOk(now, jobs, reserved, free);
  }

  lemma PgHome(slots: map<Slot, Chunk>, recs: map<Slot, Job>, shards: map<ShardId, Shard>, index: Index, a: Slot,
               c: Chunk)
    requires a in recs && a in slots
    ensures PlacedShards(slots, recs, shards) ==> PlacedShards(slots[a := c], recs, shards)
    ensures PlacedIndex(slots, recs, shards, index) ==> PlacedIndex(slots[a := c], recs, shards, index)
  {
  }

  lemma PgPutsAhead(s: Node, a: Slot, c: Chunk)
    requires PutsAhead(s.log, s.cpLsn, s.disk, s.slots, s.recs, s.shards) && a in s.recs
    ensures PutsAhead(s.log, s.cpLsn, s.disk, s.slots[a := c], s.recs, s.shards)
  {
    forall i | s.cpLsn <= i < |s.log| && s.log[i].Put?
      ensures PutReady(Payloads(s.log), s.log[i], s.disk, s.slots[a := c], s.recs, s.shards)
    {
      assert PutReady(Payloads(s.log), s.log[i], s.disk, s.slots, s.recs, s.shards);
    }
  }

  lemma PgCreates(log: seq<Op>, slots: map<Slot, Chunk>, shards: map<ShardId, Shard>, jobs: map<Slot, Job>, a: Slot,
                  c: Chunk)
    requires CreatesAhead(log, slots, shards, jobs) && a in jobs
    ensures CreatesAhead(log, slots[a := c], shards, jobs)
  {
  }

  lemma PgFrame(s: Node, a: Slot, c: Chunk, b: Slot, j: Job)
    requires b != a
    ensures Frame(ViewOf(s), ViewOf(PgAt(s, a, c)), b, j)
  {
  }

  /** The slot's own task, still swapping, and its record do not look at the slot. */
  lemma PgOwn(v: View, a: Slot, c: Chunk, j: Job, pending: map<Key, Pba>)
    ensures PhaseOk(v, a, j, Swapping(pending)) ==> PhaseOk(v.(slots := v.slots[a := c]), a, j, Swapping(pending))
    ensures Recorded(v, a, j) ==> Recorded(v.(slots := v.slots[a := c]), a, j)
  {
  }

  lemma PgProgress(s: Node, a: Slot, c: Chunk)
    requires Progress(s) && a in s.tasks && s.tasks[a].phase.Swapping?
    ensures Progress(PgAt(s, a, c))
  {
    var t := PgAt(s, a, c);
    forall b | b in s.tasks ensures PhaseOk(ViewOf(t), b, t.tasks[b].job, t.tasks[b].phase) {
      if b == a {
        PgOwn(ViewOf(s), a, c, s.tasks[a].job, s.tasks[a].phase.pending);
      } else {
        PgFrame(s, a, c, b, s.tasks[b].job);
        FramePhase(ViewOf(s), ViewOf(t), b, s.tasks[b].job, s.tasks[b].phase);
      }
    }
    forall b | b in s.recs ensures Recorded(ViewOf(t), b, t.recs[b]) {
      if b == a {
        PgOwn(ViewOf(s), a, c, s.recs[a], map[]);
      } else {
        PgFrame(s, a, c, b, s.recs[b]);
        FrameRecorded(ViewOf(s), ViewOf(t), b, s.recs[b]);
      }
    }
  }

  lemma PgAtInv(s: Node, a: Slot)
    requires Inv(s) && CanMovePg(s, a)
    ensures Inv(PgAt(s, a, s.tasks[a].job.to))
  {
    var to := s.tasks[a].job.to;
    JobAt(s, a);
    PgOwned(s.slots, JobsOf(s.tasks, s.recs), s.recs, s.reserved, s.free, a);
    PgHome(s.slots, s.recs, s.shards, s.index, a, to);
    PgHome(s.slots, s.recs, s.shards, s.dIndex, a, to);
    PgPutsAhead(s, a, to);
    PgCreates(s.log, s.slots, s.shards, JobsOf(s.tasks, s.recs), a, to);
    PgProgress(s, a, to);
  }

  lemma MovePgPhase(s: Node, a: Slot)
    requires Placement(s) && a in s.recs && a in s.slots && s.slots[a] == s.recs[a].to
    requires PhaseOk(ViewOf(s), a, s.recs[a], Swapping(map[]))
    ensures PhaseOk(ViewOf(s), a, s.recs[a], PgMoved)
  {
    assert PlacedIndex(s.slots, s.recs, s.shards, s.index);
  }

  lemma MovePgInv(s: Node, a: Slot)
    requires Inv(s) && CanMovePg(s, a)
    ensures Inv(MovePg(s, a))
  {
    var t := PgAt(s, a, s.tasks[a].job.to);
    PgAtInv(s, a);
    MovePgPhase(t, a);
    PhaseInv(t, a, PgMoved);
  }

  // -- shard records

  lemma ShardAtPlaced(slots: map<Slot, Chunk>, recs: map<Slot, Job>, shards: map<ShardId, Shard>, index: Index,
                      sh: ShardId, c: Chunk)
    requires sh in shards && InHome(slots, recs, shards[sh].slot, c)
    ensures PlacedShards(slots, recs, shards) ==> PlacedShards(slots, recs, shards[sh := shards[sh].(chunk := c)])
    ensures PlacedIndex(slots, recs, shards, index) ==>
      PlacedIndex(slots, recs, shards[sh := shards[sh].(chunk := c)], index)
  {
  }

  lemma ShardAtPutsAhead(s: Node, sh: ShardId, c: Chunk)
    requires PutsAhead(s.log, s.cpLsn, s.disk, s.slots, s.recs, s.shards) && sh in s.shards
    ensures PutsAhead(s.log, s.cpLsn, s.disk, s.slots, s.recs, s.shards[sh := s.shards[sh].(chunk := c)])
  {
    forall i | s.cpLsn <= i < |s.log| && s.log[i].Put?
      ensures PutReady(Payloads(s.log), s.log[i], s.disk, s.slots, s.recs, s.shards[sh := s.shards[sh].(chunk := c)])
    {
      assert PutReady(Payloads(s.log), s.log[i], s.disk, s.slots, s.recs, s.shards);
    }
  }

  lemma ShardAtFrame(s: Node, t: Node, sh: ShardId, c: Chunk, b: Slot, j: Job)
    requires sh in s.shards && s.shards[sh].slot != b && t == s.(shards := s.shards[sh := s.shards[sh].(chunk := c)])
    ensures Frame(ViewOf(s), ViewOf(t), b, j)
  {
  }

  /** The slot's own task, moving shards, looks at slots of shards, not chunks. */
  lemma ShardAtOwn(v: View, a: Slot, sh: ShardId, c: Chunk, j: Job)
    requires sh in v.shards
    ensures PhaseOk(v, a, j, PgMoved) ==>
      PhaseOk(v.(shards := v.shards[sh := v.shards[sh].(chunk := c)]), a, j, PgMoved)
    ensures Recorded(v, a, j) ==> Recorded(v.(shards := v.shards[sh := v.shards[sh].(chunk := c)]), a, j)
  {
  }

  lemma MoveShardProgress(s: Node, a: Slot, sh: ShardId)
    requires Progress(s) && CanMoveShard(s, a, sh) && s.shards[sh].slot == a
    ensures Progress(MoveShard(s, a, sh))
  {
    var t := MoveShard(s, a, sh);
    var c := s.tasks[a].job.to;
    forall b | b in s.tasks ensures PhaseOk(ViewOf(t), b, t.tasks[b].job, t.tasks[b].phase) {
      if b == a {
        ShardAtOwn(ViewOf(s), a, sh, c, s.tasks[a].job);
      } else {
        ShardAtFrame(s, t, sh, c, b, s.tasks[b].job);
        FramePhase(ViewOf(s), ViewOf(t), b, s.tasks[b].job, s.tasks[b].phase);
      }
    }
    forall b | b in s.recs ensures Recorded(ViewOf(t), b, t.recs[b]) {
      if b == a {
        ShardAtOwn(ViewOf(s), a, sh, c, s.recs[a]);
      } else {
        ShardAtFrame(s, t, sh, c, b, s.recs[b]);
        FrameRecorded(ViewOf(s), ViewOf(t), b, s.recs[b]);
      }
    }
  }

  lemma MoveShardPlacement(s: Node, a: Slot, sh: ShardId)
    requires Inv(s) && CanMoveShard(s, a, sh)
    ensures s.shards[sh].slot == a && Placement(MoveShard(s, a, sh))
  {
    var to := s.tasks[a].job.to;
    FromShards(s, a, sh);
    ShardAtPlaced(s.slots, s.recs, s.shards, s.index, sh, to);
    ShardAtPlaced(s.slots, s.recs, s.shards, s.dIndex, sh, to);
  }

  lemma ShardAtLog(log: seq<Op>, slots: map<Slot, Chunk>, shards: map<ShardId, Shard>, jobs: map<Slot, Job>, dcLsn: nat,
                   sh: ShardId, c: Chunk)
    requires sh in shards
    ensures CreatesAhead(log, slots, shards, jobs) ==>
      CreatesAhead(log, slots, shards[sh := shards[sh].(chunk := c)], jobs)
    ensures SealFlushed(log, dcLsn, shards) ==> SealFlushed(log, dcLsn, shards[sh := shards[sh].(chunk := c)])
  {
  }

  lemma MoveShardAhead(s: Node, a: Slot, sh: ShardId)
    requires Ahead(s) && CanMoveShard(s, a, sh)
    ensures Ahead(MoveShard(s, a, sh))
  {
    ShardAtPutsAhead(s, sh, s.tasks[a].job.to);
    ShardAtLog(s.log, s.slots, s.shards, JobsOf(s.tasks, s.recs), s.dcLsn, sh, s.tasks[a].job.to);
  }

  lemma MoveShardInv(s: Node, a: Slot, sh: ShardId)
    requires Inv(s) && CanMoveShard(s, a, sh)
    ensures Inv(MoveShard(s, a, sh))
  {
    MoveShardPlacement(s, a, sh);
    MoveShardAhead(s, a, sh);
    MoveShardProgress(s, a, sh);
  }

  lemma EndShardsPhase(s: Node, a: Slot)
    requires CanEndShards(s, a) && PlacedShards(s.slots, s.recs, s.shards) && a in s.recs && s.tasks[a].job == s.recs[a]
    requires PhaseOk(ViewOf(s), a, s.tasks[a].job, PgMoved)
    ensures PhaseOk(ViewOf(s), a, s.tasks[a].job, ShardsMoved)
  {
    forall sh | InSlot(s.shards, sh, a) ensures s.shards[sh].chunk == s.recs[a].to {
      assert InHome(s.slots, s.recs, a, s.shards[sh].chunk);
      assert !InChunk(s, sh, s.recs[a].from);
    }
  }

  lemma EndShardsInv(s: Node, a: Slot)
    requires Inv(s) && CanEndShards(s, a)
    ensures Inv(EndShards(s, a))
  {
    EndShardsPhase(s, a);
    PhaseInv(s, a, ShardsMoved);
  }

  lemma FlushSwapInv(s: Node, a: Slot)
    requires Inv(s) && CanFlushSwap(s, a)
    ensures Inv(FlushSwap(s, a))
  {
    CheckpointInv(s);
    FlushSwapPhase(s, a);
    PhaseInv(Checkpoint(s), a, Flushed);
  }

  lemma FlushSwapPhase(s: Node, a: Slot)
    requires CanFlushSwap(s, a) && Progress(s)
    ensures PhaseOk(ViewOf(Checkpoint(s)), a, s.tasks[a].job, Flushed)
  {
    assert PhaseOk(ViewOf(s), a, s.tasks[a].job, ShardsMoved);
  }

  // ------------------------------------------------------ ending the task

  function NewReserved(reserved: set<Chunk>, j: Job): set<Chunk> {
    if j.to in reserved then reserved - {j.to} + {j.from} else reserved
  }

  lemma ReservedOwned(slots: map<Slot, Chunk>, jobs: map<Slot, Job>, recs: map<Slot, Job>, reserved: set<Chunk>,
                      free: set<Chunk>, a: Slot)
    requires Owned(slots, jobs, recs, reserved, free) && a in jobs && a in recs && slots[a] == jobs[a].to
    ensures Owned(slots, jobs, recs, NewReserved(reserved, jobs[a]), free)
  {
    var now := NewReserved(reserved, jobs[a]);
    assert JobsOwn(slots, jobs, recs, now);
    assert FreeOk(slots, jobs, now, free);
    assert ReservedOk(slots, recs, now);
  }

  lemma ReservedFrame(s: Node, t: Node, a: Slot, b: Slot, j: Job, jb: Job)
    requires t == s.(reserved := NewReserved(s.reserved, j)) && !Uses(jb, j.from) && !Uses(jb, j.to)
    ensures Frame(ViewOf(s), ViewOf(t), b, jb)
  {
  }

  lemma ReservedOwn(v: View, a: Slot, r: set<Chunk>, j: Job)
    ensures PhaseOk(v, a, j, Flushed) ==> PhaseOk(v.(reserved := r), a, j, Flushed)
    ensures Recorded(v, a, j) ==> Recorded(v.(reserved := r), a, j)
  {
  }

  lemma ReservedProgress(s: Node, a: Slot)
    requires Progress(s) && Ownership(s) && CanMoveReserved(s, a)
    ensures Progress(s.(reserved := NewReserved(s.reserved, s.tasks[a].job)))
  {
    var j := s.tasks[a].job;
    var t := s.(reserved := NewReserved(s.reserved, j));
    JobAt(s, a);
    assert JobsDisjoint(JobsOf(s.tasks, s.recs));
    forall b | b in s.tasks ensures PhaseOk(ViewOf(t), b, t.tasks[b].job, t.tasks[b].phase) {
      if b == a {
        ReservedOwn(ViewOf(s), a, t.reserved, j);
      } else {
        JobAt(s, b);
        ReservedFrame(s, t, a, b, j, s.tasks[b].job);
        FramePhase(ViewOf(s), ViewOf(t), b, s.tasks[b].job, s.tasks[b].phase);
      }
    }
    forall b | b in s.recs ensures Recorded(ViewOf(t), b, t.recs[b]) {
      if b == a {
        ReservedOwn(ViewOf(s), a, t.reserved, s.recs[a]);
      } else {
        JobAt(s, b);
        ReservedFrame(s, t, a, b, j, s.recs[b]);
        FrameRecorded(ViewOf(s), ViewOf(t), b, s.recs[b]);
      }
    }
  }

  lemma ReservedInv(s: Node, a: Slot)
    requires Inv(s) && CanMoveReserved(s, a)
    ensures Inv(s.(reserved := NewReserved(s.reserved, s.tasks[a].job)))
  {
    JobAt(s, a);
    FlushedSlot(s, a);
    ReservedOwned(s.slots, JobsOf(s.tasks, s.recs), s.recs, s.reserved, s.free, a);
    ReservedProgress(s, a);
  }

  lemma FlushedSlot(s: Node, a: Slot)
    requires Progress(s) && InPhase(s, a, Flushed)
    ensures a in s.slots && s.slots[a] == s.tasks[a].job.to
  {
    assert PhaseOk(ViewOf(s), a, s.tasks[a].job, Flushed);
  }

  lemma MoveReservedPhase(v: View, a: Slot, j: Job)
    requires PhaseOk(v, a, j, Flushed) && (j.to in v.reserved) != (j.from in v.reserved) && j.from != j.to
    ensures PhaseOk(v.(reserved := NewReserved(v.reserved, j)), a, j, ReservedMoved)
  {
  }

  lemma OneReserved(s: Node, a: Slot)
    requires Ownership(s) && a in s.tasks && !s.tasks[a].phase.BeforeRecord()
    ensures (s.tasks[a].job.to in s.reserved) != (s.tasks[a].job.from in s.reserved)
    ensures s.tasks[a].job.from != s.tasks[a].job.to
  {
    JobAt(s, a);
    assert JobsOwn(s.slots, JobsOf(s.tasks, s.recs), s.recs, s.reserved);
  }

  lemma MoveReservedInv(s: Node, a: Slot)
    requires Inv(s) && CanMoveReserved(s, a)
    ensures Inv(MoveReserved(s, a))
  {
    var t := s.(reserved := NewReserved(s.reserved, s.tasks[a].job));
    ReservedInv(s, a);
    OneReserved(s, a);
    MoveReservedPhase(ViewOf(s), a, s.tasks[a].job);
    PhaseInv(t, a, ReservedMoved);
  }

  lemma DestroyOwnership(s: Node, a: Slot)
    requires CanDestroy(s, a) && Ownership(s) && Progress(s)
    ensures Ownership(Destroy(s, a))
  {
    JobAt(s, a);
    ReservedSlot(s, a);
    EndOwned(s.slots, JobsOf(s.tasks, s.recs), s.recs, s.reserved, s.free, a, s.tasks[a].job.from);
    FromNotTo(s.slots, JobsOf(s.tasks, s.recs), s.recs, s.reserved, a);
    FewerJobs(s, a);
    FewerRecsMatch(s.tasks, s.recs, a);
  }

  lemma ReservedSlot(s: Node, a: Slot)
    requires Progress(s) && InPhase(s, a, ReservedMoved)
    ensures a in s.slots && s.slots[a] == s.tasks[a].job.to
    ensures s.tasks[a].job.from in s.reserved && s.tasks[a].job.to !in s.reserved
    ensures AllIn(s.shards, s.index, a, s.slots[a]) && AllIn(s.shards, s.dIndex, a, s.slots[a])
    ensures ShardsIn(s.shards, a, s.slots[a])
  {
    assert PhaseOk(ViewOf(s), a, s.tasks[a].job, ReservedMoved);
  }

  /** With everything of slot `a` in its chunk, the record is no longer needed. */
  lemma NarrowHome(slots: map<Slot, Chunk>, recs: map<Slot, Job>, shards: map<ShardId, Shard>, index: Index, a: Slot)
    requires a in slots
    ensures PlacedShards(slots, recs, shards) && ShardsIn(shards, a, slots[a]) ==>
      PlacedShards(slots, recs - {a}, shards)
    ensures PlacedIndex(slots, recs, shards, index) && AllIn(shards, index, a, slots[a])
      ==> PlacedIndex(slots, recs - {a}, shards, index)
  {
  }

  lemma DestroyPlacement(s: Node, a: Slot)
    requires CanDestroy(s, a) && Placement(s) && Progress(s)
    ensures Placement(Destroy(s, a))
  {
    ReservedSlot(s, a);
    NarrowHome(s.slots, s.recs, s.shards, s.index, a);
    NarrowHome(s.slots, s.recs, s.shards, s.dIndex, a);
  }

  lemma DestroyPutsAhead(s: Node, a: Slot)
    requires PutsAhead(s.log, s.cpLsn, s.disk, s.slots, s.recs, s.shards)
    ensures PutsAhead(s.log, s.cpLsn, s.disk, s.slots, s.recs - {a}, s.shards)
  {
    forall i | s.cpLsn <= i < |s.log| && s.log[i].Put?
      ensures PutReady(Payloads(s.log), s.log[i], s.disk, s.slots, s.recs - {a}, s.shards)
    {
      assert PutReady(Payloads(s.log), s.log[i], s.disk, s.slots, s.recs, s.shards);
    }
  }

  lemma DestroyAhead(s: Node, a: Slot)
    requires CanDestroy(s, a) && Ahead(s)
    ensures Ahead(Destroy(s, a))
  {
    DestroyPutsAhead(s, a);
    FewerJobs(s, a);
  }

  lemma DestroyInv(s: Node, a: Slot)
    requires Inv(s) && CanDestroy(s, a)
    ensures Inv(Destroy(s, a))
  {
    DestroyOwnership(s, a);
    DestroyPlacement(s, a);
    DestroyAhead(s, a);
    assert ViewOf(Destroy(s, a)) == ViewOf(s);
  }
}
