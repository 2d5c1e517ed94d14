/** A run, step by step, into a state from which a restart without the PG meta
    message loses a blob. */
module ResyncSkip {
  import opened Storage
  import opened ResyncLeader
  import opened ResyncFollower
  import opened ResyncMachine
  import opened ResyncInvariant
  import opened ResyncTheorems

  /** Three sealed shards; the second holds blob 7. */
  function Shards(): seq<ShardEntry> {
    [ShardEntry(1, 0, 1, false), ShardEntry(2, 1, 2, false), ShardEntry(3, 2, 3, false)]
  }

  function Blobs(): map<ShardId, set<BlobId>> {
    map[1 := {}, 2 := {7}, 3 := {}]
  }

  function State(l: Leader, off: ObjId, f: Follower): Sync {
    Sync(5, Blobs(), Blobs(), l, off, f)
  }

  function Good(written: set<BlobId>): Outcome {
    Outcome(true, true, true, written)
  }

  lemma KnownIds()
    ensures Ids(Shards()) == [1, 2, 3]
    ensures FindId([1, 2, 3], 1) == 0 && FindId([1, 2, 3], 2) == 1 && FindId([1, 2, 3], 3) == 2
  {
    FirstFound([1, 2, 3], 1, 0);
    FirstFound([1, 2, 3], 2, 1);
    FirstFound([1, 2, 3], 3, 2);
  }

  // ------------------------------------------------------------ the states

  function Start(): Sync {
    State(FreshLeader(Shards()), PG_META, Follower(NoCtx, map[], {}, {}, map[], {}, NoRecord, NoWrite))
  }

  function MetaDone(): Sync {
    State(FreshLeader(Shards()), Obj(1, 0),
      Follower(Ctx(5, [1, 2, 3], NoShard, 0), map[], {}, {}, map[], {}, NoRecord, NoWrite))
  }

  function FirstBegun(): Sync {
    State(Leader(Shards(), Obj(1, 0), 0, [], 0, 0), Obj(1, 1),
      Follower(Ctx(5, [1, 2, 3], At(1), 0), map[1 := LocalShard(0, false)], {0}, {}, map[], {}, NoRecord, NoWrite))
  }

  function FirstDone(): Sync {
    State(Leader(Shards(), Obj(1, 1), 0, [], 0, 0), Obj(2, 0),
      Follower(Ctx(5, [1, 2, 3], At(1), 1), map[1 := LocalShard(0, false)], {}, {}, map[], {}, NoRecord,
        Write(At(2), true, {})))
  }

  function FirstRecorded(): Sync {
    State(Leader(Shards(), Obj(1, 1), 0, [], 0, 0), Obj(2, 0),
      Follower(Ctx(5, [1, 2, 3], At(1), 1), map[1 := LocalShard(0, false)], {}, {}, map[], {},
        Record(5, At(2), 5, [1, 2, 3]), NoWrite))
  }

  function SecondBegun(): Sync {
    State(Leader(Shards(), Obj(2, 0), 1, [BlobEntry(7, true)], 0, 0), Obj(2, 1),
      Follower(Ctx(5, [1, 2, 3], At(2), 0), map[1 := LocalShard(0, false), 2 := LocalShard(1, false)], {1}, {}, map[],
        {}, Record(5, At(2), 5, [1, 2, 3]), NoWrite))
  }

  /** Shard 2 is complete in memory, its cursor write waits for the checkpoint, and
      the leader is about to send shard 3. */
  function SecondDone(): Sync {
    State(Leader(Shards(), Obj(2, 1), 1, [BlobEntry(7, true)], 0, 1), Obj(3, 0),
      Follower(Ctx(5, [1, 2, 3], At(2), 1), map[1 := LocalShard(0, false), 2 := LocalShard(1, false)], {}, {Key(2, 7)},
        map[Key(2, 7) := 1], {}, Record(5, At(2), 5, [1, 2, 3]), Write(At(3), false, {Key(2, 7)})))
  }

  // ------------------------------------------------------------- the steps

  ghost predicate Leads(s: Sync, e: Step, t: Sync) {
    Enabled(s, e) && Next(s, e) == t
  }

  lemma MetaStep()
    ensures Leads(Start(), Exchange([], 0, Good({}), false), MetaDone())
  {
    KnownIds();
  }

  lemma FirstMeta()
    ensures Leads(MetaDone(), Exchange([], 0, Good({}), false), FirstBegun())
  {
    KnownIds();
    assert LiveIds([]) == {};
  }

  /** The empty last batch of shard 1. */
  lemma FirstStored(f: Follower)
    requires f == FirstBegun().f
    ensures OnBatch(f, Obj(1, 1), {}, true, Good({})) == (FirstDone().f, Obj(2, 0))
  {
    KnownIds();
    var none: set<BlobId> := {};
    assert none * NewBlobs(f.index, 1, none) == none && NewBlobs(f.index, 1, none) == none && KeysOf(1, none) == {};
    var g := f.(ctx := f.ctx.(batch := 1));
    assert Committed(g, 1, none) == g by {
      assert g.index + KeysOf(1, none) == g.index && Bumped(g.copies, KeysOf(1, none)) == g.copies;
    }
    assert f.inUse - {0} == {};
    assert Released(g, 1) == g.(inUse := {});
    assert Scheduled(g.(inUse := {})) == FirstDone().f;
  }

  /** The last batch of shard 2, with its one blob. */
  lemma SecondStored(f: Follower)
    requires f == SecondBegun().f
    ensures OnBatch(f, Obj(2, 1), {7}, true, Good({7})) == (SecondDone().f, Obj(3, 0))
  {
    KnownIds();
    var one: set<BlobId> := {7};
    assert NewBlobs(f.index, 2, one) == one && one * one == one && KeysOf(2, one) == {Key(2, 7)};
    var g := f.(ctx := f.ctx.(batch := 1));
    var h := g.(index := {Key(2, 7)}, copies := map[Key(2, 7) := 1]);
    assert Committed(g, 2, one) == h by {
      assert g.index + KeysOf(2, one) == h.index && Bumped(g.copies, KeysOf(2, one)) == h.copies;
    }
    assert f.inUse - {1} == {};
    assert Released(h, 2) == h.(inUse := {});
    assert Scheduled(h.(inUse := {})) == SecondDone().f;
  }

  lemma FirstBatch()
    ensures Leads(FirstBegun(), Exchange([], 0, Good({}), false), FirstDone())
  {
    KnownIds();
    var s := FirstBegun();
    var t := Served(s.l, s.off, [], 0);
    assert t == Leader(Shards(), Obj(1, 1), 0, [], 0, 0);
    assert BatchIds(t) == {};
    FirstStored(s.f);
  }

  lemma FirstFlush()
    ensures Leads(FirstDone(), FlushCursor, FirstRecorded())
  {
  }

  lemma SecondMeta()
    ensures Leads(FirstRecorded(), Exchange([BlobEntry(7, true)], 0, Good({}), false), SecondBegun())
  {
    KnownIds();
    var list := [BlobEntry(7, true)];
    assert LiveIds(list) == {7} by { assert list[0] in list; }
  }

  lemma SecondBatch()
    ensures Leads(SecondBegun(), Exchange([], 1, Good({7}), false), SecondDone())
  {
    KnownIds();
    var s := SecondBegun();
    var t := Served(s.l, s.off, [], 1);
    assert t == Leader(Shards(), Obj(2, 1), 1, [BlobEntry(7, true)], 0, 1);
    assert BatchIds(t) == {7} by { assert t.blobs[0..1][0] == BlobEntry(7, true); }
    SecondStored(s.f);
  }

  lemma StartIsInit()
    ensures Init(Start())
  {
    assert ConfigOk(Blobs(), Blobs(), Shards());
  }

  /** The state satisfies everything a run promises. */
  lemma SecondDoneInv()
    ensures Inv(SecondDone())
  {
    StartIsInit();
    InitInv(Start());
    MetaStep();
    StepInv(Start(), Exchange([], 0, Good({}), false));
    FirstMeta();
    StepInv(MetaDone(), Exchange([], 0, Good({}), false));
    FirstBatch();
    StepInv(FirstBegun(), Exchange([], 0, Good({}), false));
    FirstFlush();
    StepInv(FirstDone(), FlushCursor);
    SecondMeta();
    StepInv(FirstRecorded(), Exchange([BlobEntry(7, true)], 0, Good({}), false));
    SecondBatch();
    StepInv(SecondBegun(), Exchange([], 1, Good({7}), false));
  }

  /** A crash there, resumed with the start of shard 3 and not with the PG meta: the
      follower goes on to shard 3, and blob 7 of shard 2 is gone. */
  lemma DirectRestartLosesBlob(out: Outcome, r: (Follower, ObjId))
    requires out.selected && out.created
    requires Handles(Recovered(SecondDone().f), 5, Obj(3, 0))
    requires r == OnMessage(Recovered(SecondDone().f), 5, Obj(3, 0), ShardMeta(ShardEntry(3, 2, 3, false)), out)
    ensures Inv(SecondDone()) && r.1 == Obj(3, 1) && r.0.ctx.cursor == At(3)
    ensures Key(2, 7) in SecondDone().f.index && Key(2, 7) !in r.0.index
  {
    KnownIds();
    SecondDoneInv();
  }

  /** The last batch of shard 2 again, its one blob written and its commit failing: the
      follower goes on to shard 3 without blob 7. */
  lemma FailedCommitLosesBlob(r: (Follower, ObjId))
    requires r == OnBatchDropping(SecondBegun().f, Obj(2, 1), {7}, true, Good({7}), {7})
    ensures Leads(FirstRecorded(), Exchange([BlobEntry(7, true)], 0, Good({}), false), SecondBegun())
    ensures r.1 == Obj(3, 0) && 7 in Blobs()[2] && Key(2, 7) !in r.0.index
  {
    KnownIds();
    SecondMeta();
    var f := SecondBegun().f;
    var one: set<BlobId> := {7};
    assert NewBlobs(f.index, 2, one) == one && one * one == one && one - one == {};
  }
}
