/** The shards of a node and its committed log, read off the steps of the run: what
    was proposed, committed, sealed and rolled back. */
module ShardHistory {
  import opened Storage
  import opened ChunkSelector
  import opened ShardLifecycle

  /** A seal of the shard is pre-committed and not rolled back. */
  predicate SealStands(past: seq<Step>, id: ShardId) {
    past != [] &&
      var e := past[|past| - 1];
      if e == SealPreCommit(id) then true
      else if e == SealRollback(id) then false
      else SealStands(past[..|past| - 1], id)
  }

  /** A GC of chunk `v`, normal or emergent, has started and not ended. */
  predicate GcStands(past: seq<Step>, v: nat) {
    past != [] &&
      var e := past[|past| - 1];
      if e == StartGc(v) || e == StartEgc(v) then true
      else if e == EndGc(v) || e == EndEgc(v) then false
      else GcStands(past[..|past| - 1], v)
  }

  /** The commits among the steps, in order. */
  function Commits(past: seq<Step>): seq<Step> {
    if past == [] then []
    else
      var e := past[|past| - 1];
      Commits(past[..|past| - 1]) + if e.CommitCreate? || e.SealCommit? then [e] else []
  }

  predicate Logs(event: Event, e: Step) {
    match event
    case Created(id, _) => e == CommitCreate(id)
    case Sealed(id, _) => e == SealCommit(id)
  }

  /** Every shard was proposed for its chunk and committed; it is sealed while a seal
      of it stands, and done once that is committed. */
  ghost predicate ShardsTold(past: seq<Step>, s: Node) {
    forall id :: id in s.shards ==>
      && CommitCreate(id) in past && Propose(id, s.shards[id].v) in past
      && (s.shards[id].sealed <==> SealStands(past, id)) && (s.shards[id].done <==> SealCommit(id) in past)
  }

  /** What was committed or sealed exists. */
  ghost predicate StepsTold(past: seq<Step>, s: Node) {
    && (forall id: ShardId :: CommitCreate(id) in past ==> id in s.shards)
    && (forall id: ShardId :: SealStands(past, id) || SealCommit(id) in past ==> id in s.shards)
  }

  /** What was proposed is proposed once. */
  ghost predicate ProposalsTold(past: seq<Step>, s: Node) {
    && (forall id :: id in s.creating ==> Propose(id, s.creating[id]) in past)
    && (forall id: ShardId, v: nat :: Propose(id, v) in past ==> id !in s.drawn && id <= s.last)
    && (forall id: ShardId, v: nat, w: nat :: Propose(id, v) in past && Propose(id, w) in past ==> v == w)
  }

  /** The log holds the commits in order, each with the chunk that was proposed. */
  ghost predicate LogTold(past: seq<Step>, s: Node) {
    && |s.log| == |Commits(past)|
    && forall i :: 0 <= i < |s.log| ==>
         Logs(s.log[i], Commits(past)[i]) && Propose(s.log[i].shard, s.log[i].v) in past
  }

  ghost predicate Told(past: seq<Step>, s: Node) {
    Tidy(s) && ShardsTold(past, s) && StepsTold(past, s) && ProposalsTold(past, s) && LogTold(past, s)
  }

  /** A chunk is in state GC exactly while a GC of it stands. */
  ghost predicate ChunksTold(past: seq<Step>, s: Node) {
    forall v :: v in s.chunk ==> (s.chunk[v] == Gc <==> GcStands(past, v))
  }

  // -------------------------------------------------------------- one more step

  lemma Snoc(past: seq<Step>, e: Step, id: ShardId)
    ensures (past + [e])[..|past|] == past
    ensures Commits(past + [e]) == Commits(past) + if e.CommitCreate? || e.SealCommit? then [e] else []
    ensures SealStands(past + [e], id) <==> e == SealPreCommit(id) || (e != SealRollback(id) && SealStands(past, id))
  {
    assert (past + [e])[..|past|] == past;
  }

  lemma ShardsStep(past: seq<Step>, s: Node, e: Step, t: Node)
    requires Told(past, s) && Enabled(s, e) && t == Next(s, e)
    ensures ShardsTold(past + [e], t)
  {
    forall id | id in t.shards
      ensures CommitCreate(id) in past + [e] && Propose(id, t.shards[id].v) in past + [e]
      ensures t.shards[id].sealed <==> SealStands(past + [e], id)
      ensures t.shards[id].done <==> SealCommit(id) in past + [e]
    {
      Snoc(past, e, id);
    }
  }

  lemma ProposalsStep(past: seq<Step>, s: Node, e: Step, t: Node)
    requires Tidy(s) && ProposalsTold(past, s) && Enabled(s, e) && t == Next(s, e)
    ensures ProposalsTold(past + [e], t)
  {
  }

  lemma StepsStep(past: seq<Step>, s: Node, e: Step, t: Node)
    requires StepsTold(past, s) && Enabled(s, e) && t == Next(s, e)
    ensures StepsTold(past + [e], t)
  {
    forall id: ShardId | SealStands(past + [e], id) || SealCommit(id) in past + [e] ensures id in t.shards {
      Snoc(past, e, id);
    }
  }

  lemma LogStep(past: seq<Step>, s: Node, e: Step, t: Node)
    requires ShardsTold(past, s) && ProposalsTold(past, s) && LogTold(past, s) && Enabled(s, e) && t == Next(s, e)
    ensures LogTold(past + [e], t)
  {
    Snoc(past, e, 0);
  }

  lemma StepTold(past: seq<Step>, s: Node, e: Step)
    requires Told(past, s) && Enabled(s, e)
    ensures Told(past + [e], Next(s, e))
  {
    TidyStep(s, e);
    ShardsStep(past, s, e, Next(s, e));
    StepsStep(past, s, e, Next(s, e));
    ProposalsStep(past, s, e, Next(s, e));
    LogStep(past, s, e, Next(s, e));
  }

  lemma {:induction false} RunTold(past: seq<Step>, s: Node, run: seq<Step>)
    requires Told(past, s) && IsRun(run, s)
    ensures Told(past + run, RunOf(run, s))
    decreases |run|
  {
    if run == [] {
      assert past + run == past;
    } else {
      StepTold(past, s, run[0]);
      assert past + run == past + [run[0]] + run[1..];
      RunTold(past + [run[0]], Next(s, run[0]), run[1..]);
    }
  }

  lemma GcSnoc(past: seq<Step>, e: Step, v: nat)
    ensures GcStands(past + [e], v) <==>
      e == StartGc(v) || e == StartEgc(v) || (e != EndGc(v) && e != EndEgc(v) && GcStands(past, v))
  {
    assert (past + [e])[..|past|] == past;
  }

  lemma ChunksStep(past: seq<Step>, s: Node, e: Step, t: Node)
    requires Tidy(s) && ChunksTold(past, s) && Enabled(s, e) && t == Next(s, e)
    ensures ChunksTold(past + [e], t)
  {
    forall v | v in t.chunk ensures t.chunk[v] == Gc <==> GcStands(past + [e], v) {
      GcSnoc(past, e, v);
    }
  }

  lemma {:induction false} RunChunks(past: seq<Step>, s: Node, run: seq<Step>)
    requires Tidy(s) && ChunksTold(past, s) && IsRun(run, s)
    ensures ChunksTold(past + run, RunOf(run, s))
    decreases |run|
  {
    if run == [] {
      assert past + run == past;
    } else {
      TidyStep(s, run[0]);
      ChunksStep(past, s, run[0], Next(s, run[0]));
      assert past + run == past + [run[0]] + run[1..];
      RunChunks(past + [run[0]], Next(s, run[0]), run[1..]);
    }
  }

  /** In every run a chunk is in state GC exactly while a GC of it has started and not
      ended; no create, seal or failure takes it out of that state. */
  lemma GcFollowsRun(run: seq<Step>, s: Node, v: nat)
    requires Init(s) && IsRun(run, s) && v in RunOf(run, s).chunk
    ensures RunOf(run, s).chunk[v] == Gc <==> GcStands(run, v)
  {
    RunChunks([], s, run);
    assert [] + run == run;
  }

  /** In every run, whatever fails and is rolled back: a shard exists exactly when its
      create was committed, in the chunk it was proposed for, it is sealed exactly while
      a seal of it stands, and its seal is done exactly when it was committed. */
  lemma ShardsFollowRun(run: seq<Step>, s: Node, id: ShardId, v: nat)
    requires Init(s) && IsRun(run, s)
    ensures var t := RunOf(run, s);
      && (id in t.shards <==> CommitCreate(id) in run)
      && (id in t.shards ==>
            && (t.shards[id].v == v <==> Propose(id, v) in run)
            && (t.shards[id].sealed <==> SealStands(run, id)) && (t.shards[id].done <==> SealCommit(id) in run))
  {
    RunTold([], s, run);
    assert [] + run == run;
  }

  /** And the committed log is the commits of the run in order, each with the chunk its
      shard was proposed for. */
  lemma LogFollowsRun(run: seq<Step>, s: Node, i: nat)
    requires Init(s) && IsRun(run, s)
    ensures var log := RunOf(run, s).log;
      && |log| == |Commits(run)|
      && (i < |log| ==> Logs(log[i], Commits(run)[i]) && Propose(log[i].shard, log[i].v) in run)
  {
    RunTold([], s, run);
    assert [] + run == run;
  }
}
