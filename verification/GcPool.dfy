/** The reserved chunks of a replica: none is lost or made, and those waiting in
    the queue are exactly the ones no task holds and no redo left out. */
module GcPool {
  import opened Storage
  import opened GcMachine
  import opened GcInvariant
  import opened GcSteps
  import opened GcTaskSteps
  import opened GcTheorems

  ghost predicate Named(jobs: map<Slot, Job>, c: Chunk) {
    exists a :: a in jobs && Uses(jobs[a], c)
  }

  /** The source chunks of tasks finished by the current recovery, or by the last
      one: a redo does not queue them. */
  function LeftOut(s: Node, e: Step, out: set<Chunk>): set<Chunk>
    requires Enabled(s, e)
  {
    if e == Host(CrashStep) then {}
    else if e.Move? && e.m == DestroyStep && s.recovering then out + {s.tasks[e.slot].job.from}
    else out
  }

  function LeftOutBy(s: Node, steps: seq<Step>, out: set<Chunk>): set<Chunk>
    requires IsRun(s, steps)
    decreases |steps|
  {
    if steps == [] then out else LeftOutBy(Next(s, steps[0]), steps[1..], LeftOut(s, steps[0], out))
  }

  /** A reserved chunk is queued exactly when no job names it and no redo left it
      out; and what a redo left out is reserved and named by no job. */
  ghost predicate Pooled(reserved: set<Chunk>, jobs: map<Slot, Job>, free: set<Chunk>, out: set<Chunk>) {
    && out <= reserved
    && (forall c :: c in reserved ==> (c in free <==> !Named(jobs, c) && c !in out))
    && (forall c :: c in out ==> !Named(jobs, c))
  }

  ghost predicate PoolOk(s: Node, out: set<Chunk>) {
    Pooled(s.reserved, JobsOf(s.tasks, s.recs), s.free, out)
  }

  lemma SamePool(s: Node, t: Node, out: set<Chunk>)
    requires PoolOk(s, out) && t.reserved == s.reserved && t.free == s.free
    requires JobsOf(t.tasks, t.recs) == JobsOf(s.tasks, s.recs)
    ensures PoolOk(t, out)
  {
  }

  // ------------------------------------------------------ one map of jobs

  lemma NamedMore(jobs: map<Slot, Job>, a: Slot, j: Job, c: Chunk)
    requires a !in jobs
    ensures Named(jobs[a := j], c) <==> Named(jobs, c) || Uses(j, c)
  {
    var more := jobs[a := j];
    if Named(jobs, c) {
      var b :| b in jobs && Uses(jobs[b], c);
      assert b in more && Uses(more[b], c);
    }
    if Uses(j, c) { assert a in more && Uses(more[a], c); }
  }

  lemma NamedLess(jobs: map<Slot, Job>, a: Slot, c: Chunk)
    requires a in jobs && JobsDisjoint(jobs)
    ensures Named(jobs - {a}, c) <==> Named(jobs, c) && !Uses(jobs[a], c)
  {
    var less := jobs - {a};
    if Named(jobs, c) {
      var b :| b in jobs && Uses(jobs[b], c);
      if b != a { assert b in less && Uses(less[b], c); }
    }
    if Named(less, c) {
      var b :| b in less && Uses(less[b], c);
      assert b in jobs && b != a && Uses(jobs[b], c);
    }
  }

  lemma StartPooled(reserved: set<Chunk>, jobs: map<Slot, Job>, free: set<Chunk>, out: set<Chunk>, a: Slot, j: Job)
    requires Pooled(reserved, jobs, free, out) && free <= reserved
    requires a !in jobs && j.to in free && j.from !in reserved
    ensures Pooled(reserved, jobs[a := j], free - {j.to}, out)
  {
    forall c ensures Named(jobs[a := j], c) <==> Named(jobs, c) || Uses(j, c) {
      NamedMore(jobs, a, j, c);
    }
  }

  lemma FailPooled(reserved: set<Chunk>, jobs: map<Slot, Job>, free: set<Chunk>, out: set<Chunk>, a: Slot)
    requires Pooled(reserved, jobs, free, out) && JobsDisjoint(jobs)
    requires a in jobs && jobs[a].from !in reserved
    ensures Pooled(reserved, jobs - {a}, free + {jobs[a].to}, out)
  {
    forall c ensures Named(jobs - {a}, c) <==> Named(jobs, c) && !Uses(jobs[a], c) {
      NamedLess(jobs, a, c);
    }
    assert Uses(jobs[a], jobs[a].to);
  }

  lemma DestroyPooled(reserved: set<Chunk>, jobs: map<Slot, Job>, free: set<Chunk>, out: set<Chunk>, a: Slot,
                      queue: bool)
    requires Pooled(reserved, jobs, free, out) && JobsDisjoint(jobs)
    requires a in jobs && jobs[a].from in reserved && jobs[a].to !in reserved
    ensures queue ==> Pooled(reserved, jobs - {a}, free + {jobs[a].from}, out)
    ensures !queue ==> Pooled(reserved, jobs - {a}, free, out + {jobs[a].from})
  {
    forall c ensures Named(jobs - {a}, c) <==> Named(jobs, c) && !Uses(jobs[a], c) {
      NamedLess(jobs, a, c);
    }
    assert Uses(jobs[a], jobs[a].from);
  }

  lemma SwapReserved(reserved: set<Chunk>, jobs: map<Slot, Job>, free: set<Chunk>, out: set<Chunk>, a: Slot)
    requires Pooled(reserved, jobs, free, out) && a in jobs
    requires forall c :: c in free ==> !Uses(jobs[a], c)
    ensures Pooled(reserved - {jobs[a].to} + {jobs[a].from}, jobs, free, out)
  {
    assert Uses(jobs[a], jobs[a].from) && Uses(jobs[a], jobs[a].to);
    assert Named(jobs, jobs[a].from) && Named(jobs, jobs[a].to);
  }

  // ------------------------------------------------------------- the steps

  lemma StartFacts(s: Node, a: Slot, to: Chunk, emergent: bool)
    requires Ownership(s) && CanStart(s, a, to, emergent)
    ensures a !in JobsOf(s.tasks, s.recs) && s.slots[a] !in s.reserved && s.free <= s.reserved
  {
    JobAt(s, a);
    assert ReservedOk(s.slots, s.recs, s.reserved);
    QueuedReserved(s);
  }

  lemma StartPool(s: Node, a: Slot, to: Chunk, emergent: bool, t: Node, out: set<Chunk>)
    requires PoolOk(s, out) && CanStart(s, a, to, emergent) && t == Start(s, a, to, emergent)
    requires a !in JobsOf(s.tasks, s.recs) && s.slots[a] !in s.reserved && s.free <= s.reserved
    ensures PoolOk(t, out)
  {
    StartJobs(s, a, to, emergent);
    StartPooled(s.reserved, JobsOf(s.tasks, s.recs), s.free, out, a, Job(s.slots[a], to, emergent));
  }

  lemma FailFacts(s: Node, a: Slot)
    requires Ownership(s) && CanFail(s, a)
    ensures var jobs := JobsOf(s.tasks, s.recs);
      a in jobs && jobs[a] == s.tasks[a].job && jobs[a].from !in s.reserved && JobsDisjoint(jobs)
    ensures JobsOf(s.tasks - {a}, s.recs) == JobsOf(s.tasks, s.recs) - {a}
  {
    JobAt(s, a);
    FewerJobs(s, a);
    NoRecord(s.tasks, s.recs, a);
    assert JobsOwn(s.slots, JobsOf(s.tasks, s.recs), s.recs, s.reserved);
  }

  lemma FailPool(s: Node, a: Slot, t: Node, out: set<Chunk>)
    requires Ownership(s) && PoolOk(s, out) && CanFail(s, a) && t == Fail(s, a)
    ensures PoolOk(t, out)
  {
    FailFacts(s, a);
    FailPooled(s.reserved, JobsOf(s.tasks, s.recs), s.free, out, a);
  }

  lemma DestroyPool(s: Node, a: Slot, t: Node, out: set<Chunk>)
    requires Ownership(s) && PoolOk(s, out) && CanDestroy(s, a) && t == Destroy(s, a)
    requires s.tasks[a].job.from in s.reserved && s.tasks[a].job.to !in s.reserved
    ensures PoolOk(t, LeftOut(s, Move(a, DestroyStep), out))
  {
    var jobs := JobsOf(s.tasks, s.recs);
    JobAt(s, a);
    FewerJobs(s, a);
    assert JobsDisjoint(jobs);
    DestroyPooled(s.reserved, jobs, s.free, out, a, !s.recovering);
  }

  lemma MoveReservedPool(s: Node, a: Slot, t: Node, out: set<Chunk>)
    requires Ownership(s) && PoolOk(s, out) && CanMoveReserved(s, a) && t == MoveReserved(s, a)
    ensures PoolOk(t, out)
  {
    var jobs := JobsOf(s.tasks, s.recs);
    JobAt(s, a);
    SetPhaseJobs(s, a, ReservedMoved);
    assert FreeOk(s.slots, jobs, s.reserved, s.free);
    SwapReserved(s.reserved, jobs, s.free, out, a);
  }

  lemma RecordPool(s: Node, a: Slot, t: Node, out: set<Chunk>)
    requires Ownership(s) && PoolOk(s, out) && CanRecord(s, a) && t == Record(s, a)
    ensures PoolOk(t, out)
  {
    NoRecord(s.tasks, s.recs, a);
    RecordJobs(s.tasks, s.recs, a, t.tasks[a].phase);
    SamePool(s, t, out);
  }

  lemma RecoverPool(s: Node, a: Slot, t: Node, out: set<Chunk>)
    requires PoolOk(s, out) && CanRecover(s, a) && t == Recover(s, a)
    ensures PoolOk(t, out)
  {
    RecoverJobs(s, a);
    SamePool(s, t, out);
  }

  /** A restart rebuilds the queue from the reserved-chunk records, without the
      chunks of the tasks it has to finish. */
  lemma CrashPool(s: Node)
    ensures PoolOk(Crash(s), {})
  {
    var t := Crash(s);
    assert JobsOf(t.tasks, t.recs) == s.recs;
    forall c ensures Named(s.recs, c) <==> InRecord(s, c) {
      if Named(s.recs, c) {
        var a :| a in s.recs && Uses(s.recs[a], c);
      }
      if InRecord(s, c) {
        var a :| a in s.recs && (c == s.recs[a].from || c == s.recs[a].to);
        assert Uses(s.recs[a], c);
      }
    }
  }

  lemma ClientPool(s: Node, e: ClientStep, t: Node, out: set<Chunk>)
    requires PoolOk(s, out) && ClientEnabled(s, e) && t == ClientNext(s, e)
    ensures PoolOk(t, out)
  {
    match e
    case PutStep(_, _) =>
    case DelStep(_) =>
    case CreateStep(_, _, _) =>
    case SealStep(_, _) =>
    case ApplyStep => ApplyPool(s, t, out);
  }

  lemma ApplyBlobPool(s: Node)
    requires CanApply(s) && (s.log[s.applied].Put? || s.log[s.applied].Del?)
    ensures var t := Apply(s);
      t.reserved == s.reserved && t.free == s.free && t.tasks == s.tasks && t.recs == s.recs
  {
  }

  lemma ApplyShardPool(s: Node)
    requires CanApply(s) && (s.log[s.applied].Create? || s.log[s.applied].Seal?)
    ensures var t := Apply(s);
      t.reserved == s.reserved && t.free == s.free && t.tasks == s.tasks && t.recs == s.recs
  {
  }

  lemma ApplyPool(s: Node, t: Node, out: set<Chunk>)
    requires PoolOk(s, out) && CanApply(s) && t == Apply(s)
    ensures PoolOk(t, out)
  {
    if s.log[s.applied].Put? || s.log[s.applied].Del? { ApplyBlobPool(s); } else { ApplyShardPool(s); }
  }

  lemma HostPool(s: Node, e: HostStep, out: set<Chunk>)
    requires Ownership(s) && PoolOk(s, out) && HostEnabled(s, e)
    ensures PoolOk(HostNext(s, e), LeftOut(s, Host(e), out))
  {
    match e
    case CheckpointStep =>
    case CrashStep => CrashPool(s);
    case RecoverStep(a) => RecoverPool(s, a, Recover(s, a), out);
    case EndRecoveryStep =>
  }

  /** Copying changes nothing here between the start of a task and its record. */
  lemma CopyingPool(s: Node, a: Slot, e: CopyStep, out: set<Chunk>)
    requires PoolOk(s, out) && CopyEnabled(s, a, e) && !e.StartStep? && !e.FailStep? && !e.RecordStep?
    ensures PoolOk(CopyNext(s, a, e), out)
  {
    var t := CopyNext(s, a, e);
    if !e.SweepStep? { SetPhaseJobs(s, a, t.tasks[a].phase); }
    match e
    case PurgeStep =>
    case QueryStep(_, _) =>
    case CopyBlobStep(_) =>
    case EndCopyStep =>
    case SweepStep(_) =>
    case FlushStep =>
  }

  lemma CollectPool(s: Node, a: Slot, e: CopyStep, out: set<Chunk>)
    requires Ownership(s) && PoolOk(s, out) && CopyEnabled(s, a, e)
    ensures PoolOk(CopyNext(s, a, e), out)
  {
    match e
    case StartStep(to, emergent) =>
      StartFacts(s, a, to, emergent);
      StartPool(s, a, to, emergent, Start(s, a, to, emergent), out);
    case FailStep => FailPool(s, a, Fail(s, a), out);
    case RecordStep => RecordPool(s, a, Record(s, a), out);
    case _ => CopyingPool(s, a, e, out);
  }

  lemma MovingPool(s: Node, a: Slot, e: MoveStep, out: set<Chunk>)
    requires PoolOk(s, out) && MoveEnabled(s, a, e) && !e.MoveReservedStep? && !e.DestroyStep?
    ensures PoolOk(MoveNext(s, a, e), out)
  {
    var t := MoveNext(s, a, e);
    if !e.MoveShardStep? { SetPhaseJobs(s, a, t.tasks[a].phase); }
    match e
    case SwapStep(_) =>
    case MovePgStep =>
    case MoveShardStep(_) =>
    case EndShardsStep =>
    case FlushSwapStep =>
  }

  lemma MovePool(s: Node, a: Slot, e: MoveStep, t: Node, out: set<Chunk>)
    requires Ownership(s) && PoolOk(s, out) && MoveEnabled(s, a, e) && t == MoveNext(s, a, e)
    requires e.DestroyStep? ==> s.tasks[a].job.from in s.reserved && s.tasks[a].job.to !in s.reserved
    ensures PoolOk(t, LeftOut(s, Move(a, e), out))
  {
    if e.MoveReservedStep? {
      MoveReservedPool(s, a, t, out);
    } else if e.DestroyStep? {
      DestroyPool(s, a, t, out);
    } else {
      MovingPool(s, a, e, out);
    }
  }

  lemma ReservedSwapped(s: Node, a: Slot)
    requires Inv(s) && CanDestroy(s, a)
    ensures s.tasks[a].job.from in s.reserved && s.tasks[a].job.to !in s.reserved
  {
    assert PhaseOk(ViewOf(s), a, s.tasks[a].job, ReservedMoved);
  }

  lemma StepPool(s: Node, e: Step, out: set<Chunk>)
    requires Inv(s) && PoolOk(s, out) && Enabled(s, e)
    ensures PoolOk(Next(s, e), LeftOut(s, e, out))
  {
    match e
    case Client(c) => ClientPool(s, c, ClientNext(s, c), out);
    case Host(h) => HostPool(s, h, out);
    case Collect(a, p) => CollectPool(s, a, p, out);
    case Move(a, m) =>
      if m.DestroyStep? { ReservedSwapped(s, a); }
      MovePool(s, a, m, MoveNext(s, a, m), out);
  }

  lemma {:induction false} RunPool(s: Node, steps: seq<Step>, out: set<Chunk>)
    requires Inv(s) && PoolOk(s, out) && IsRun(s, steps)
    ensures PoolOk(RunOf(s, steps), LeftOutBy(s, steps, out))
    decreases |steps|
  {
    if steps != [] {
      StepInv(s, steps[0]);
      StepPool(s, steps[0], out);
      RunPool(Next(s, steps[0]), steps[1..], LeftOut(s, steps[0], out));
    }
  }

  /** In every state of every run a reserved chunk is queued exactly when no task
      and no record names it and the last recovery did not finish a task that moved
      off it. */
  lemma QueueIsExact(s0: Node, steps: seq<Step>, c: Chunk)
    requires Init(s0) && IsRun(s0, steps)
    ensures var s := RunOf(s0, steps);
      c in s.free <==>
        c in s.reserved && !Named(JobsOf(s.tasks, s.recs), c) && c !in LeftOutBy(s0, steps, {})
  {
    PoolAlways(s0, steps);
    QueuedReserved(RunOf(s0, steps));
  }

  lemma PoolAlways(s0: Node, steps: seq<Step>)
    requires Init(s0) && IsRun(s0, steps)
    ensures Ownership(RunOf(s0, steps)) && PoolOk(RunOf(s0, steps), LeftOutBy(s0, steps, {}))
  {
    InitInv(s0);
    InitPool(s0);
    RunPool(s0, steps, {});
    RunInv(s0, steps);
  }

  lemma InitPool(s: Node)
    requires Init(s)
    ensures PoolOk(s, {})
  {
    assert JobsOf(s.tasks, s.recs) == map[];
  }

  lemma QueuedReserved(s: Node)
    requires Ownership(s)
    ensures s.free <= s.reserved
  {
    assert FreeOk(s.slots, JobsOf(s.tasks, s.recs), s.reserved, s.free);
  }

  // ------------------------------------------------- what a queued chunk is

  /** A chunk of no slot and of no job is referred to by nothing. */
  lemma UnnamedUnreferenced(s: Node, c: Chunk)
    requires RecsMatch(s.tasks, s.recs) && Placement(s) && !Named(JobsOf(s.tasks, s.recs), c)
    requires forall a :: a in s.slots ==> s.slots[a] != c
    ensures Unreferenced(s, c)
  {
    forall a | a in s.recs ensures !Uses(s.recs[a], c) {
      JobAt(s, a);
    }
    forall sh | sh in s.shards ensures s.shards[sh].chunk != c {
      assert InHome(s.slots, s.recs, s.shards[sh].slot, s.shards[sh].chunk);
    }
    UnnamedEntries(s, s.index, c);
    UnnamedEntries(s, s.dIndex, c);
  }

  lemma UnnamedEntries(s: Node, index: Index, c: Chunk)
    requires PlacedIndex(s.slots, s.recs, s.shards, index)
    requires (forall a :: a in s.slots ==> s.slots[a] != c) && (forall a :: a in s.recs ==> !Uses(s.recs[a], c))
    ensures forall k :: IsLive(index, k) ==> index[k].pba.chunk != c
  {
  }

  lemma QueuedIsFree(s: Node, c: Chunk)
    requires Ownership(s) && Placement(s) && c in s.free
    ensures Unreferenced(s, c)
  {
    assert FreeOk(s.slots, JobsOf(s.tasks, s.recs), s.reserved, s.free);
    UnnamedUnreferenced(s, c);
  }

  /** In every state of every run nothing refers to a queued chunk: no slot, no shard
      record, no live entry in memory or durable, no task record. */
  lemma QueuedUnreferenced(s0: Node, steps: seq<Step>, c: Chunk)
    requires Init(s0) && IsRun(s0, steps) && c in RunOf(s0, steps).free
    ensures Unreferenced(RunOf(s0, steps), c)
  {
    InitInv(s0);
    RunInv(s0, steps);
    QueuedIsFree(RunOf(s0, steps), c);
  }

  /** The end of a task gives the chunk it moved off back to the queue, unless it was a
      redo, with nothing referring to it. */
  lemma DestroyReturns(s: Node, a: Slot)
    requires Inv(s) && CanDestroy(s, a)
    ensures var t, from := Destroy(s, a), s.tasks[a].job.from;
      && from in t.reserved && (from in t.free <==> !s.recovering)
      && (!s.recovering ==> Unreferenced(t, from))
  {
    DestroyInv(s, a);
    ReservedSwapped(s, a);
    DestroyedQueue(s, a);
    if !s.recovering { QueuedIsFree(Destroy(s, a), s.tasks[a].job.from); }
  }

  lemma DestroyedQueue(s: Node, a: Slot)
    requires Ownership(s) && CanDestroy(s, a)
    ensures Destroy(s, a).reserved == s.reserved
    ensures s.tasks[a].job.from in Destroy(s, a).free <==> !s.recovering
  {
    JobAt(s, a);
    assert FreeOk(s.slots, JobsOf(s.tasks, s.recs), s.reserved, s.free);
    assert Uses(s.tasks[a].job, s.tasks[a].job.from);
  }

  /** A task that fails before its record gives the chunk it was copying to back, with
      nothing referring to it, and its slot stays where it was. */
  lemma FailReturns(s: Node, a: Slot)
    requires Inv(s) && CanFail(s, a)
    ensures var t := Fail(s, a);
      && s.tasks[a].job.to in t.free && Unreferenced(t, s.tasks[a].job.to)
      && a in t.slots && t.slots[a] == s.tasks[a].job.from && !HasJob(t, a)
  {
    FailInv(s, a);
    FailedQueue(s, a);
    QueuedIsFree(Fail(s, a), s.tasks[a].job.to);
  }

  lemma FailedQueue(s: Node, a: Slot)
    requires Ownership(s) && CanFail(s, a)
    ensures var t := Fail(s, a);
      s.tasks[a].job.to in t.free && a in t.slots && t.slots[a] == s.tasks[a].job.from && !HasJob(t, a)
  {
    JobAt(s, a);
    NoRecord(s.tasks, s.recs, a);
    assert JobsOwn(s.slots, JobsOf(s.tasks, s.recs), s.recs, s.reserved);
  }

  // ---------------------------------------------------------------- counting

  /** Each job holds one reserved chunk, no two the same. */
  ghost predicate OneEach(reserved: set<Chunk>, jobs: map<Slot, Job>) {
    JobsDisjoint(jobs) && (forall a :: a in jobs ==> (jobs[a].to in reserved) != (jobs[a].from in reserved))
  }

  ghost function Held(reserved: set<Chunk>, jobs: map<Slot, Job>): set<Chunk> {
    set c | c in reserved && Named(jobs, c)
  }

  function OneOf(reserved: set<Chunk>, j: Job): Chunk {
    if j.to in reserved then j.to else j.from
  }

  lemma HeldLess(reserved: set<Chunk>, jobs: map<Slot, Job>, a: Slot)
    requires OneEach(reserved, jobs) && a in jobs
    ensures OneEach(reserved, jobs - {a})
    ensures OneOf(reserved, jobs[a]) !in Held(reserved, jobs - {a})
    ensures Held(reserved, jobs) == Held(reserved, jobs - {a}) + {OneOf(reserved, jobs[a])}
  {
    forall c ensures Named(jobs - {a}, c) <==> Named(jobs, c) && !Uses(jobs[a], c) {
      NamedLess(jobs, a, c);
    }
    assert Uses(jobs[a], jobs[a].from) && Uses(jobs[a], jobs[a].to);
    assert Named(jobs, jobs[a].from) && Named(jobs, jobs[a].to);
  }

  lemma {:induction false} HeldCount(reserved: set<Chunk>, jobs: map<Slot, Job>)
    requires OneEach(reserved, jobs)
    ensures |Held(reserved, jobs)| == |jobs|
    decreases |jobs|
  {
    if jobs == map[] {
      assert Held(reserved, jobs) == {};
    } else {
      var a :| a in jobs;
      HeldLess(reserved, jobs, a);
      assert (jobs - {a}).Keys == jobs.Keys - {a};
      HeldCount(reserved, jobs - {a});
    }
  }

  lemma PoolCount(reserved: set<Chunk>, jobs: map<Slot, Job>, free: set<Chunk>, out: set<Chunk>)
    requires OneEach(reserved, jobs) && Pooled(reserved, jobs, free, out) && free <= reserved
    ensures |free| + |jobs| + |out| == |reserved|
  {
    HeldCount(reserved, jobs);
    var held := Held(reserved, jobs);
    assert reserved == free + held + out && free !! held && (free + held) !! out;
  }

  lemma OneEachJob(s: Node)
    requires Ownership(s)
    ensures OneEach(s.reserved, JobsOf(s.tasks, s.recs)) && s.free <= s.reserved
  {
    assert JobsOwn(s.slots, JobsOf(s.tasks, s.recs), s.recs, s.reserved);
    QueuedReserved(s);
  }

  lemma CopyReserved(s: Node, a: Slot, e: CopyStep)
    requires CopyEnabled(s, a, e)
    ensures CopyNext(s, a, e).reserved == s.reserved
  {
    match e
    case StartStep(_, _) =>
    case PurgeStep =>
    case QueryStep(_, _) =>
    case CopyBlobStep(_) =>
    case EndCopyStep =>
    case SweepStep(_) =>
    case FlushStep =>
    case FailStep =>
    case RecordStep =>
  }

  lemma MoveReservedCount(s: Node, a: Slot)
    requires Ownership(s) && CanMoveReserved(s, a)
    ensures |MoveReserved(s, a).reserved| == |s.reserved|
  {
    OneReserved(s, a);
  }

  lemma MoveCount(s: Node, a: Slot, e: MoveStep)
    requires Ownership(s) && MoveEnabled(s, a, e)
    ensures |MoveNext(s, a, e).reserved| == |s.reserved|
  {
    match e
    case SwapStep(_) =>
    case MovePgStep =>
    case MoveShardStep(_) =>
    case EndShardsStep =>
    case FlushSwapStep =>
    case MoveReservedStep => MoveReservedCount(s, a);
    case DestroyStep =>
  }

  lemma ClientReserved(s: Node, e: ClientStep)
    requires ClientEnabled(s, e)
    ensures ClientNext(s, e).reserved == s.reserved
  {
    match e
    case PutStep(_, _) =>
    case DelStep(_) =>
    case CreateStep(_, _, _) =>
    case SealStep(_, _) =>
    case ApplyStep =>
      if s.log[s.applied].Put? || s.log[s.applied].Del? { ApplyBlobPool(s); } else { ApplyShardPool(s); }
  }

  lemma HostReserved(s: Node, e: HostStep)
    requires HostEnabled(s, e)
    ensures HostNext(s, e).reserved == s.reserved
  {
    match e
    case CheckpointStep =>
    case CrashStep =>
    case RecoverStep(_) =>
    case EndRecoveryStep =>
  }

  lemma StepCount(s: Node, e: Step)
    requires Ownership(s) && Enabled(s, e)
    ensures |Next(s, e).reserved| == |s.reserved|
  {
    match e
    case Client(c) => ClientReserved(s, c);
    case Host(h) => HostReserved(s, h);
    case Collect(a, p) => CopyReserved(s, a, p);
    case Move(a, m) => MoveCount(s, a, m);
  }

  lemma {:induction false} RunCount(s: Node, steps: seq<Step>)
    requires Inv(s) && IsRun(s, steps)
    ensures |RunOf(s, steps).reserved| == |s.reserved|
    decreases |steps|
  {
    if steps != [] {
      StepInv(s, steps[0]);
      StepCount(s, steps[0]);
      RunCount(Next(s, steps[0]), steps[1..]);
    }
  }

  /** The number of reserved chunks never changes, and the queue is short of it by
      one for each task or record and by one for each task the last recovery
      finished; it is empty exactly when these are as many as the reserved chunks. */
  lemma QueueSize(s0: Node, steps: seq<Step>)
    requires Init(s0) && IsRun(s0, steps)
    ensures var s := RunOf(s0, steps);
      && |s.reserved| == |s0.reserved|
      && |s.free| + |JobsOf(s.tasks, s.recs)| + |LeftOutBy(s0, steps, {})| == |s0.reserved|
      && (s.free == {} <==> |JobsOf(s.tasks, s.recs)| + |LeftOutBy(s0, steps, {})| == |s0.reserved|)
  {
    var s := RunOf(s0, steps);
    InitInv(s0);
    RunCount(s0, steps);
    PoolAlways(s0, steps);
    OneEachJob(s);
    PoolCount(s.reserved, JobsOf(s.tasks, s.recs), s.free, LeftOutBy(s0, steps, {}));
  }
}
