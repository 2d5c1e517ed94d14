/** Finishing a recorded GC task: it can always be finished, wherever the crash
    fell, and it always ends in the same placement. */
module GcRedo {
  import opened Storage
  import opened GcMachine
  import opened GcInvariant
  import opened GcSteps
  import opened GcTaskSteps
  import opened GcTheorems

  /** The superblocks a GC task rewrites. */
  datatype Superblocks = Superblocks(slots: map<Slot, Chunk>, shards: map<ShardId, Shard>, reserved: set<Chunk>,
                                     recs: map<Slot, Job>)

  function SuperblocksOf(s: Node): Superblocks {
    Superblocks(s.slots, s.shards, s.reserved, s.recs)
  }

  function ShardsMovedTo(shards: map<ShardId, Shard>, a: Slot, c: Chunk): map<ShardId, Shard> {
    map sh | sh in shards :: if shards[sh].slot == a then shards[sh].(chunk := c) else shards[sh]
  }

  /** Where the recorded task of slot `a` is heading: the slot and all its shards
      on `to`, `from` reserved instead of `to`, the record gone. */
  function Target(s: Node, a: Slot): Superblocks
    requires a in s.recs
  {
    var j := s.recs[a];
    Superblocks(s.slots[a := j.to], ShardsMovedTo(s.shards, a, j.to), s.reserved - {j.to} + {j.from}, s.recs - {a})
  }

  // ------------------------------------------------------ the task's own steps

  lemma SwapTarget(s: Node, a: Slot, k: Key)
    requires a in s.recs && CanSwap(s, a, k)
    ensures Target(Swap(s, a, k), a) == Target(s, a)
  {
  }

  lemma TaskOfRecord(s: Node, a: Slot)
    requires Ownership(s) && a in s.recs && a in s.tasks
    ensures s.tasks[a].job == s.recs[a]
  {
  }

  lemma MovePgTarget(s: Node, a: Slot)
    requires a in s.recs && CanMovePg(s, a) && s.tasks[a].job == s.recs[a]
    ensures Target(MovePg(s, a), a) == Target(s, a)
  {
    assert s.slots[a := s.recs[a].to][a := s.recs[a].to] == s.slots[a := s.recs[a].to];
  }

  lemma ShardTarget(shards: map<ShardId, Shard>, a: Slot, sh: ShardId, c: Chunk)
    requires sh in shards && shards[sh].slot == a
    ensures ShardsMovedTo(shards[sh := shards[sh].(chunk := c)], a, c) == ShardsMovedTo(shards, a, c)
  {
  }

  lemma MoveShardTarget(s: Node, a: Slot, sh: ShardId)
    requires Inv(s) && a in s.recs && CanMoveShard(s, a, sh)
    ensures Target(MoveShard(s, a, sh), a) == Target(s, a)
  {
    FromShards(s, a, sh);
    ShardTarget(s.shards, a, sh, s.tasks[a].job.to);
  }

  lemma MoveReservedTarget(s: Node, a: Slot)
    requires a in s.recs && CanMoveReserved(s, a) && s.tasks[a].job == s.recs[a]
    requires (s.recs[a].to in s.reserved) != (s.recs[a].from in s.reserved) && s.recs[a].from != s.recs[a].to
    ensures Target(MoveReserved(s, a), a) == Target(s, a)
  {
  }

  lemma AtTarget(s: Node, a: Slot)
    requires a in s.recs && a in s.slots && s.slots[a] == s.recs[a].to && ShardsIn(s.shards, a, s.recs[a].to)
    requires s.recs[a].from in s.reserved && s.recs[a].to !in s.reserved
    ensures Target(s, a) == SuperblocksOf(s).(recs := s.recs - {a})
  {
    var t := Target(s, a);
    assert t.slots == s.slots;
    assert t.shards == s.shards by {
      assert forall sh :: sh in s.shards && s.shards[sh].slot == a ==> InSlot(s.shards, sh, a);
    }
    assert t.reserved == s.reserved;
  }

  /** The last step reaches the target, and then no live entry of the slot, in
      memory or durable, is in `from`. */
  lemma DestroyReaches(s: Node, a: Slot)
    requires Inv(s) && a in s.recs && CanDestroy(s, a)
    ensures SuperblocksOf(Destroy(s, a)) == Target(s, a)
    ensures AllIn(s.shards, s.index, a, s.recs[a].to) && AllIn(s.shards, s.dIndex, a, s.recs[a].to)
  {
    TaskOfRecord(s, a);
    ReservedSlot(s, a);
    AtTarget(s, a);
  }

  lemma PgStepTarget(s: Node, a: Slot)
    requires Inv(s) && a in s.recs && CanMovePg(s, a)
    ensures Target(MovePg(s, a), a) == Target(s, a)
  {
    TaskOfRecord(s, a);
    MovePgTarget(s, a);
  }

  lemma ReservedStepTarget(s: Node, a: Slot)
    requires Inv(s) && a in s.recs && CanMoveReserved(s, a)
    ensures Target(MoveReserved(s, a), a) == Target(s, a)
  {
    TaskOfRecord(s, a);
    OneReserved(s, a);
    MoveReservedTarget(s, a);
  }

  lemma MoveTarget(s: Node, a: Slot, e: MoveStep)
    requires Inv(s) && a in s.recs && MoveEnabled(s, a, e)
    ensures e.DestroyStep? ==> SuperblocksOf(MoveNext(s, a, e)) == Target(s, a)
    ensures !e.DestroyStep? ==> a in MoveNext(s, a, e).recs && Target(MoveNext(s, a, e), a) == Target(s, a)
  {
    match e
    case SwapStep(k) => SwapTarget(s, a, k);
    case MovePgStep => PgStepTarget(s, a);
    case MoveShardStep(sh) => MoveShardTarget(s, a, sh);
    case EndShardsStep =>
    case FlushSwapStep =>
    case MoveReservedStep => ReservedStepTarget(s, a);
    case DestroyStep => DestroyReaches(s, a);
  }

  // --------------------------------------- crashes, recoveries and requests

  /** Steps that rewrite no superblock, and those of the slot's own task. */
  predicate Undisturbed(s: Node, e: Step, a: Slot)
    requires Enabled(s, e)
  {
    match e
    case Client(c) => c != ApplyStep || s.log[s.applied].Put? || s.log[s.applied].Del?
    case Host(_) => true
    case Collect(_, p) => p != RecordStep
    case Move(b, _) => b == a
  }

  lemma ClientSuperblocks(s: Node, e: ClientStep)
    requires ClientEnabled(s, e) && (e != ApplyStep || s.log[s.applied].Put? || s.log[s.applied].Del?)
    ensures SuperblocksOf(ClientNext(s, e)) == SuperblocksOf(s)
  {
    match e
    case PutStep(_, _) =>
    case DelStep(_) =>
    case CreateStep(_, _, _) =>
    case SealStep(_, _) =>
    case ApplyStep => ApplyBlobSuperblocks(s);
  }

  lemma ApplyBlobSuperblocks(s: Node)
    requires CanApply(s) && (s.log[s.applied].Put? || s.log[s.applied].Del?)
    ensures SuperblocksOf(Apply(s)) == SuperblocksOf(s)
  {
  }

  lemma HostSuperblocks(s: Node, e: HostStep)
    requires HostEnabled(s, e)
    ensures SuperblocksOf(HostNext(s, e)) == SuperblocksOf(s)
  {
    match e
    case CheckpointStep =>
    case CrashStep =>
    case RecoverStep(_) =>
    case EndRecoveryStep =>
  }

  lemma CopySuperblocks(s: Node, a: Slot, e: CopyStep)
    requires CopyEnabled(s, a, e) && e != RecordStep
    ensures SuperblocksOf(CopyNext(s, a, e)) == SuperblocksOf(s)
  {
    match e
    case StartStep(_, _) =>
    case PurgeStep =>
    case QueryStep(_, _) =>
    case CopyBlobStep(_) =>
    case EndCopyStep =>
    case SweepStep(_) =>
    case FlushStep =>
    case FailStep =>
  }

  lemma SameTarget(s: Node, t: Node, a: Slot)
    requires a in s.recs && SuperblocksOf(t) == SuperblocksOf(s)
    ensures a in t.recs && Target(t, a) == Target(s, a)
  {
    assert SuperblocksOf(t).recs == SuperblocksOf(s).recs && SuperblocksOf(t).slots == SuperblocksOf(s).slots;
    assert SuperblocksOf(t).shards == SuperblocksOf(s).shards && SuperblocksOf(t).reserved == SuperblocksOf(s).reserved;
  }

  lemma UndisturbedStep(s: Node, e: Step, a: Slot)
    requires Inv(s) && a in s.recs && Enabled(s, e) && Undisturbed(s, e, a)
    ensures e == Move(a, DestroyStep) ==> SuperblocksOf(Next(s, e)) == Target(s, a)
    ensures e != Move(a, DestroyStep) ==> a in Next(s, e).recs && Target(Next(s, e), a) == Target(s, a)
  {
    match e
    case Client(c) => ClientSuperblocks(s, c); SameTarget(s, ClientNext(s, c), a);
    case Host(h) => HostSuperblocks(s, h); SameTarget(s, HostNext(s, h), a);
    case Collect(b, p) => CopySuperblocks(s, b, p); SameTarget(s, CopyNext(s, b, p), a);
    case Move(_, m) => MoveTarget(s, a, m);
  }

  /** A run that ends with the destruction of the task record and in which no other step
      rewrites a superblock. */
  predicate Completes(s: Node, steps: seq<Step>, a: Slot)
    decreases |steps|
  {
    && steps != [] && Enabled(s, steps[0]) && Undisturbed(s, steps[0], a)
    && (if steps[0] == Move(a, DestroyStep) then |steps| == 1 else Completes(Next(s, steps[0]), steps[1..], a))
  }

  lemma {:induction false} CompletesIsRun(s: Node, steps: seq<Step>, a: Slot)
    requires Completes(s, steps, a)
    ensures IsRun(s, steps)
    decreases |steps|
  {
    if steps[0] == Move(a, DestroyStep) {
      assert IsRun(Next(s, steps[0]), steps[1..]);
    } else {
      CompletesIsRun(Next(s, steps[0]), steps[1..], a);
    }
  }

  /** When nothing else rewrites superblocks meanwhile, all of them end as the target
      says, however many crashes and redone steps lie in between. */
  lemma {:induction false} UndisturbedRedo(s: Node, steps: seq<Step>, a: Slot)
    requires Inv(s) && a in s.recs && Completes(s, steps, a)
    ensures IsRun(s, steps) && SuperblocksOf(RunOf(s, steps)) == Target(s, a)
    ensures a !in RunOf(s, steps).recs
    ensures AllIn(RunOf(s, steps).shards, RunOf(s, steps).index, a, s.recs[a].to)
    ensures AllIn(RunOf(s, steps).shards, RunOf(s, steps).dIndex, a, s.recs[a].to)
    decreases |steps|
  {
    CompletesIsRun(s, steps, a);
    StepInv(s, steps[0]);
    UndisturbedStep(s, steps[0], a);
    if steps[0] == Move(a, DestroyStep) {
      DestroyReaches(s, a);
    } else {
      RecordStands(s, steps[0], a);
      UndisturbedRedo(Next(s, steps[0]), steps[1..], a);
    }
  }

  // ---------------------------------------------- every run, whatever else runs

  /** A run of any steps up to the destruction of the record of slot `a`. */
  predicate EndsAt(s: Node, steps: seq<Step>, a: Slot)
    decreases |steps|
  {
    && steps != [] && Enabled(s, steps[0])
    && (if steps[0] == Move(a, DestroyStep) then |steps| == 1 else EndsAt(Next(s, steps[0]), steps[1..], a))
  }

  ghost predicate NoEntryAt(index: Index, c: Chunk) {
    forall k :: IsLive(index, k) ==> index[k].pba.chunk != c
  }

  /** The placement job `j` of slot `a` is for: the slot, its shards and its live
      entries on `to`, no live entry of any slot in `from`, in memory or durable,
      `from` reserved instead of `to`, and the record gone. Outside recovery `from`
      is back in the queue of reserved chunks; a redo does not put it there. */
  ghost predicate Landed(s: Node, a: Slot, j: Job) {
    && a in s.slots && s.slots[a] == j.to && a !in s.recs
    && ShardsIn(s.shards, a, j.to) && AllIn(s.shards, s.index, a, j.to) && AllIn(s.shards, s.dIndex, a, j.to)
    && NoEntryAt(s.index, j.from) && NoEntryAt(s.dIndex, j.from)
    && j.from in s.reserved && j.to !in s.reserved
    && (j.from in s.free <==> !s.recovering)
  }

  lemma ClientRecs(s: Node, e: ClientStep)
    requires ClientEnabled(s, e)
    ensures ClientNext(s, e).recs == s.recs
  {
    match e
    case PutStep(_, _) =>
    case DelStep(_) =>
    case CreateStep(_, _, _) =>
    case SealStep(_, _) =>
    case ApplyStep => ApplyRecs(s);
  }

  lemma ApplyRecs(s: Node)
    requires CanApply(s)
    ensures Apply(s).recs == s.recs
  {
    if s.log[s.applied].Put? || s.log[s.applied].Del? { ApplyBlobRecs(s); } else { ApplyShardRecs(s); }
  }

  lemma ApplyBlobRecs(s: Node)
    requires CanApply(s) && (s.log[s.applied].Put? || s.log[s.applied].Del?)
    ensures Apply(s).recs == s.recs
  {
  }

  lemma ApplyShardRecs(s: Node)
    requires CanApply(s) && (s.log[s.applied].Create? || s.log[s.applied].Seal?)
    ensures Apply(s).recs == s.recs
  {
  }

  /** A copy step writes at most its own record. */
  lemma CopyRecs(s: Node, b: Slot, e: CopyStep)
    requires CopyEnabled(s, b, e)
    ensures e != RecordStep ==> CopyNext(s, b, e).recs == s.recs
    ensures e == RecordStep ==> b in s.tasks && CopyNext(s, b, e).recs == s.recs[b := s.tasks[b].job]
  {
    if e != RecordStep {
      CopySuperblocks(s, b, e);
      assert SuperblocksOf(CopyNext(s, b, e)).recs == SuperblocksOf(s).recs;
    }
  }

  lemma MoveRecs(s: Node, b: Slot, e: MoveStep)
    requires MoveEnabled(s, b, e)
    ensures MoveNext(s, b, e).recs == if e == DestroyStep then s.recs - {b} else s.recs
  {
    match e
    case SwapStep(_) =>
    case MovePgStep =>
    case MoveShardStep(_) =>
    case EndShardsStep =>
    case FlushSwapStep =>
    case MoveReservedStep =>
    case DestroyStep =>
  }

  lemma HostRecs(s: Node, e: HostStep)
    requires HostEnabled(s, e)
    ensures HostNext(s, e).recs == s.recs
  {
    HostSuperblocks(s, e);
    assert SuperblocksOf(HostNext(s, e)).recs == SuperblocksOf(s).recs;
  }

  lemma RecordOnce(s: Node, a: Slot)
    requires RecsMatch(s.tasks, s.recs) && CopyEnabled(s, a, RecordStep)
    ensures a !in s.recs
  {
  }

  /** A task record stands until its own task destroys it, whatever other tasks,
      clients, checkpoints and crashes do. */
  lemma RecordStands(s: Node, e: Step, a: Slot)
    requires RecsMatch(s.tasks, s.recs) && a in s.recs && Enabled(s, e) && e != Move(a, DestroyStep)
    ensures a in Next(s, e).recs && Next(s, e).recs[a] == s.recs[a]
  {
    match e
    case Client(c) => ClientRecs(s, c);
    case Host(h) => HostRecs(s, h);
    case Collect(b, p) =>
      CopyRecs(s, b, p);
      if p == RecordStep { RecordOnce(s, b); }
    case Move(b, m) => MoveRecs(s, b, m);
  }

  lemma FromEmpty(s: Node, a: Slot, index: Index)
    requires Ownership(s) && PlacedIndex(s.slots, s.recs, s.shards, index) && a in s.recs
    requires AllIn(s.shards, index, a, s.recs[a].to) && s.recs[a].from != s.recs[a].to
    ensures NoEntryAt(index, s.recs[a].from)
  {
    JobAt(s, a);
    forall k | IsLive(index, k) ensures index[k].pba.chunk != s.recs[a].from {
      if index[k].pba.chunk == s.recs[a].from {
        HomeUnique(s, a, s.shards[k.shard].slot, index[k].pba.chunk);
      }
    }
  }

  lemma DestroyQueues(s: Node, a: Slot)
    requires Ownership(s) && a in s.recs && CanDestroy(s, a)
    ensures s.recs[a].from in Destroy(s, a).free <==> !Destroy(s, a).recovering
  {
    TaskOfRecord(s, a);
    JobAt(s, a);
    assert FreeOk(s.slots, JobsOf(s.tasks, s.recs), s.reserved, s.free);
    assert Uses(s.recs[a], s.recs[a].from);
  }

  lemma DestroyLands(s: Node, a: Slot)
    requires Inv(s) && a in s.recs && CanDestroy(s, a)
    ensures Landed(Destroy(s, a), a, s.recs[a])
  {
    TaskOfRecord(s, a);
    ReservedSlot(s, a);
    JobAt(s, a);
    assert JobsOwn(s.slots, JobsOf(s.tasks, s.recs), s.recs, s.reserved);
    assert PhaseOk(ViewOf(s), a, s.recs[a], ReservedMoved);
    FromEmpty(s, a, s.index);
    FromEmpty(s, a, s.dIndex);
    DestroyQueues(s, a);
  }

  /** One step, whoever's it is: the record of slot `a` stands, or the slot lands. */
  lemma StepTarget(s: Node, e: Step, t: Node, a: Slot)
    requires Inv(s) && a in s.recs && Enabled(s, e) && t == Next(s, e)
    ensures Inv(t)
    ensures if e == Move(a, DestroyStep) then Landed(t, a, s.recs[a]) else a in t.recs && t.recs[a] == s.recs[a]
  {
    StepInv(s, e);
    if e == Move(a, DestroyStep) {
      DestroyLands(s, a);
    } else {
      RecordStands(s, e, a);
    }
  }

  /** Whatever runs in between - crashes, redone steps, other tasks at any point of
      their own work, their redo, commits of every kind - when the record of slot `a`
      is destroyed the slot has landed where the record says. */
  lemma {:induction false} RedoEndsInTarget(s: Node, steps: seq<Step>, a: Slot)
    requires Inv(s) && a in s.recs && EndsAt(s, steps, a)
    ensures IsRun(s, steps) && Landed(RunOf(s, steps), a, s.recs[a])
    decreases |steps|
  {
    var t := Next(s, steps[0]);
    StepTarget(s, steps[0], t, a);
    if steps[0] == Move(a, DestroyStep) {
      assert IsRun(t, steps[1..]);
    } else {
      RedoEndsInTarget(t, steps[1..], a);
    }
  }

  lemma {:induction false} CompletesEnds(s: Node, steps: seq<Step>, a: Slot)
    requires Completes(s, steps, a)
    ensures EndsAt(s, steps, a)
    decreases |steps|
  {
    if steps[0] != Move(a, DestroyStep) { CompletesEnds(Next(s, steps[0]), steps[1..], a); }
  }

  /** So does every redo after a crash at any point after the record was written. */
  lemma CrashRedoEndsInTarget(s: Node, redo: seq<Step>, a: Slot)
    requires Inv(s) && a in s.recs && EndsAt(Crash(s), redo, a)
    ensures IsRun(Crash(s), redo) && Landed(RunOf(Crash(s), redo), a, s.recs[a])
  {
    CrashInv(s);
    RedoEndsInTarget(Crash(s), redo, a);
  }

  // ------------------------------------------------------- redo never gets stuck

  function Rank(p: Phase): nat {
    match p
    case Swapping(_) => 5
    case PgMoved => 4
    case ShardsMoved => 3
    case Flushed => 2
    case ReservedMoved => 1
    case _ => 0
  }

  function ShardsAt(shards: map<ShardId, Shard>, c: Chunk): set<ShardId> {
    set sh | sh in shards && shards[sh].chunk == c
  }

  /** Work left within a phase. */
  function Left(s: Node, a: Slot): nat
    requires a in s.tasks
  {
    match s.tasks[a].phase
    case Swapping(pending) => |pending|
    case PgMoved => |ShardsAt(s.shards, s.tasks[a].job.from)|
    case _ => 0
  }

  ghost predicate Advances(s: Node, a: Slot, e: MoveStep) {
    && a in s.tasks && MoveEnabled(s, a, e)
    && (e.DestroyStep? || (var t := MoveNext(s, a, e);
          a in t.tasks && (Rank(t.tasks[a].phase) < Rank(s.tasks[a].phase) ||
            (Rank(t.tasks[a].phase) == Rank(s.tasks[a].phase) && Left(t, a) < Left(s, a)))))
  }

  lemma SwapAdvances(s: Node, a: Slot, k: Key)
    requires CanSwap(s, a, k)
    ensures Advances(s, a, SwapStep(k))
  {
    MapShrinks(s.tasks[a].phase.pending, k);
  }

  lemma MovePgAdvances(s: Node, a: Slot)
    requires CanMovePg(s, a)
    ensures Advances(s, a, MovePgStep)
  {
  }

  lemma MoveShardAdvances(s: Node, a: Slot, sh: ShardId)
    requires CanMoveShard(s, a, sh) && s.tasks[a].job.from != s.tasks[a].job.to
    ensures Advances(s, a, MoveShardStep(sh))
  {
    ShardShrinks(s.shards, sh, s.tasks[a].job.to);
  }

  lemma EndShardsAdvances(s: Node, a: Slot)
    requires InPhase(s, a, PgMoved) && ShardsAt(s.shards, s.tasks[a].job.from) == {}
    ensures Advances(s, a, EndShardsStep)
  {
    assert forall sh :: sh in s.shards ==> sh !in ShardsAt(s.shards, s.tasks[a].job.from);
  }

  lemma LateAdvances(s: Node, a: Slot)
    ensures InPhase(s, a, ShardsMoved) ==> Advances(s, a, FlushSwapStep)
    ensures InPhase(s, a, Flushed) ==> Advances(s, a, MoveReservedStep)
    ensures InPhase(s, a, ReservedMoved) ==> Advances(s, a, DestroyStep)
  {
  }

  /** The next step of a recorded task: always enabled, always progress. */
  lemma NextMove(s: Node, a: Slot) returns (e: MoveStep)
    requires a in s.tasks && !s.tasks[a].phase.BeforeRecord() && a in s.slots
    requires s.tasks[a].job.from != s.tasks[a].job.to
    ensures Advances(s, a, e)
  {
    var p := s.tasks[a].phase;
    if p.Swapping? && p.pending == map[] {
      MovePgAdvances(s, a);
      return MovePgStep;
    } else if p.Swapping? {
      var k :| k in p.pending;
      SwapAdvances(s, a, k);
      return SwapStep(k);
    } else if p.PgMoved? && ShardsAt(s.shards, s.tasks[a].job.from) == {} {
      EndShardsAdvances(s, a);
      return EndShardsStep;
    } else if p.PgMoved? {
      var sh :| sh in ShardsAt(s.shards, s.tasks[a].job.from);
      MoveShardAdvances(s, a, sh);
      return MoveShardStep(sh);
    }
    LateAdvances(s, a);
    return if p.ShardsMoved? then FlushSwapStep else if p.Flushed? then MoveReservedStep else DestroyStep;
  }

  lemma SlotOfJob(s: Node, a: Slot)
    requires Ownership(s) && a in s.tasks
    ensures a in s.slots
  {
    JobAt(s, a);
    assert JobsOwn(s.slots, JobsOf(s.tasks, s.recs), s.recs, s.reserved);
  }

  lemma MapShrinks(m: map<Key, Pba>, k: Key)
    requires k in m
    ensures |m - {k}| < |m|
  {
    assert (m - {k}).Keys == m.Keys - {k};
  }

  lemma ShardShrinks(shards: map<ShardId, Shard>, sh: ShardId, c: Chunk)
    requires sh in shards && shards[sh].chunk != c
    ensures |ShardsAt(shards[sh := shards[sh].(chunk := c)], shards[sh].chunk)| < |ShardsAt(shards, shards[sh].chunk)|
  {
    var from := shards[sh].chunk;
    assert ShardsAt(shards[sh := shards[sh].(chunk := c)], from) == ShardsAt(shards, from) - {sh};
  }

  /** Steps of slot `a`'s task alone, and taking it up after a restart. */
  ghost predicate OwnSteps(steps: seq<Step>, a: Slot) {
    forall i :: 0 <= i < |steps| ==> (steps[i].Move? && steps[i].slot == a) || steps[i] == Host(RecoverStep(a))
  }

  lemma OwnCons(e: Step, rest: seq<Step>, a: Slot)
    requires (e.Move? && e.slot == a) || e == Host(RecoverStep(a))
    ensures OwnSteps([e], a) && (OwnSteps(rest, a) ==> OwnSteps([e] + rest, a))
  {
  }

  lemma OwnStep(s: Node, e: Step, a: Slot)
    requires Enabled(s, e) && OwnSteps([e], a)
    ensures Next(s, e).recovering == s.recovering
  {
    assert [e][0] == e;
    if e.Move? { MoveKeepsRecovering(s, a, e.m); }
  }

  lemma MoveKeepsRecovering(s: Node, a: Slot, e: MoveStep)
    requires MoveEnabled(s, a, e)
    ensures MoveNext(s, a, e).recovering == s.recovering
  {
    match e
    case SwapStep(_) =>
    case MovePgStep =>
    case MoveShardStep(_) =>
    case EndShardsStep =>
    case FlushSwapStep =>
    case MoveReservedStep =>
    case DestroyStep =>
  }

  lemma {:induction false} OwnRun(s: Node, steps: seq<Step>, a: Slot)
    requires IsRun(s, steps) && OwnSteps(steps, a)
    ensures RunOf(s, steps).recovering == s.recovering
    decreases |steps|
  {
    if steps != [] {
      assert OwnSteps([steps[0]], a);
      OwnStep(s, steps[0], a);
      assert forall i :: 0 <= i < |steps[1..]| ==> steps[1..][i] == steps[i + 1];
      OwnRun(Next(s, steps[0]), steps[1..], a);
    }
  }

  lemma MoveFirst(s: Node, e: MoveStep, rest: seq<Step>, a: Slot)
    requires MoveEnabled(s, a, e) && e != DestroyStep && Completes(MoveNext(s, a, e), rest, a) && OwnSteps(rest, a)
    ensures Completes(s, [Move(a, e)] + rest, a) && OwnSteps([Move(a, e)] + rest, a)
  {
    OwnCons(Move(a, e), rest, a);
    assert ([Move(a, e)] + rest)[1..] == rest;
  }

  /** A running recorded task can be run to its end. */
  lemma {:induction false} TaskCompletes(s: Node, a: Slot) returns (steps: seq<Step>)
    requires Inv(s) && a in s.tasks && a in s.recs
    ensures Completes(s, steps, a) && OwnSteps(steps, a)
    decreases Rank(s.tasks[a].phase), Left(s, a)
  {
    SlotOfJob(s, a);
    OneReserved(s, a);
    var e := NextMove(s, a);
    if e.DestroyStep? {
      steps := [Move(a, e)];
      OwnCons(Move(a, e), [], a);
    } else {
      StepInv(s, Move(a, e));
      MoveRecs(s, a, e);
      var rest := TaskCompletes(MoveNext(s, a, e), a);
      MoveFirst(s, e, rest, a);
      steps := [Move(a, e)] + rest;
    }
  }

  lemma RedoCompletes(s: Node, a: Slot) returns (redo: seq<Step>)
    requires Inv(s) && CanRecover(s, a)
    ensures Completes(s, redo, a) && OwnSteps(redo, a)
  {
    RecoverInv(s, a);
    var rest := TaskCompletes(Recover(s, a), a);
    redo := [Host(RecoverStep(a))] + rest;
    RecoverFirst(s, rest, a);
  }

  lemma RecoverFirst(s: Node, rest: seq<Step>, a: Slot)
    requires CanRecover(s, a) && Completes(Recover(s, a), rest, a) && OwnSteps(rest, a)
    ensures Completes(s, [Host(RecoverStep(a))] + rest, a) && OwnSteps([Host(RecoverStep(a))] + rest, a)
  {
    OwnCons(Host(RecoverStep(a)), rest, a);
    assert ([Host(RecoverStep(a))] + rest)[1..] == rest;
  }

  /** After a crash at any point between the record and its destruction, recovery
      finishes the task, and in the same placement as finishing it without the
      crash. */
  lemma CrashRedoCompletes(s: Node, a: Slot) returns (redo: seq<Step>)
    requires Inv(s) && a in s.recs
    ensures Completes(Crash(s), redo, a)
    ensures IsRun(Crash(s), redo) && SuperblocksOf(RunOf(Crash(s), redo)) == Target(s, a)
  {
    CrashInv(s);
    redo := RedoCompletes(Crash(s), a);
    UndisturbedRedo(Crash(s), redo, a);
    SameTarget(s, Crash(s), a);
  }

  lemma {:induction false} RunJoins(s: Node, x: seq<Step>, t: Node, y: seq<Step>, u: Node)
    requires IsRun(s, x) && t == RunOf(s, x) && IsRun(t, y) && u == RunOf(t, y)
    ensures IsRun(s, x + y) && RunOf(s, x + y) == u
    decreases |x|
  {
    if x == [] {
      assert x + y == y;
    } else {
      var n := Next(s, x[0]);
      RunJoins(n, x[1..], t, y, u);
      ConsJoins(x, y);
      RunCons(s, x[0], n, x[1..] + y);
    }
  }

  lemma ConsJoins(x: seq<Step>, y: seq<Step>)
    requires x != []
    ensures [x[0]] + (x[1..] + y) == x + y
  {
  }

  lemma RunCons(s: Node, e: Step, n: Node, rest: seq<Step>)
    requires Enabled(s, e) && n == Next(s, e) && IsRun(n, rest)
    ensures IsRun(s, [e] + rest) && RunOf(s, [e] + rest) == RunOf(n, rest)
  {
    assert ([e] + rest)[1..] == rest;
  }

  /** One recorded task of a restarted node redone. */
  lemma RedoOne(s: Node, a: Slot) returns (redo: seq<Step>, t: Node)
    requires Inv(s) && s.recovering && a in s.recs
    ensures IsRun(s, redo) && t == RunOf(s, redo)
    ensures Inv(t) && t.recovering && t.recs == s.recs - {a}
  {
    if a in s.tasks {
      redo := TaskCompletes(s, a);
    } else {
      redo := RedoCompletes(s, a);
    }
    UndisturbedRedo(s, redo, a);
    OwnRun(s, redo, a);
    RunInv(s, redo);
    t := RunOf(s, redo);
    assert SuperblocksOf(t).recs == Target(s, a).recs;
  }

  lemma RecoveryEnds(s: Node)
    requires CanEndRecovery(s)
    ensures IsRun(s, [Host(EndRecoveryStep)]) && RunOf(s, [Host(EndRecoveryStep)]) == EndRecovery(s)
  {
    assert [Host(EndRecoveryStep)][1..] == [];
    assert IsRun(EndRecovery(s), []);
  }

  /** A restart finishes every task it finds a record of, and then ends. */
  lemma {:induction false} RecoveryCompletes(s: Node) returns (steps: seq<Step>, u: Node)
    requires Inv(s) && s.recovering
    ensures IsRun(s, steps) && u == RunOf(s, steps) && u.recs == map[] && !u.recovering
    decreases s.recs.Keys
  {
    if s.recs == map[] {
      RecoveryEnds(s);
      steps, u := [Host(EndRecoveryStep)], EndRecovery(s);
    } else {
      var a :| a in s.recs;
      var redo, t := RedoOne(s, a);
      var rest;
      rest, u := RecoveryCompletes(t);
      RunJoins(s, redo, t, rest, u);
      steps := redo + rest;
    }
  }
}
