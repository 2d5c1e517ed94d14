/** What holds of every run of the replica: any interleaving of requests,
    commits, checkpoints, crashes, recoveries and GC tasks. */
module GcTheorems {
  import opened Storage
  import opened GcMachine
  import opened GcInvariant
  import opened GcSteps
  import opened GcTaskSteps

  // ------------------------------------------------------------ induction

  lemma ClientInv(s: Node, e: ClientStep)
    requires Inv(s) && ClientEnabled(s, e)
    ensures Inv(ClientNext(s, e))
  {
    match e
    case PutStep(k, d) => ProposePutInv(s, k, d);
    case DelStep(k) => ProposeDelInv(s, k);
    case CreateStep(sh, a, b) => ProposeCreateInv(s, sh, a, b);
    case SealStep(sh, b) => ProposeSealInv(s, sh, b);
    case ApplyStep => ApplyInv(s);
  }

  lemma HostInv(s: Node, e: HostStep)
    requires Inv(s) && HostEnabled(s, e)
    ensures Inv(HostNext(s, e))
  {
    match e
    case CheckpointStep => CheckpointInv(s);
    case CrashStep => CrashInv(s);
    case RecoverStep(a) => RecoverInv(s, a);
    case EndRecoveryStep => EndRecoveryInv(s);
  }

  lemma CollectInv(s: Node, a: Slot, e: CopyStep)
    requires Inv(s) && CopyEnabled(s, a, e)
    ensures Inv(CopyNext(s, a, e))
  {
    match e
    case StartStep(to, emergent) => StartInv(s, a, to, emergent);
    case PurgeStep => PurgeInv(s, a);
    case QueryStep(sh, b) => QueryInv(s, a, sh, b);
    case CopyBlobStep(k) => CopyInv(s, a, k);
    case EndCopyStep => EndCopyInv(s, a);
    case SweepStep(k) => SweepInv(s, a, k);
    case FlushStep => FlushInv(s, a);
    case FailStep => FailInv(s, a);
    case RecordStep => RecordInv(s, a);
  }

  lemma MoveInv(s: Node, a: Slot, e: MoveStep)
    requires Inv(s) && MoveEnabled(s, a, e)
    ensures Inv(MoveNext(s, a, e))
  {
    match e
    case SwapStep(k) => SwapInv(s, a, k);
    case MovePgStep => MovePgInv(s, a);
    case MoveShardStep(sh) => MoveShardInv(s, a, sh);
    case EndShardsStep => EndShardsInv(s, a);
    case FlushSwapStep => FlushSwapInv(s, a);
    case MoveReservedStep => MoveReservedInv(s, a);
    case DestroyStep => DestroyInv(s, a);
  }

  /** Every step keeps the invariant. */
  lemma StepInv(s: Node, e: Step)
    requires Inv(s) && Enabled(s, e)
    ensures Inv(Next(s, e))
  {
    match e
    case Client(c) => ClientInv(s, c);
    case Host(h) => HostInv(s, h);
    case Collect(a, p) => CollectInv(s, a, p);
    case Move(a, m) => MoveInv(s, a, m);
  }

  lemma {:induction false} RunInv(s: Node, steps: seq<Step>)
    requires Inv(s) && IsRun(s, steps)
    ensures Inv(RunOf(s, steps))
    decreases |steps|
  {
    if steps != [] {
      StepInv(s, steps[0]);
      RunInv(Next(s, steps[0]), steps[1..]);
    }
  }

  // ------------------------------------------------------ what readers see

  lemma ReadsLogical(s: Node, k: Key, d: Data)
    requires Inv(s)
    ensures k in Alive(s.log, s.applied) ==> k in Payloads(s.log)
    ensures Reads(s, k, d) <==> k in Alive(s.log, s.applied) && Payloads(s.log)[k] == d
  {
    assert k in LiveKeys(s.index) <==> IsLive(s.index, k);
    assert Truthful(s.disk, Payloads(s.log), s.index) && ImageOf(s.log, s.applied, s.index);
  }

  /** In every reachable state a read of key `k` returns exactly what the
      committed prefix of the log says: the payload put under `k`, if `k` was put
      and not deleted, and nothing otherwise. Crashes, redone tasks and copies in
      progress make no difference. */
  lemma ReadsFollowLog(s0: Node, steps: seq<Step>, k: Key, d: Data)
    requires Init(s0) && IsRun(s0, steps)
    ensures var s := RunOf(s0, steps);
      s.applied <= |s.log|
      && (k in Alive(s.log, s.applied) ==> k in Payloads(s.log))
      && (Reads(s, k, d) <==> k in Alive(s.log, s.applied) && Payloads(s.log)[k] == d)
  {
    InitInv(s0);
    RunInv(s0, steps);
    ReadsLogical(RunOf(s0, steps), k, d);
  }

  lemma CopyKeepsCursor(s: Node, a: Slot, e: CopyStep)
    requires CopyEnabled(s, a, e)
    ensures CopyNext(s, a, e).log == s.log && CopyNext(s, a, e).applied == s.applied
  {
    match e
    case StartStep(_, _) =>
    case PurgeStep =>
    case QueryStep(_, _) =>
    case CopyBlobStep(_) =>
    case EndCopyStep =>
    case SweepStep(_) =>
    case FlushStep =>
    case FailStep =>
    case RecordStep =>
  }

  lemma MoveKeepsCursor(s: Node, a: Slot, e: MoveStep)
    requires MoveEnabled(s, a, e)
    ensures MoveNext(s, a, e).log == s.log && MoveNext(s, a, e).applied == s.applied
  {
    match e
    case SwapStep(_) =>
    case MovePgStep =>
    case MoveShardStep(_) =>
    case EndShardsStep =>
    case FlushSwapStep =>
    case MoveReservedStep =>
    case DestroyStep =>
  }

  lemma GcKeepsCursor(s: Node, e: Step)
    requires Enabled(s, e) && (e.Collect? || e.Move?)
    ensures Next(s, e).log == s.log && Next(s, e).applied == s.applied
  {
    match e
    case Collect(a, p) => CopyKeepsCursor(s, a, p);
    case Move(a, m) => MoveKeepsCursor(s, a, m);
  }

  /** A step of a GC task, whatever it copies, removes or redirects, changes the
      readable payload of no key. */
  lemma GcStepKeepsReads(s: Node, e: Step, k: Key, d: Data)
    requires Inv(s) && Enabled(s, e) && (e.Collect? || e.Move?)
    ensures Reads(Next(s, e), k, d) <==> Reads(s, k, d)
  {
    StepInv(s, e);
    GcKeepsCursor(s, e);
    ReadsLogical(s, k, d);
    ReadsLogical(Next(s, e), k, d);
  }

  /** Committing a delete makes its key unreadable and leaves every other key as
      it was, in the middle of a GC task too. */
  lemma DeleteOnlyItsKey(s: Node, k: Key, k': Key, d: Data)
    requires Inv(s) && CanApply(s) && s.log[s.applied] == Del(k)
    ensures !Reads(Apply(s), k, d)
    ensures k' != k ==> (Reads(Apply(s), k', d) <==> Reads(s, k', d))
  {
    ApplyInv(s);
    ReadsLogical(Apply(s), k, d);
    ReadsLogical(s, k', d);
    ReadsLogical(Apply(s), k', d);
  }

  lemma {:induction false} DeadAfter(log: seq<Op>, i: nat, n: nat)
    requires UniquePuts(log) && DelsFollowPuts(log) && i < n <= |log| && log[i].Del?
    ensures log[i].key !in Alive(log, n)
  {
    if n > i + 1 {
      DeadAfter(log, i, n - 1);
      if log[n - 1].Put? && log[n - 1].key == log[i].key {
        var j := PutKeysFrom(log, i, log[i].key);
        assert false;
      }
    }
  }

  lemma {:induction false} CrashFreeCursor(s: Node, steps: seq<Step>)
    requires IsRun(s, steps) && (forall i :: 0 <= i < |steps| ==> steps[i] != Host(CrashStep))
    ensures RunOf(s, steps).applied >= s.applied && s.log <= RunOf(s, steps).log
    decreases |steps|
  {
    if steps != [] {
      StepCursor(s, steps[0]);
      CrashFreeCursor(Next(s, steps[0]), steps[1..]);
    }
  }

  lemma StepCursor(s: Node, e: Step)
    requires Enabled(s, e)
    ensures s.log <= Next(s, e).log
    ensures e != Host(CrashStep) ==> Next(s, e).applied >= s.applied
  {
    match e
    case Client(c) => ClientCursor(s, c);
    case Host(h) => HostCursor(s, h);
    case Collect(a, p) => CopyKeepsCursor(s, a, p);
    case Move(a, m) => MoveKeepsCursor(s, a, m);
  }

  lemma HostCursor(s: Node, e: HostStep)
    requires HostEnabled(s, e)
    ensures HostNext(s, e).log == s.log && (e != CrashStep ==> HostNext(s, e).applied == s.applied)
  {
    match e
    case CheckpointStep =>
    case CrashStep =>
    case RecoverStep(_) =>
    case EndRecoveryStep =>
  }

  lemma ApplyBlobCursor(s: Node)
    requires CanApply(s) && (s.log[s.applied].Put? || s.log[s.applied].Del?)
    ensures Apply(s).log == s.log && Apply(s).applied == s.applied + 1
  {
  }

  lemma ApplyShardCursor(s: Node)
    requires CanApply(s) && (s.log[s.applied].Seal? || s.log[s.applied].Create?)
    ensures Apply(s).log == s.log && Apply(s).applied == s.applied + 1
  {
  }

  lemma ApplyCursor(s: Node)
    requires CanApply(s)
    ensures Apply(s).log == s.log && Apply(s).applied == s.applied + 1
  {
    if s.log[s.applied].Put? || s.log[s.applied].Del? { ApplyBlobCursor(s); } else { ApplyShardCursor(s); }
  }

  lemma ClientCursor(s: Node, e: ClientStep)
    requires ClientEnabled(s, e)
    ensures s.log <= ClientNext(s, e).log && ClientNext(s, e).applied >= s.applied
  {
    match e
    case PutStep(_, _) =>
    case DelStep(_) =>
    case CreateStep(_, _, _) =>
    case SealStep(_, _) =>
    case ApplyStep => ApplyCursor(s);
  }

  /** A deleted blob never becomes readable again, however the run continues,
      as long as there is no crash; and after a crash, once the replay has passed
      the delete again. */
  lemma NoResurrection(s: Node, steps: seq<Step>, i: nat, d: Data)
    requires Inv(s) && IsRun(s, steps) && i < s.applied && i < |s.log| && s.log[i].Del?
    requires (forall n :: 0 <= n < |steps| ==> steps[n] != Host(CrashStep)) || i < RunOf(s, steps).applied
    ensures !Reads(RunOf(s, steps), s.log[i].key, d)
  {
    var t := RunOf(s, steps);
    RunInv(s, steps);
    RunLog(s, steps);
    if forall n :: 0 <= n < |steps| ==> steps[n] != Host(CrashStep) { CrashFreeCursor(s, steps); }
    assert t.log[i] == s.log[i];
    DeadAfter(t.log, i, t.applied);
    ReadsLogical(t, s.log[i].key, d);
  }

  lemma {:induction false} RunLog(s: Node, steps: seq<Step>)
    requires IsRun(s, steps)
    ensures s.log <= RunOf(s, steps).log
    decreases |steps|
  {
    if steps != [] {
      StepCursor(s, steps[0]);
      RunLog(Next(s, steps[0]), steps[1..]);
    }
  }

  // ------------------------------------------------------- purge and placement

  /** Whenever a reserved chunk is reset, nothing refers to it: no PG slot, no
      shard record, no live entry of the index in memory or on disk, no task
      record. */
  lemma PurgeIsSafe(s0: Node, steps: seq<Step>, a: Slot)
    requires Init(s0) && IsRun(s0, steps) && CanPurge(RunOf(s0, steps), a)
    ensures Unreferenced(RunOf(s0, steps), RunOf(s0, steps).tasks[a].job.to)
  {
    InitInv(s0);
    RunInv(s0, steps);
    ToUnreferenced(RunOf(s0, steps), a);
  }

  /** Outside the window in which a task record exists for its slot, a live entry,
      its shard's record and the PG slot name the same chunk. */
  lemma PlacementAgrees(s0: Node, steps: seq<Step>, k: Key)
    requires Init(s0) && IsRun(s0, steps)
    requires var s := RunOf(s0, steps); IsLive(s.index, k) || IsLive(s.dIndex, k)
    ensures var s := RunOf(s0, steps);
      && k.shard in s.shards && s.shards[k.shard].slot in s.slots
      && (s.shards[k.shard].slot !in s.recs ==>
            && s.shards[k.shard].chunk == s.slots[s.shards[k.shard].slot]
            && (IsLive(s.index, k) ==> s.index[k].pba.chunk == s.shards[k.shard].chunk)
            && (IsLive(s.dIndex, k) ==> s.dIndex[k].pba.chunk == s.shards[k.shard].chunk))
  {
    InitInv(s0);
    RunInv(s0, steps);
    var s := RunOf(s0, steps);
    assert Placement(s);
  }

  /** A put that is still to be committed or replayed was written to the chunk its
      shard is in now: the seal's flush of the durable commit position keeps GC
      from moving the shard away first. */
  lemma ReplayedPutsNotStale(s0: Node, steps: seq<Step>, i: nat)
    requires Init(s0) && IsRun(s0, steps)
    requires var s := RunOf(s0, steps); s.cpLsn <= i < |s.log| && s.log[i].Put?
    ensures var s := RunOf(s0, steps);
      && s.log[i].key.shard in s.shards
      && s.log[i].pba.chunk == s.shards[s.log[i].key.shard].chunk
      && Holds(s.disk, s.log[i].pba, s.log[i].data)
  {
    InitInv(s0);
    RunInv(s0, steps);
    var s := RunOf(s0, steps);
    assert PutReady(Payloads(s.log), s.log[i], s.disk, s.slots, s.recs, s.shards);
    assert InHome(s.slots, s.recs, s.shards[s.log[i].key.shard].slot, s.shards[s.log[i].key.shard].chunk);
  }
}
