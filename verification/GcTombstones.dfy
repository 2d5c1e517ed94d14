/** Tombstones: a delete leaves one, and only GC takes it away. */
module GcTombstones {
  import opened Storage
  import opened GcMachine
  import opened GcInvariant
  import opened GcSteps
  import opened GcTheorems
  import opened GcRequests

  /** The deleted keys whose tombstones GC has removed, in memory and as of the last
      checkpoint. */
  datatype Cleared = Cleared(now: set<Key>, saved: set<Key>)

  /** A delete of `k` is among the requests committed so far. */
  ghost predicate Deleted(h: History, k: Key) {
    Among(h.asked, h.done, DelRequest(k))
  }

  ghost function ClearedAfter(h: History, g: Cleared, e: Step): Cleared {
    match e
    case Collect(_, SweepStep(k)) => g.(now := g.now + {k})
    case Move(_, SwapStep(k)) => if Deleted(h, k) then g.(now := g.now + {k}) else g
    case Host(CheckpointStep) => g.(saved := g.now)
    case Collect(_, FlushStep) => g.(saved := g.now)
    case Move(_, FlushSwapStep) => g.(saved := g.now)
    case Host(CrashStep) => g.(now := g.saved)
    case _ => g
  }

  ghost function ClearedBy(h: History, g: Cleared, steps: seq<Step>): Cleared
    decreases |steps|
  {
    if steps == [] then g else ClearedBy(After(h, steps[0]), ClearedAfter(h, g, steps[0]), steps[1..])
  }

  /** The index has the keys put by the first `n` operations except those of `gone`,
      which are deleted. */
  ghost predicate KeysAre(index: Index, log: seq<Op>, n: nat, gone: set<Key>) {
    && n <= |log|
    && (forall k :: k in index <==> k in PutKeys(log, n) && k !in gone)
    && (forall k :: k in gone ==> k in PutKeys(log, n) && k !in Alive(log, n))
  }

  ghost predicate TombsOk(s: Node, g: Cleared) {
    KeysAre(s.index, s.log, s.applied, g.now) && KeysAre(s.dIndex, s.log, s.cpLsn, g.saved)
  }

  // ------------------------------------------------------------- the log

  lemma LongerLog(index: Index, log: seq<Op>, op: Op, n: nat, gone: set<Key>)
    requires KeysAre(index, log, n, gone)
    ensures KeysAre(index, log + [op], n, gone)
  {
    LogPrefix(log, op, n);
  }

  /** By the first `n` operations a key is deleted exactly when it is put and not
      alive. */
  lemma DeletedIsDead(s: Node, h: History, k: Key)
    requires LogOk(s.log) && s.applied <= |s.log| && LogFollows(s, h)
    ensures Deleted(h, k) <==> k in PutKeys(s.log, s.applied) && k !in Alive(s.log, s.applied)
  {
    if Deleted(h, k) {
      var i :| 0 <= i < h.done && i < |h.asked| && h.asked[i] == DelRequest(k);
      assert Logs(s.log[i], h.asked[i]);
      DeadAfter(s.log, i, s.applied);
      PutKeysGrow(s.log, i, s.applied, k);
    }
    if k in PutKeys(s.log, s.applied) && k !in Alive(s.log, s.applied) {
      var i := PutKeysFrom(s.log, s.applied, k);
      var j := DelSince(s.log, i, s.applied);
      assert Logs(s.log[j], h.asked[j]);
    }
  }

  lemma {:induction false} PutKeysGrow(log: seq<Op>, m: nat, n: nat, k: Key)
    requires m <= n <= |log| && k in PutKeys(log, m)
    ensures k in PutKeys(log, n)
  {
    if m < n { PutKeysGrow(log, m, n - 1, k); }
  }

  /** A key put at `i` and not alive after `n` operations was deleted in between. */
  lemma {:induction false} DelSince(log: seq<Op>, i: nat, n: nat) returns (j: nat)
    requires i < n <= |log| && log[i].Put? && log[i].key !in Alive(log, n)
    ensures i < j < n && log[j] == Del(log[i].key)
  {
    if log[n - 1] == Del(log[i].key) {
      j := n - 1;
    } else {
      j := DelSince(log, i, n - 1);
    }
  }

  // ------------------------------------------------------------- the steps

  lemma ApplyKeys(index: Index, log: seq<Op>, n: nat, gone: set<Key>, after: Index)
    requires UniquePuts(log) && KeysAre(index, log, n, gone) && n < |log|
    requires after == match log[n]
      case Put(k, p, _) => AddBlob(index, k, p)
      case Del(k) => DelBlob(index, k)
      case _ => index
    ensures KeysAre(after, log, n + 1, gone)
  {
    if log[n].Put? { PutKeysAt(log, n); }
  }

  lemma ApplyBlobIndex(s: Node)
    requires CanApply(s) && (s.log[s.applied].Put? || s.log[s.applied].Del?)
    ensures Apply(s).dIndex == s.dIndex
    ensures Apply(s).index == match s.log[s.applied]
      case Put(k, p, _) => AddBlob(s.index, k, p)
      case Del(k) => DelBlob(s.index, k)
      case _ => s.index
  {
  }

  lemma ApplyShardIndex(s: Node)
    requires CanApply(s) && (s.log[s.applied].Create? || s.log[s.applied].Seal?)
    ensures Apply(s).dIndex == s.dIndex && Apply(s).index == s.index
  {
  }

  lemma ApplyTombs(s: Node, t: Node, g: Cleared)
    requires LogOk(s.log) && CanApply(s) && t == Apply(s) && TombsOk(s, g)
    ensures TombsOk(t, g)
  {
    ApplyCursor(s);
    if s.log[s.applied].Put? || s.log[s.applied].Del? {
      ApplyBlobIndex(s);
      ApplyBlobFlushed(s);
    } else {
      ApplyShardIndex(s);
      ApplyShardFlushed(s);
    }
    ApplyKeys(s.index, s.log, s.applied, g.now, t.index);
  }

  lemma ProposeTombs(s: Node, c: ClientStep, t: Node, g: Cleared, op: Op)
    requires ClientEnabled(s, c) && c != ApplyStep && t == ClientNext(s, c) && TombsOk(s, g)
    requires t.log == s.log + [op] && t.index == s.index && t.dIndex == s.dIndex
    requires t.applied == s.applied && t.cpLsn == s.cpLsn
    ensures TombsOk(t, g)
  {
    LongerLog(s.index, s.log, op, s.applied, g.now);
    LongerLog(s.dIndex, s.log, op, s.cpLsn, g.saved);
  }

  lemma ClientTombs(s: Node, c: ClientStep, t: Node, g: Cleared)
    requires LogOk(s.log) && ClientEnabled(s, c) && t == ClientNext(s, c) && TombsOk(s, g)
    ensures TombsOk(t, g)
  {
    match c
    case PutStep(_, _) => ProposeTombs(s, c, t, g, t.log[|s.log|]);
    case DelStep(_) => ProposeTombs(s, c, t, g, t.log[|s.log|]);
    case CreateStep(_, _, _) => ProposeTombs(s, c, t, g, t.log[|s.log|]);
    case SealStep(_, _) => ProposeTombs(s, c, t, g, t.log[|s.log|]);
    case ApplyStep => ApplyTombs(s, t, g);
  }

  lemma HostTombs(s: Node, e: HostStep, h: History, g: Cleared)
    requires HostEnabled(s, e) && TombsOk(s, g)
    ensures TombsOk(HostNext(s, e), ClearedAfter(h, g, Host(e)))
  {
    match e
    case CheckpointStep =>
    case CrashStep =>
    case RecoverStep(_) =>
    case EndRecoveryStep =>
  }

  lemma SweepTombs(s: Node, a: Slot, k: Key, g: Cleared)
    requires CanSweep(s, a, k) && TombsOk(s, g) && ImageOf(s.log, s.applied, s.index)
    ensures TombsOk(Sweep(s, a, k), g.(now := g.now + {k}))
  {
    assert k !in LiveKeys(s.index);
  }

  lemma CopyTombs(s: Node, a: Slot, e: CopyStep, h: History, g: Cleared)
    requires CopyEnabled(s, a, e) && TombsOk(s, g) && ImageOf(s.log, s.applied, s.index)
    ensures TombsOk(CopyNext(s, a, e), ClearedAfter(h, g, Collect(a, e)))
  {
    match e
    case StartStep(_, _) =>
    case PurgeStep =>
    case QueryStep(_, _) =>
    case CopyBlobStep(_) =>
    case EndCopyStep =>
    case SweepStep(k) => SweepTombs(s, a, k, g);
    case FlushStep =>
    case FailStep =>
    case RecordStep =>
  }

  lemma SwapKeys(index: Index, log: seq<Op>, n: nat, gone: set<Key>, k: Key, from: Chunk, p: Pba, deleted: bool)
    requires KeysAre(index, log, n, gone) && ImageOf(log, n, index)
    requires deleted <==> k in PutKeys(log, n) && k !in Alive(log, n)
    ensures KeysAre(SwapEntry(index, k, from, p), log, n, if deleted then gone + {k} else gone)
  {
    assert k in LiveKeys(index) <==> IsLive(index, k);
  }

  lemma SwapFields(s: Node, a: Slot, k: Key)
    requires CanSwap(s, a, k)
    ensures var t := Swap(s, a, k);
      && t.index == SwapEntry(s.index, k, s.tasks[a].job.from, s.tasks[a].phase.pending[k])
      && t.dIndex == s.dIndex && t.log == s.log && t.applied == s.applied && t.cpLsn == s.cpLsn
  {
  }

  lemma SwapTombs(s: Node, a: Slot, k: Key, t: Node, deleted: bool, g: Cleared)
    requires CanSwap(s, a, k) && t == Swap(s, a, k) && TombsOk(s, g) && ImageOf(s.log, s.applied, s.index)
    requires deleted <==> k in PutKeys(s.log, s.applied) && k !in Alive(s.log, s.applied)
    ensures TombsOk(t, if deleted then g.(now := g.now + {k}) else g)
  {
    SwapFields(s, a, k);
    SwapKeys(s.index, s.log, s.applied, g.now, k, s.tasks[a].job.from, s.tasks[a].phase.pending[k], deleted);
  }

  lemma MoveTombs(s: Node, a: Slot, e: MoveStep, h: History, g: Cleared)
    requires MoveEnabled(s, a, e) && TombsOk(s, g) && !e.SwapStep?
    ensures TombsOk(MoveNext(s, a, e), ClearedAfter(h, g, Move(a, e)))
  {
    match e
    case MovePgStep =>
    case MoveShardStep(_) =>
    case EndShardsStep =>
    case FlushSwapStep =>
    case MoveReservedStep =>
    case DestroyStep =>
  }

  lemma StepTombs(s: Node, e: Step, h: History, g: Cleared)
    requires Inv(s) && Enabled(s, e) && TombsOk(s, g) && LogFollows(s, h)
    ensures TombsOk(Next(s, e), ClearedAfter(h, g, e))
  {
    assert ImageOf(s.log, s.applied, s.index);
    match e
    case Client(c) => ClientTombs(s, c, ClientNext(s, c), g);
    case Host(x) => HostTombs(s, x, h, g);
    case Collect(a, p) => CopyTombs(s, a, p, h, g);
    case Move(a, m) =>
      if m.SwapStep? {
        DeletedIsDead(s, h, m.key);
        SwapTombs(s, a, m.key, Swap(s, a, m.key), Deleted(h, m.key), g);
      } else {
        MoveTombs(s, a, m, h, g);
      }
  }

  lemma {:induction false} RunTombs(s: Node, steps: seq<Step>, h: History, g: Cleared)
    requires Inv(s) && IsRun(s, steps) && TombsOk(s, g) && LogFollows(s, h)
    ensures TombsOk(RunOf(s, steps), ClearedBy(h, g, steps))
    decreases |steps|
  {
    if steps != [] {
      StepInv(s, steps[0]);
      StepFollows(s, steps[0], h);
      StepTombs(s, steps[0], h, g);
      RunTombs(Next(s, steps[0]), steps[1..], After(h, steps[0]), ClearedAfter(h, g, steps[0]));
    }
  }

  const NONE := Cleared({}, {})

  /** The index has a tombstone for a key exactly when a delete of it is committed and
      GC has not swept or swapped it away since. */
  lemma TombstonesFollowRequests(s0: Node, steps: seq<Step>, k: Key)
    requires Init(s0) && IsRun(s0, steps)
    ensures var s, h := RunOf(s0, steps), HistoryOf(NOTHING, steps);
      (k in s.index && s.index[k] == Tombstone) <==>
        (Deleted(h, k) && k !in ClearedBy(NOTHING, NONE, steps).now)
  {
    var s, h := RunOf(s0, steps), HistoryOf(NOTHING, steps);
    InitInv(s0);
    HistoryFollows(s0, steps);
    RunTombs(s0, steps, NOTHING, NONE);
    DeletedIsDead(s, h, k);
    assert k in LiveKeys(s.index) <==> IsLive(s.index, k);
  }
}
