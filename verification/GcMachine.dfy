/** One replica as a state machine: the replicated log and its commit handlers,
    checkpoints and crashes, and any number of copying GC tasks with their redo.

    Fields that a crash loses: `applied`, `index`, `gcIndex`, `free`, `tasks`.
    Fields on disk: everything else. A checkpoint copies `index`, `gcIndex` and
    `applied` to their durable twins in one step. */
module GcMachine {
  import opened Storage

  // ---------------------------------------------------------------- the log

  /** Replicated operations, with the address the replica chose for a put. */
  datatype Op =
    | Put(key: Key, pba: Pba, data: Data)
    | Del(key: Key)
    | Create(shard: ShardId, slot: Slot, chunk: Chunk)
    | Seal(shard: ShardId)

  /** Keys put by the first `n` operations. */
  function PutKeys(log: seq<Op>, n: nat): set<Key>
    requires n <= |log|
  {
    if n == 0 then {}
    else if log[n - 1].Put? then PutKeys(log, n - 1) + {log[n - 1].key}
    else PutKeys(log, n - 1)
  }

  /** Keys put and not deleted by the first `n` operations. */
  function Alive(log: seq<Op>, n: nat): set<Key>
    requires n <= |log|
  {
    if n == 0 then {}
    else match log[n - 1]
      case Put(k, _, _) => Alive(log, n - 1) + {k}
      case Del(k) => Alive(log, n - 1) - {k}
      case _ => Alive(log, n - 1)
  }

  /** What the clients stored under each key. */
  function Payloads(log: seq<Op>): map<Key, Data> {
    if log == [] then map[]
    else
      var rest := Payloads(log[..|log| - 1]);
      if log[|log| - 1].Put? then rest[log[|log| - 1].key := log[|log| - 1].data] else rest
  }

  // -------------------------------------------------------------- the state

  datatype Shard = Shard(slot: Slot, chunk: Chunk, sealed: bool)

  /** The durable task record: move `from` to `to`. */
  datatype Job = Job(from: Chunk, to: Chunk, emergent: bool)

  datatype Phase =
    | Purging
    | Copying(queried: set<ShardId>, todo: map<Key, Pba>)
    | Sweeping
    | Copied
    // from here on the task record exists
    | Swapping(pending: map<Key, Pba>)
    | PgMoved
    | ShardsMoved
    | Flushed
    | ReservedMoved
  {
    predicate BeforeRecord() {
      Purging? || Copying? || Sweeping? || Copied?
    }
  }

  datatype Task = Task(job: Job, phase: Phase)

  type GcIndex = map<Chunk, map<Key, Pba>>

  function GcOf(g: GcIndex, c: Chunk): map<Key, Pba> {
    if c in g then g[c] else map[]
  }

  datatype Node = Node(
    log: seq<Op>,
    applied: nat,
    cpLsn: nat,                   // the checkpoint covers log[..cpLsn]
    dcLsn: nat,                   // log[..dcLsn] is replayed before GC may start
    index: Index,
    dIndex: Index,
    gcIndex: GcIndex,
    dGcIndex: GcIndex,
    disk: Disk,
    slots: map<Slot, Chunk>,      // chunk arrays of the PG superblocks
    shards: map<ShardId, Shard>,  // shard superblocks
    reserved: set<Chunk>,         // reserved-chunk records
    recs: map<Slot, Job>,         // GC task records
    tasks: map<Slot, Task>,       // GC tasks being run
    free: set<Chunk>,             // reserved-chunk queue
    recovering: bool)

  /** A formatted replica: every slot has a chunk of its own, and no slot's
      chunk is reserved. */
  predicate Init(s: Node) {
    && s.log == [] && s.applied == 0 && s.cpLsn == 0 && s.dcLsn == 0
    && s.index == map[] && s.dIndex == map[] && s.gcIndex == map[] && s.dGcIndex == map[]
    && s.shards == map[] && s.recs == map[] && s.tasks == map[] && !s.recovering
    && s.free == s.reserved
    && (forall a, b :: a in s.slots && b in s.slots && a != b ==> s.slots[a] != s.slots[b])
    && (forall a :: a in s.slots ==> s.slots[a] !in s.reserved)
  }

  predicate HasJob(s: Node, a: Slot) { a in s.recs || a in s.tasks }

  function JobOf(s: Node, a: Slot): Job
    requires HasJob(s, a)
  {
    if a in s.recs then s.recs[a] else s.tasks[a].job
  }

  predicate InPhase(s: Node, a: Slot, p: Phase) { a in s.tasks && s.tasks[a].phase == p }

  predicate InSlot(shards: map<ShardId, Shard>, sh: ShardId, a: Slot) { sh in shards && shards[sh].slot == a }

  predicate InChunk(s: Node, sh: ShardId, c: Chunk) { sh in s.shards && s.shards[sh].chunk == c }

  /** No put for a shard of slot `a` sits in the log at position `n` or later. */
  predicate Quiet(log: seq<Op>, shards: map<ShardId, Shard>, a: Slot, n: nat) {
    forall i :: n <= i < |log| && log[i].Put? ==> !InSlot(shards, log[i].key.shard, a)
  }

  function SetPhase(s: Node, a: Slot, p: Phase): Node
    requires a in s.tasks
  {
    s.(tasks := s.tasks[a := s.tasks[a].(phase := p)])
  }

  // ------------------------------------------------- proposing and applying

  /** A put is proposed only for an open shard whose chunk is not under GC, with
      a blob id that was never used; its blocks are written before the log entry. */
  predicate CanProposePut(s: Node, k: Key, data: Data) {
    && !s.recovering
    && k.shard in s.shards && !s.shards[k.shard].sealed
    && !HasJob(s, s.shards[k.shard].slot)
    && (forall i :: 0 <= i < |s.log| ==> s.log[i] != Seal(k.shard))
    && k !in PutKeys(s.log, |s.log|)
  }

  function ProposePut(s: Node, k: Key, data: Data): Node
    requires CanProposePut(s, k, data)
  {
    var c := s.shards[k.shard].chunk;
    s.(log := s.log + [Put(k, NextPba(s.disk, c, |data|), data)],
       disk := Append(s.disk, c, data))
  }

  predicate CanProposeDel(s: Node, k: Key) {
    !s.recovering && k in PutKeys(s.log, |s.log|)
  }

  function ProposeDel(s: Node, k: Key): Node
    requires CanProposeDel(s, k)
  {
    s.(log := s.log + [Del(k)])
  }

  predicate CanProposeCreate(s: Node, sh: ShardId, a: Slot) {
    && !s.recovering
    && sh !in s.shards && (forall i :: 0 <= i < |s.log| && s.log[i].Create? ==> s.log[i].shard != sh)
    && a in s.slots && !HasJob(s, a)
  }

  /** The shard header block goes to the slot's chunk. */
  function ProposeCreate(s: Node, sh: ShardId, a: Slot, header: Block): Node
    requires CanProposeCreate(s, sh, a)
  {
    s.(log := s.log + [Create(sh, a, s.slots[a])],
       disk := Append(s.disk, s.slots[a], [header]))
  }

  predicate CanProposeSeal(s: Node, sh: ShardId) {
    !s.recovering && sh in s.shards && !HasJob(s, s.shards[sh].slot)
  }

  function ProposeSeal(s: Node, sh: ShardId, footer: Block): Node
    requires CanProposeSeal(s, sh)
  {
    s.(log := s.log + [Seal(sh)],
       disk := Append(s.disk, s.shards[sh].chunk, [footer]))
  }

  predicate CanApply(s: Node) { !s.recovering && s.applied < |s.log| }

  /** Index insert: an existing entry wins. */
  function AddBlob(index: Index, k: Key, p: Pba): Index {
    if k in index then index else index[k := Live(p)]
  }

  /** Index update: only an existing entry becomes a tombstone. */
  function DelBlob(index: Index, k: Key): Index {
    if k in index then index[k := Tombstone] else index
  }

  function AddShard(shards: map<ShardId, Shard>, sh: ShardId, a: Slot, c: Chunk): map<ShardId, Shard> {
    if sh in shards then shards else shards[sh := Shard(a, c, false)]
  }

  function SealShard(shards: map<ShardId, Shard>, sh: ShardId): map<ShardId, Shard> {
    if sh in shards then shards[sh := shards[sh].(sealed := true)] else shards
  }

  /** Commit the next log entry, at run time or while replaying after a crash.
      Sealing flushes the durable commit position before the shard record. */
  function Apply(s: Node): Node
    requires CanApply(s)
  {
    match s.log[s.applied]
    case Put(k, p, _) => s.(index := AddBlob(s.index, k, p), applied := s.applied + 1)
    case Del(k) => s.(index := DelBlob(s.index, k), applied := s.applied + 1)
    case Create(sh, a, c) => s.(shards := AddShard(s.shards, sh, a, c), applied := s.applied + 1)
    case Seal(sh) =>
      s.(dcLsn := Max(s.dcLsn, s.applied), shards := SealShard(s.shards, sh), applied := s.applied + 1)
  }

  function Max(a: nat, b: nat): nat { if a < b then b else a }

  // -------------------------------------------------- checkpoints and crash

  function Checkpoint(s: Node): Node {
    s.(dIndex := s.index, dGcIndex := s.gcIndex, cpLsn := s.applied, dcLsn := Max(s.dcLsn, s.applied))
  }

  /** Chunks named by a GC task record. */
  predicate InRecord(s: Node, c: Chunk) {
    exists a :: a in s.recs && (c == s.recs[a].from || c == s.recs[a].to)
  }

  /** Restart: memory is rebuilt from the checkpoint and the superblocks; the
      chunks of unfinished tasks are taken out of the reserved queue. */
  function Crash(s: Node): Node {
    s.(applied := s.cpLsn, index := s.dIndex, gcIndex := s.dGcIndex, tasks := map[],
       free := (set c | c in s.reserved && !InRecord(s, c)), recovering := true)
  }

  predicate CanRecover(s: Node, a: Slot) { s.recovering && a in s.recs && a !in s.tasks }

  /** Pick up a task record found at restart; its remaining work is that of a
      task that has just written the record. */
  function Recover(s: Node, a: Slot): Node
    requires CanRecover(s, a)
  {
    s.(tasks := s.tasks[a := Task(s.recs[a], Swapping(GcOf(s.gcIndex, s.recs[a].to)))])
  }

  predicate CanEndRecovery(s: Node) { s.recovering && s.recs == map[] }

  function EndRecovery(s: Node): Node
    requires CanEndRecovery(s)
  {
    s.(recovering := false)
  }

  // ------------------------------------------------------------ a GC task

  /** Nothing that the log still has to commit concerns slot `a`. Normal GC only
      asks for sealed shards; emergent GC waits for the puts before it. */
  predicate CanStart(s: Node, a: Slot, to: Chunk, emergent: bool) {
    && !s.recovering && s.dcLsn <= s.applied
    && a in s.slots && !HasJob(s, a) && to in s.free
    && (if emergent then Quiet(s.log, s.shards, a, s.applied)
        else forall sh :: sh in s.shards && InSlot(s.shards, sh, a) ==> s.shards[sh].sealed)
    && (forall i :: 0 <= i < |s.log| && s.log[i].Create? && s.log[i].slot == a ==> s.log[i].shard in s.shards)
  }

  function Start(s: Node, a: Slot, to: Chunk, emergent: bool): Node
    requires CanStart(s, a, to, emergent)
  {
    s.(tasks := s.tasks[a := Task(Job(s.slots[a], to, emergent), Purging)], free := s.free - {to})
  }

  predicate CanPurge(s: Node, a: Slot) { InPhase(s, a, Purging) }

  /** Reset the reserved chunk and drop its entries of the GC index. */
  function Purge(s: Node, a: Slot): Node
    requires CanPurge(s, a)
  {
    var to := s.tasks[a].job.to;
    SetPhase(s.(disk := s.disk[to := []], gcIndex := s.gcIndex[to := map[]]), a, Copying({}, map[]))
  }

  predicate CanQuery(s: Node, a: Slot, sh: ShardId) {
    && a in s.tasks && s.tasks[a].phase.Copying?
    && InChunk(s, sh, s.tasks[a].job.from) && sh !in s.tasks[a].phase.queried
  }

  function LiveOf(index: Index, sh: ShardId): map<Key, Pba> {
    map k | k in index && k.shard == sh && index[k].Live? :: index[k].pba
  }

  /** List the live blobs of one shard; `marks` are the header and footer blocks the copy
      writes for it, none for a shard that is skipped. */
  function Query(s: Node, a: Slot, sh: ShardId, marks: Data): Node
    requires CanQuery(s, a, sh)
  {
    var t := s.tasks[a];
    SetPhase(s.(disk := Append(s.disk, t.job.to, marks)), a,
             Copying(t.phase.queried + {sh}, t.phase.todo + LiveOf(s.index, sh)))
  }

  predicate CanCopy(s: Node, a: Slot, k: Key) {
    a in s.tasks && s.tasks[a].phase.Copying? && k in s.tasks[a].phase.todo
      && InBounds(s.disk, s.tasks[a].phase.todo[k])
  }

  /** Copy one listed blob, deleted meanwhile or not, and note its new address. */
  function Copy(s: Node, a: Slot, k: Key): Node
    requires CanCopy(s, a, k)
  {
    var t := s.tasks[a];
    var data := ReadBlocks(s.disk, t.phase.todo[k]);
    var to := t.job.to;
    SetPhase(s.(disk := Append(s.disk, to, data),
                gcIndex := s.gcIndex[to := GcOf(s.gcIndex, to)[k := NextPba(s.disk, to, |data|)]]),
             a, Copying(t.phase.queried, t.phase.todo - {k}))
  }

  predicate CanEndCopy(s: Node, a: Slot) {
    && a in s.tasks && s.tasks[a].phase.Copying? && s.tasks[a].phase.todo == map[]
    && (forall sh :: sh in s.shards && InChunk(s, sh, s.tasks[a].job.from) ==> sh in s.tasks[a].phase.queried)
  }

  function EndCopy(s: Node, a: Slot): Node
    requires CanEndCopy(s, a)
  {
    SetPhase(s, a, Sweeping)
  }

  predicate CanSweep(s: Node, a: Slot, k: Key) {
    && InPhase(s, a, Sweeping) && InChunk(s, k.shard, s.tasks[a].job.from)
    && k in s.index && s.index[k] == Tombstone
  }

  function Sweep(s: Node, a: Slot, k: Key): Node
    requires CanSweep(s, a, k)
  {
    s.(index := s.index - {k})
  }

  predicate CanFlush(s: Node, a: Slot) { InPhase(s, a, Sweeping) }

  function Flush(s: Node, a: Slot): Node
    requires CanFlush(s, a)
  {
    SetPhase(Checkpoint(s), a, Copied)
  }

  predicate CanFail(s: Node, a: Slot) {
    a in s.tasks && (s.tasks[a].phase.Purging? || s.tasks[a].phase.Copying? || s.tasks[a].phase.Sweeping?)
  }

  /** Any error before the task record gives the reserved chunk back. */
  function Fail(s: Node, a: Slot): Node
    requires CanFail(s, a)
  {
    s.(tasks := s.tasks - {a}, free := s.free + {s.tasks[a].job.to})
  }

  predicate CanRecord(s: Node, a: Slot) { InPhase(s, a, Copied) }

  function Record(s: Node, a: Slot): Node
    requires CanRecord(s, a)
  {
    SetPhase(s.(recs := s.recs[a := s.tasks[a].job]), a, Swapping(GcOf(s.gcIndex, s.tasks[a].job.to)))
  }

  predicate CanSwap(s: Node, a: Slot, k: Key) {
    a in s.tasks && s.tasks[a].phase.Swapping? && k in s.tasks[a].phase.pending
  }

  /** The put filter: remove a tombstone, keep an entry that is not in `from`,
      replace the rest; a missing key stays missing. */
  function SwapEntry(index: Index, k: Key, from: Chunk, p: Pba): Index {
    if k !in index then index
    else if index[k] == Tombstone then index - {k}
    else if index[k].pba.chunk != from then index
    else index[k := Live(p)]
  }

  function Swap(s: Node, a: Slot, k: Key): Node
    requires CanSwap(s, a, k)
  {
    var t := s.tasks[a];
    SetPhase(s.(index := SwapEntry(s.index, k, t.job.from, t.phase.pending[k])), a,
             Swapping(t.phase.pending - {k}))
  }

  predicate CanMovePg(s: Node, a: Slot) {
    InPhase(s, a, Swapping(map[])) && a in s.slots
  }

  function MovePg(s: Node, a: Slot): Node
    requires CanMovePg(s, a)
  {
    SetPhase(s.(slots := s.slots[a := s.tasks[a].job.to]), a, PgMoved)
  }

  predicate CanMoveShard(s: Node, a: Slot, sh: ShardId) {
    InPhase(s, a, PgMoved) && InChunk(s, sh, s.tasks[a].job.from)
  }

  function MoveShard(s: Node, a: Slot, sh: ShardId): Node
    requires CanMoveShard(s, a, sh)
  {
    s.(shards := s.shards[sh := s.shards[sh].(chunk := s.tasks[a].job.to)])
  }

  predicate CanEndShards(s: Node, a: Slot) {
    InPhase(s, a, PgMoved) && (forall sh :: sh in s.shards ==> !InChunk(s, sh, s.tasks[a].job.from))
  }

  function EndShards(s: Node, a: Slot): Node
    requires CanEndShards(s, a)
  {
    SetPhase(s, a, ShardsMoved)
  }

  predicate CanFlushSwap(s: Node, a: Slot) { InPhase(s, a, ShardsMoved) }

  function FlushSwap(s: Node, a: Slot): Node
    requires CanFlushSwap(s, a)
  {
    SetPhase(Checkpoint(s), a, Flushed)
  }

  predicate CanMoveReserved(s: Node, a: Slot) { InPhase(s, a, Flushed) }

  function MoveReserved(s: Node, a: Slot): Node
    requires CanMoveReserved(s, a)
  {
    var j := s.tasks[a].job;
    SetPhase(s.(reserved := if j.to in s.reserved then s.reserved - {j.to} + {j.from} else s.reserved), a,
      ReservedMoved)
  }

  predicate CanDestroy(s: Node, a: Slot) { InPhase(s, a, ReservedMoved) }

  /** Destroy the record. A task of this run queues `from` as a reserved chunk;
      a recovered one leaves that to the next restart. */
  function Destroy(s: Node, a: Slot): Node
    requires CanDestroy(s, a)
  {
    s.(recs := s.recs - {a}, tasks := s.tasks - {a},
       free := if s.recovering then s.free else s.free + {s.tasks[a].job.from})
  }

  // ------------------------------------------------------------------ runs

  /** Requests entering the log, and commits. */
  datatype ClientStep =
    | PutStep(key: Key, data: Data) | DelStep(key: Key)
    | CreateStep(shard: ShardId, slot: Slot, header: Block) | SealStep(shard: ShardId, footer: Block)
    | ApplyStep

  datatype HostStep = CheckpointStep | CrashStep | RecoverStep(slot: Slot) | EndRecoveryStep

  /** A task up to its record. */
  datatype CopyStep =
    | StartStep(to: Chunk, emergent: bool) | PurgeStep | QueryStep(shard: ShardId, marks: Data)
    | CopyBlobStep(key: Key)
    | EndCopyStep | SweepStep(key: Key) | FlushStep | FailStep | RecordStep

  /** A task from its record on, fresh or recovered. */
  datatype MoveStep =
    | SwapStep(key: Key) | MovePgStep | MoveShardStep(shard: ShardId) | EndShardsStep | FlushSwapStep
    | MoveReservedStep | DestroyStep

  datatype Step =
    | Client(c: ClientStep)
    | Host(h: HostStep)
    | Collect(slot: Slot, p: CopyStep)
    | Move(slot: Slot, m: MoveStep)

  predicate ClientEnabled(s: Node, e: ClientStep) {
    match e
    case PutStep(k, d) => CanProposePut(s, k, d)
    case DelStep(k) => CanProposeDel(s, k)
    case CreateStep(sh, a, _) => CanProposeCreate(s, sh, a)
    case SealStep(sh, _) => CanProposeSeal(s, sh)
    case ApplyStep => CanApply(s)
  }

  function ClientNext(s: Node, e: ClientStep): Node
    requires ClientEnabled(s, e)
  {
    match e
    case PutStep(k, d) => ProposePut(s, k, d)
    case DelStep(k) => ProposeDel(s, k)
    case CreateStep(sh, a, b) => ProposeCreate(s, sh, a, b)
    case SealStep(sh, b) => ProposeSeal(s, sh, b)
    case ApplyStep => Apply(s)
  }

  predicate HostEnabled(s: Node, e: HostStep) {
    match e
    case CheckpointStep => true
    case CrashStep => true
    case RecoverStep(a) => CanRecover(s, a)
    case EndRecoveryStep => CanEndRecovery(s)
  }

  function HostNext(s: Node, e: HostStep): Node
    requires HostEnabled(s, e)
  {
    match e
    case CheckpointStep => Checkpoint(s)
    case CrashStep => Crash(s)
    case RecoverStep(a) => Recover(s, a)
    case EndRecoveryStep => EndRecovery(s)
  }

  predicate CopyEnabled(s: Node, a: Slot, e: CopyStep) {
    match e
    case StartStep(to, emergent) => CanStart(s, a, to, emergent)
    case PurgeStep => CanPurge(s, a)
    case QueryStep(sh, _) => CanQuery(s, a, sh)
    case CopyBlobStep(k) => CanCopy(s, a, k)
    case EndCopyStep => CanEndCopy(s, a)
    case SweepStep(k) => CanSweep(s, a, k)
    case FlushStep => CanFlush(s, a)
    case FailStep => CanFail(s, a)
    case RecordStep => CanRecord(s, a)
  }

  function CopyNext(s: Node, a: Slot, e: CopyStep): Node
    requires CopyEnabled(s, a, e)
  {
    match e
    case StartStep(to, emergent) => Start(s, a, to, emergent)
    case PurgeStep => Purge(s, a)
    case QueryStep(sh, b) => Query(s, a, sh, b)
    case CopyBlobStep(k) => Copy(s, a, k)
    case EndCopyStep => EndCopy(s, a)
    case SweepStep(k) => Sweep(s, a, k)
    case FlushStep => Flush(s, a)
    case FailStep => Fail(s, a)
    case RecordStep => Record(s, a)
  }

  predicate MoveEnabled(s: Node, a: Slot, e: MoveStep) {
    match e
    case SwapStep(k) => CanSwap(s, a, k)
    case MovePgStep => CanMovePg(s, a)
    case MoveShardStep(sh) => CanMoveShard(s, a, sh)
    case EndShardsStep => CanEndShards(s, a)
    case FlushSwapStep => CanFlushSwap(s, a)
    case MoveReservedStep => CanMoveReserved(s, a)
    case DestroyStep => CanDestroy(s, a)
  }

  function MoveNext(s: Node, a: Slot, e: MoveStep): Node
    requires MoveEnabled(s, a, e)
  {
    match e
    case SwapStep(k) => Swap(s, a, k)
    case MovePgStep => MovePg(s, a)
    case MoveShardStep(sh) => MoveShard(s, a, sh)
    case EndShardsStep => EndShards(s, a)
    case FlushSwapStep => FlushSwap(s, a)
    case MoveReservedStep => MoveReserved(s, a)
    case DestroyStep => Destroy(s, a)
  }

  predicate Enabled(s: Node, e: Step) {
    match e
    case Client(c) => ClientEnabled(s, c)
    case Host(h) => HostEnabled(s, h)
    case Collect(a, p) => CopyEnabled(s, a, p)
    case Move(a, m) => MoveEnabled(s, a, m)
  }

  function Next(s: Node, e: Step): Node
    requires Enabled(s, e)
  {
    match e
    case Client(c) => ClientNext(s, c)
    case Host(h) => HostNext(s, h)
    case Collect(a, p) => CopyNext(s, a, p)
    case Move(a, m) => MoveNext(s, a, m)
  }

  /** `steps` can be taken one after the other from `s`. */
  predicate IsRun(s: Node, steps: seq<Step>)
    decreases |steps|
  {
    steps == [] || (Enabled(s, steps[0]) && IsRun(Next(s, steps[0]), steps[1..]))
  }

  function RunOf(s: Node, steps: seq<Step>): Node
    requires IsRun(s, steps)
    decreases |steps|
  {
    if steps == [] then s else RunOf(Next(s, steps[0]), steps[1..])
  }

  // ------------------------------------------------------ what a reader sees

  /** The payload a get returns, following the index to the disk. */
  predicate Reads(s: Node, k: Key, data: Data) {
    IsLive(s.index, k) && Holds(s.disk, s.index[k].pba, data)
  }
}
