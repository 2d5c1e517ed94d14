/** How full each chunk is, from the requests and the copies alone: what clients
    wrote to a slot's chunk, and after a GC what the copy wrote. */
module GcFill {
  import opened Storage
  import opened GcMachine
  import opened GcInvariant
  import opened GcSteps
  import opened GcTaskSteps
  import opened GcTheorems
  import opened GcRequests

  /** `slot` is where each shard was asked to be, `size` the blocks of each blob put;
      `fill` are the blocks in the chunk of each slot and `recv` those written for the
      slot's copy since its receiving chunk was last emptied. */
  datatype Tally = Tally(slot: map<ShardId, Slot>, size: map<Key, nat>, fill: map<Slot, nat>, recv: map<Slot, nat>)

  function Of<T(==)>(m: map<T, nat>, x: T): nat {
    if x in m then m[x] else 0
  }

  function Plus(m: map<Slot, nat>, a: Slot, n: nat): map<Slot, nat> {
    m[a := Of(m, a) + n]
  }

  function Wrote(g: Tally, sh: ShardId, n: nat): Tally {
    if sh in g.slot then g.(fill := Plus(g.fill, g.slot[sh], n)) else g
  }

  /** A put writes its blob, a create a header, a seal a footer. A copy starts from an
      empty chunk, writes the marks of each shard and each blob it copies, and becomes
      the chunk of the slot. */
  function TallyAfter(g: Tally, e: Step): Tally {
    match e
    case Client(PutStep(k, d)) => Wrote(g, k.shard, |d|).(size := g.size[k := |d|])
    case Client(CreateStep(sh, a, _)) => g.(slot := g.slot[sh := a], fill := Plus(g.fill, a, 1))
    case Client(SealStep(sh, _)) => Wrote(g, sh, 1)
    case Collect(a, PurgeStep) => g.(recv := g.recv[a := 0])
    case Collect(a, QueryStep(_, marks)) => g.(recv := Plus(g.recv, a, |marks|))
    case Collect(a, CopyBlobStep(k)) => g.(recv := Plus(g.recv, a, Of(g.size, k)))
    case Move(a, MovePgStep) => g.(fill := g.fill[a := Of(g.recv, a)])
    case _ => g
  }

  function TallyOf(g: Tally, steps: seq<Step>): Tally
    decreases |steps|
  {
    if steps == [] then g else TallyOf(TallyAfter(g, steps[0]), steps[1..])
  }

  // ---------------------------------------------------------- the invariant

  /** The blocks of every slot's chunk. */
  ghost predicate SlotsFilled(disk: Disk, slots: map<Slot, Chunk>, fill: map<Slot, nat>) {
    forall a :: a in slots ==> |Content(disk, slots[a])| == Of(fill, a)
  }

  /** The blocks of every receiving chunk, once it is emptied. */
  ghost predicate CopiesFilled(disk: Disk, tasks: map<Slot, Task>, recs: map<Slot, Job>, recv: map<Slot, nat>) {
    && (forall a :: a in tasks && !tasks[a].phase.Purging? ==> |Content(disk, tasks[a].job.to)| == Of(recv, a))
    && (forall a :: a in recs ==> |Content(disk, recs[a].to)| == Of(recv, a))
  }

  ghost predicate SizesAre(log: seq<Op>, size: map<Key, nat>) {
    forall k :: k in Payloads(log) ==> Of(size, k) == |Payloads(log)[k]|
  }

  ghost predicate SlotsAre(log: seq<Op>, shards: map<ShardId, Shard>, slot: map<ShardId, Slot>) {
    && (forall i :: 0 <= i < |log| && log[i].Create? ==> log[i].shard in slot && slot[log[i].shard] == log[i].slot)
    && (forall sh :: sh in shards ==> sh in slot && slot[sh] == shards[sh].slot)
  }

  ghost predicate Filled(s: Node, g: Tally) {
    && SlotsFilled(s.disk, s.slots, g.fill) && CopiesFilled(s.disk, s.tasks, s.recs, g.recv)
    && SizesAre(s.log, g.size) && SlotsAre(s.log, s.shards, g.slot)
  }

  lemma SameFilled(s: Node, t: Node, g: Tally)
    requires Filled(s, g) && t.disk == s.disk && t.slots == s.slots && t.tasks == s.tasks && t.recs == s.recs
    requires SizesAre(t.log, g.size) && SlotsAre(t.log, t.shards, g.slot)
    ensures Filled(t, g)
  {
  }

  // -------------------------------------------------- writing one chunk

  /** The chunk of slot `a` is nobody else's, and no copy goes to it. */
  ghost predicate Alone(slots: map<Slot, Chunk>, tasks: map<Slot, Task>, recs: map<Slot, Job>, a: Slot) {
    && a in slots
    && (forall b :: b in tasks ==> tasks[b].job.to != slots[a])
    && (forall b :: b in recs ==> recs[b].to != slots[a])
    && (forall b :: b in slots && b != a ==> slots[b] != slots[a])
  }

  lemma SlotApart(s: Node, a: Slot)
    requires Ownership(s) && a in s.slots && !HasJob(s, a)
    ensures Alone(s.slots, s.tasks, s.recs, a)
  {
    JobAt(s, a);
    assert JobsAvoidSlots(s.slots, JobsOf(s.tasks, s.recs));
    forall b | b in s.tasks ensures s.tasks[b].job.to != s.slots[a] { JobAt(s, b); }
    forall b | b in s.recs ensures s.recs[b].to != s.slots[a] { JobAt(s, b); }
  }

  /** The chunk a task copies to is no slot's, and no other task's. */
  ghost predicate Lone(slots: map<Slot, Chunk>, tasks: map<Slot, Task>, recs: map<Slot, Job>, a: Slot) {
    && a in tasks && a !in recs
    && (forall b :: b in slots ==> slots[b] != tasks[a].job.to)
    && (forall b :: b in tasks && b != a ==> tasks[b].job.to != tasks[a].job.to)
    && (forall b :: b in recs ==> recs[b].to != tasks[a].job.to)
  }

  lemma ReceiverApart(s: Node, a: Slot)
    requires Ownership(s) && a in s.tasks && s.tasks[a].phase.BeforeRecord()
    ensures Lone(s.slots, s.tasks, s.recs, a)
  {
    JobAt(s, a);
    NoRecord(s.tasks, s.recs, a);
    var jobs := JobsOf(s.tasks, s.recs);
    assert JobsAvoidSlots(s.slots, jobs) && JobsOwn(s.slots, jobs, s.recs, s.reserved) && JobsDisjoint(jobs);
    forall b | b in s.tasks && b != a ensures s.tasks[b].job.to != s.tasks[a].job.to { JobAt(s, b); }
    forall b | b in s.recs ensures s.recs[b].to != s.tasks[a].job.to { JobAt(s, b); }
  }

  /** A client writes to the chunk of slot `a`. */
  lemma SlotWrite(s: Node, a: Slot, blocks: Data, g: Tally)
    requires Alone(s.slots, s.tasks, s.recs, a)
    requires SlotsFilled(s.disk, s.slots, g.fill) && CopiesFilled(s.disk, s.tasks, s.recs, g.recv)
    ensures var disk := Append(s.disk, s.slots[a], blocks);
      SlotsFilled(disk, s.slots, Plus(g.fill, a, |blocks|)) && CopiesFilled(disk, s.tasks, s.recs, g.recv)
  {
    FillSlot(s.disk, s.slots, g.fill, a, blocks);
    FillElsewhere(s.disk, s.tasks, s.recs, g.recv, s.slots[a], blocks);
  }

  lemma FillSlot(disk: Disk, slots: map<Slot, Chunk>, fill: map<Slot, nat>, a: Slot, blocks: Data)
    requires SlotsFilled(disk, slots, fill) && a in slots && (forall b :: b in slots && b != a ==> slots[b] != slots[a])
    ensures SlotsFilled(Append(disk, slots[a], blocks), slots, Plus(fill, a, |blocks|))
  {
  }

  lemma FillElsewhere(disk: Disk, tasks: map<Slot, Task>, recs: map<Slot, Job>, recv: map<Slot, nat>, c: Chunk,
                      blocks: Data)
    requires CopiesFilled(disk, tasks, recs, recv)
    requires (forall b :: b in tasks ==> tasks[b].job.to != c) && (forall b :: b in recs ==> recs[b].to != c)
    ensures CopiesFilled(Append(disk, c, blocks), tasks, recs, recv)
  {
  }

  /** A copy empties its chunk or adds to it. */
  lemma CopyWrite(disk: Disk, slots: map<Slot, Chunk>, tasks: map<Slot, Task>, recs: map<Slot, Job>, g: Tally, a: Slot,
                  disk': Disk, task: Task, n: nat)
    requires SlotsFilled(disk, slots, g.fill) && CopiesFilled(disk, tasks, recs, g.recv) && Lone(slots, tasks, recs, a)
    requires disk'.Keys + {tasks[a].job.to} == disk.Keys + {tasks[a].job.to} && task.job == tasks[a].job
    requires forall c :: c in disk && c != tasks[a].job.to ==> c in disk' && disk'[c] == disk[c]
    requires |Content(disk', tasks[a].job.to)| == n
    ensures SlotsFilled(disk', slots, g.fill) && CopiesFilled(disk', tasks[a := task], recs, g.recv[a := n])
  {
    forall c | c != tasks[a].job.to ensures Content(disk', c) == Content(disk, c) {
      assert c in disk'.Keys + {tasks[a].job.to} <==> c in disk.Keys + {tasks[a].job.to};
    }
  }

  /** A task that copies no more changes its phase. */
  lemma PhaseCopies(disk: Disk, tasks: map<Slot, Task>, recs: map<Slot, Job>, recv: map<Slot, nat>, a: Slot, p: Phase)
    requires CopiesFilled(disk, tasks, recs, recv) && a in tasks && !tasks[a].phase.Purging?
    ensures CopiesFilled(disk, tasks[a := tasks[a].(phase := p)], recs, recv)
  {
  }

  lemma SlotMoved(disk: Disk, slots: map<Slot, Chunk>, fill: map<Slot, nat>, a: Slot, to: Chunk)
    requires SlotsFilled(disk, slots, fill)
    ensures SlotsFilled(disk, slots[a := to], fill[a := |Content(disk, to)|])
  {
  }

  // ---------------------------------------------------------- client steps

  lemma LoggedSizes(log: seq<Op>, op: Op, size: map<Key, nat>)
    requires SizesAre(log, size) && !op.Put?
    ensures SizesAre(log + [op], size)
  {
    assert (log + [op])[..|log|] == log;
  }

  lemma PutSizes(log: seq<Op>, op: Op, size: map<Key, nat>)
    requires SizesAre(log, size) && op.Put?
    ensures SizesAre(log + [op], size[op.key := |op.data|])
  {
    assert (log + [op])[..|log|] == log;
    forall k | k in Payloads(log + [op]) ensures Of(size[op.key := |op.data|], k) == |Payloads(log + [op])[k]| {
      if k != op.key { assert Of(size, k) == |Payloads(log)[k]|; }
    }
  }

  lemma LoggedSlots(log: seq<Op>, op: Op, shards: map<ShardId, Shard>, slot: map<ShardId, Slot>)
    requires SlotsAre(log, shards, slot) && !op.Create?
    ensures SlotsAre(log + [op], shards, slot)
  {
  }

  lemma CreateSlots(log: seq<Op>, sh: ShardId, a: Slot, c: Chunk, shards: map<ShardId, Shard>, slot: map<ShardId, Slot>)
    requires SlotsAre(log, shards, slot) && sh !in shards
    requires forall i :: 0 <= i < |log| && log[i].Create? ==> log[i].shard != sh
    ensures SlotsAre(log + [Create(sh, a, c)], shards, slot[sh := a])
  {
  }

  /** A shard whose slot has no task is in the slot's chunk. */
  lemma ShardHome(s: Node, sh: ShardId)
    requires Ownership(s) && PlacedShards(s.slots, s.recs, s.shards) && sh in s.shards
    requires !HasJob(s, s.shards[sh].slot)
    ensures Alone(s.slots, s.tasks, s.recs, s.shards[sh].slot)
    ensures s.shards[sh].chunk == s.slots[s.shards[sh].slot]
  {
    assert InHome(s.slots, s.recs, s.shards[sh].slot, s.shards[sh].chunk);
    SlotApart(s, s.shards[sh].slot);
  }

  ghost predicate AtHome(s: Node, sh: ShardId) {
    && sh in s.shards && Alone(s.slots, s.tasks, s.recs, s.shards[sh].slot)
    && s.shards[sh].chunk == s.slots[s.shards[sh].slot]
  }

  lemma PutFill(s: Node, k: Key, d: Data, t: Node, g: Tally)
    requires AtHome(s, k.shard) && Filled(s, g) && CanProposePut(s, k, d) && t == ProposePut(s, k, d)
    ensures Filled(t, TallyAfter(g, Client(PutStep(k, d))))
  {
    var a := s.shards[k.shard].slot;
    SlotWrite(s, a, d, g);
    PutSizes(s.log, t.log[|s.log|], g.size);
    LoggedSlots(s.log, t.log[|s.log|], s.shards, g.slot);
  }

  lemma SealFill(s: Node, sh: ShardId, b: Block, t: Node, g: Tally)
    requires AtHome(s, sh) && Filled(s, g) && CanProposeSeal(s, sh) && t == ProposeSeal(s, sh, b)
    ensures Filled(t, TallyAfter(g, Client(SealStep(sh, b))))
  {
    SlotWrite(s, s.shards[sh].slot, [b], g);
    LoggedSizes(s.log, Seal(sh), g.size);
    LoggedSlots(s.log, Seal(sh), s.shards, g.slot);
  }

  lemma CreateFill(s: Node, sh: ShardId, a: Slot, b: Block, t: Node, g: Tally)
    requires Alone(s.slots, s.tasks, s.recs, a) && Filled(s, g)
    requires CanProposeCreate(s, sh, a) && t == ProposeCreate(s, sh, a, b)
    ensures Filled(t, TallyAfter(g, Client(CreateStep(sh, a, b))))
  {
    SlotWrite(s, a, [b], g);
    LoggedSizes(s.log, Create(sh, a, s.slots[a]), g.size);
    CreateSlots(s.log, sh, a, s.slots[a], s.shards, g.slot);
  }

  lemma DelFill(s: Node, k: Key, t: Node, g: Tally)
    requires Filled(s, g) && CanProposeDel(s, k) && t == ProposeDel(s, k)
    ensures Filled(t, g)
  {
    LoggedSizes(s.log, Del(k), g.size);
    LoggedSlots(s.log, Del(k), s.shards, g.slot);
  }

  /** A commit changes shard records and the index, nothing this depends on else. */
  ghost predicate OnlyShards(s: Node, t: Node) {
    t.disk == s.disk && t.slots == s.slots && t.tasks == s.tasks && t.recs == s.recs && t.log == s.log
  }

  lemma ApplyBlobOnly(s: Node)
    requires CanApply(s) && (s.log[s.applied].Put? || s.log[s.applied].Del?)
    ensures OnlyShards(s, Apply(s))
  {
  }

  lemma ApplyShardOnly(s: Node)
    requires CanApply(s) && (s.log[s.applied].Create? || s.log[s.applied].Seal?)
    ensures OnlyShards(s, Apply(s))
  {
  }

  lemma CommitSlots(log: seq<Op>, i: nat, shards: map<ShardId, Shard>, slot: map<ShardId, Slot>)
    requires SlotsAre(log, shards, slot) && i < |log|
    ensures SlotsAre(log, ShardsAfter(shards, log[i]), slot)
  {
  }

  lemma ApplyFill(s: Node, t: Node, g: Tally)
    requires Filled(s, g) && CanApply(s) && t == Apply(s)
    ensures Filled(t, g)
  {
    if s.log[s.applied].Put? || s.log[s.applied].Del? { ApplyBlobOnly(s); } else { ApplyShardOnly(s); }
    ApplyShardsAfter(s);
    CommitSlots(s.log, s.applied, s.shards, g.slot);
    SameFilled(s, t, g);
  }

  lemma ClientFill(s: Node, e: ClientStep, t: Node, g: Tally)
    requires Ownership(s) && PlacedShards(s.slots, s.recs, s.shards) && Filled(s, g)
    requires ClientEnabled(s, e) && t == ClientNext(s, e)
    ensures Filled(t, TallyAfter(g, Client(e)))
  {
    match e
    case PutStep(k, d) =>
      ShardHome(s, k.shard);
      PutFill(s, k, d, t, g);
    case DelStep(k) => DelFill(s, k, t, g);
    case CreateStep(sh, a, b) =>
      SlotApart(s, a);
      CreateFill(s, sh, a, b, t, g);
    case SealStep(sh, b) =>
      ShardHome(s, sh);
      SealFill(s, sh, b, t, g);
    case ApplyStep => ApplyFill(s, t, g);
  }

  lemma HostFill(s: Node, e: HostStep, t: Node, g: Tally)
    requires Filled(s, g) && HostEnabled(s, e) && t == HostNext(s, e)
    ensures Filled(t, g)
  {
    match e
    case CheckpointStep =>
    case CrashStep =>
    case RecoverStep(_) =>
    case EndRecoveryStep =>
  }

  // ------------------------------------------------------------ copy steps

  lemma PurgeFill(s: Node, a: Slot, t: Node, g: Tally)
    requires Lone(s.slots, s.tasks, s.recs, a) && Filled(s, g) && CanPurge(s, a) && t == Purge(s, a)
    ensures Filled(t, TallyAfter(g, Collect(a, PurgeStep)))
  {
    CopyWrite(s.disk, s.slots, s.tasks, s.recs, g, a, t.disk, t.tasks[a], 0);
  }

  lemma QueryFill(s: Node, a: Slot, sh: ShardId, marks: Data, t: Node, g: Tally)
    requires Lone(s.slots, s.tasks, s.recs, a) && Filled(s, g) && CanQuery(s, a, sh) && t == Query(s, a, sh, marks)
    ensures Filled(t, TallyAfter(g, Collect(a, QueryStep(sh, marks))))
  {
    CopyWrite(s.disk, s.slots, s.tasks, s.recs, g, a, t.disk, t.tasks[a], Of(g.recv, a) + |marks|);
  }

  /** The copied blob has the size it was put with. */
  lemma CopiedSize(s: Node, a: Slot, k: Key, g: Tally)
    requires Progress(s) && CanCopy(s, a, k) && SizesAre(s.log, g.size)
    ensures |ReadBlocks(s.disk, s.tasks[a].phase.todo[k])| == Of(g.size, k)
  {
    var j, p := s.tasks[a].job, s.tasks[a].phase;
    assert PhaseOk(ViewOf(s), a, j, p);
    assert TruthfulIn(s.disk, Payloads(s.log), p.todo, j.from);
    assert k in Payloads(s.log) && Holds(s.disk, p.todo[k], Payloads(s.log)[k]);
  }

  lemma CopyFill(s: Node, a: Slot, k: Key, t: Node, g: Tally)
    requires Lone(s.slots, s.tasks, s.recs, a) && Filled(s, g) && CanCopy(s, a, k) && t == Copy(s, a, k)
    requires |ReadBlocks(s.disk, s.tasks[a].phase.todo[k])| == Of(g.size, k)
    ensures Filled(t, TallyAfter(g, Collect(a, CopyBlobStep(k))))
  {
    CopyWrite(s.disk, s.slots, s.tasks, s.recs, g, a, t.disk, t.tasks[a], Of(g.recv, a) + Of(g.size, k));
  }

  /** Steps of a task that write no block. */
  lemma TaskFill(s: Node, t: Node, g: Tally)
    requires Filled(s, g) && t.disk == s.disk && t.slots == s.slots && t.log == s.log && t.shards == s.shards
    requires CopiesFilled(t.disk, t.tasks, t.recs, g.recv)
    ensures Filled(t, g)
  {
  }

  lemma StartFill(s: Node, a: Slot, to: Chunk, emergent: bool, t: Node, g: Tally)
    requires Filled(s, g) && CanStart(s, a, to, emergent) && t == Start(s, a, to, emergent)
    ensures Filled(t, g)
  {
    TaskFill(s, t, g);
  }

  lemma PhaseFill(s: Node, a: Slot, e: CopyStep, t: Node, g: Tally)
    requires Filled(s, g) && CopyEnabled(s, a, e) && t == CopyNext(s, a, e) && (e.EndCopyStep? || e.FlushStep?)
    ensures Filled(t, g)
  {
    PhaseCopies(s.disk, s.tasks, s.recs, g.recv, a, t.tasks[a].phase);
    TaskFill(s, t, g);
  }

  lemma RecordFill(s: Node, a: Slot, t: Node, g: Tally)
    requires Filled(s, g) && CanRecord(s, a) && t == Record(s, a)
    ensures Filled(t, g)
  {
    PhaseCopies(s.disk, s.tasks, s.recs, g.recv, a, t.tasks[a].phase);
    TaskFill(s, t, g);
  }

  lemma PlainFill(s: Node, a: Slot, e: CopyStep, t: Node, g: Tally)
    requires Filled(s, g) && CopyEnabled(s, a, e) && t == CopyNext(s, a, e)
    requires !e.PurgeStep? && !e.QueryStep? && !e.CopyBlobStep?
    ensures Filled(t, g)
  {
    match e
    case StartStep(to, emergent) => StartFill(s, a, to, emergent, t, g);
    case EndCopyStep => PhaseFill(s, a, e, t, g);
    case SweepStep(_) => TaskFill(s, t, g);
    case FlushStep => PhaseFill(s, a, e, t, g);
    case FailStep => TaskFill(s, t, g);
    case RecordStep => RecordFill(s, a, t, g);
  }

  lemma CollectFill(s: Node, a: Slot, e: CopyStep, t: Node, g: Tally)
    requires Filled(s, g) && CopyEnabled(s, a, e) && t == CopyNext(s, a, e)
    requires e.PurgeStep? || e.QueryStep? || e.CopyBlobStep? ==> Lone(s.slots, s.tasks, s.recs, a)
    requires e.CopyBlobStep? ==> |ReadBlocks(s.disk, s.tasks[a].phase.todo[e.key])| == Of(g.size, e.key)
    ensures Filled(t, TallyAfter(g, Collect(a, e)))
  {
    if e.PurgeStep? {
      PurgeFill(s, a, t, g);
    } else if e.QueryStep? {
      QueryFill(s, a, e.shard, e.marks, t, g);
    } else if e.CopyBlobStep? {
      CopyFill(s, a, e.key, t, g);
    } else {
      PlainFill(s, a, e, t, g);
    }
  }

  // ------------------------------------------------------------ move steps

  lemma MovePgFill(s: Node, a: Slot, t: Node, g: Tally)
    requires Filled(s, g) && CanMovePg(s, a) && t == MovePg(s, a)
    ensures Filled(t, TallyAfter(g, Move(a, MovePgStep)))
  {
    PhaseCopies(s.disk, s.tasks, s.recs, g.recv, a, PgMoved);
    SlotMoved(s.disk, s.slots, g.fill, a, s.tasks[a].job.to);
  }

  lemma LateFill(s: Node, a: Slot, e: MoveStep, t: Node, g: Tally)
    requires Filled(s, g) && MoveEnabled(s, a, e) && t == MoveNext(s, a, e)
    requires e.SwapStep? || e.EndShardsStep? || e.FlushSwapStep? || e.MoveReservedStep?
    ensures Filled(t, g)
  {
    PhaseCopies(s.disk, s.tasks, s.recs, g.recv, a, t.tasks[a].phase);
    TaskFill(s, t, g);
  }

  lemma MoveShardFill(s: Node, a: Slot, sh: ShardId, t: Node, g: Tally)
    requires Filled(s, g) && CanMoveShard(s, a, sh) && t == MoveShard(s, a, sh)
    ensures Filled(t, g)
  {
    SameFilled(s, t, g);
  }

  lemma MoveFill(s: Node, a: Slot, e: MoveStep, t: Node, g: Tally)
    requires Filled(s, g) && MoveEnabled(s, a, e) && t == MoveNext(s, a, e)
    ensures Filled(t, TallyAfter(g, Move(a, e)))
  {
    if e.MovePgStep? {
      MovePgFill(s, a, t, g);
    } else if e.MoveShardStep? {
      MoveShardFill(s, a, e.shard, t, g);
    } else if e.DestroyStep? {
      TaskFill(s, t, g);
    } else {
      LateFill(s, a, e, t, g);
    }
  }

  lemma CopyReady(s: Node, a: Slot, e: CopyStep, g: Tally)
    requires Ownership(s) && Progress(s) && SizesAre(s.log, g.size) && CopyEnabled(s, a, e)
    ensures e.PurgeStep? || e.QueryStep? || e.CopyBlobStep? ==> Lone(s.slots, s.tasks, s.recs, a)
    ensures e.CopyBlobStep? ==> |ReadBlocks(s.disk, s.tasks[a].phase.todo[e.key])| == Of(g.size, e.key)
  {
    if e.PurgeStep? || e.QueryStep? || e.CopyBlobStep? { ReceiverApart(s, a); }
    if e.CopyBlobStep? { CopiedSize(s, a, e.key, g); }
  }

  lemma StepFill(s: Node, e: Step, t: Node, g: Tally)
    requires Inv(s) && Filled(s, g) && Enabled(s, e) && t == Next(s, e)
    ensures Filled(t, TallyAfter(g, e))
  {
    match e
    case Client(c) => ClientFill(s, c, t, g);
    case Host(h) => HostFill(s, h, t, g);
    case Collect(a, p) =>
      CopyReady(s, a, p, g);
      CollectFill(s, a, p, t, g);
    case Move(a, m) => MoveFill(s, a, m, t, g);
  }

  lemma {:induction false} RunFill(s: Node, steps: seq<Step>, g: Tally)
    requires Inv(s) && IsRun(s, steps) && Filled(s, g)
    ensures Filled(RunOf(s, steps), TallyOf(g, steps))
    decreases |steps|
  {
    if steps != [] {
      StepInv(s, steps[0]);
      StepFill(s, steps[0], Next(s, steps[0]), g);
      RunFill(Next(s, steps[0]), steps[1..], TallyAfter(g, steps[0]));
    }
  }

  /** What each slot's chunk holds at the start. */
  function Before(s: Node): Tally {
    Tally(map[], map[], map a | a in s.slots :: |Content(s.disk, s.slots[a])|, map[])
  }

  /** In every run the chunk of a slot holds exactly the blocks written to it: those of
      clients since the start, or since the last GC of the slot those of its copy, which
      are the marks of the shards and the blobs copied, and of clients after it. The
      same goes for the receiving chunk of a copy under way. */
  lemma FillFollowsRequests(s0: Node, steps: seq<Step>, a: Slot)
    requires Init(s0) && IsRun(s0, steps)
    ensures var s, g := RunOf(s0, steps), TallyOf(Before(s0), steps);
      && (a in s.slots ==> |Content(s.disk, s.slots[a])| == Of(g.fill, a))
      && (a in s.tasks && !s.tasks[a].phase.Purging? ==> |Content(s.disk, s.tasks[a].job.to)| == Of(g.recv, a))
  {
    InitInv(s0);
    RunFill(s0, steps, Before(s0));
  }
}
