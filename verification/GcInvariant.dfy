/** The inductive invariant of the replica. Each part names only the fields it
    depends on, so that a step which leaves them alone keeps it. */
module GcInvariant {
  import opened Storage
  import opened GcMachine

  // ------------------------------------------------------------- the log

  ghost predicate UniquePuts(log: seq<Op>) {
    forall i, j :: 0 <= i < j < |log| && log[i].Put? && log[j].Put? ==> log[i].key != log[j].key
  }

  ghost predicate DelsFollowPuts(log: seq<Op>) {
    forall i :: 0 <= i < |log| && log[i].Del? ==> log[i].key in PutKeys(log, i)
  }

  /** No put of a shard follows its seal. */
  ghost predicate SealsLast(log: seq<Op>) {
    forall i, j :: 0 <= i < |log| && 0 <= j < |log| && log[i].Seal? && log[j].Put? && log[j].key.shard == log[i].shard
      ==> j < i
  }

  ghost predicate LogOk(log: seq<Op>) {
    UniquePuts(log) && DelsFollowPuts(log) && SealsLast(log)
  }

  ghost predicate Cursors(s: Node) {
    s.cpLsn <= s.applied <= |s.log| && s.dcLsn <= |s.log|
  }

  // ----------------------------------------------------- who owns a chunk

  function JobsOf(tasks: map<Slot, Task>, recs: map<Slot, Job>): map<Slot, Job> {
    (map a | a in tasks :: tasks[a].job) + recs
  }

  ghost predicate SlotsDistinct(slots: map<Slot, Chunk>) {
    forall a, b :: a in slots && b in slots && a != b ==> slots[a] != slots[b]
  }

  ghost predicate Uses(j: Job, c: Chunk) { c == j.from || c == j.to }

  ghost predicate JobsOwn(slots: map<Slot, Chunk>, jobs: map<Slot, Job>, recs: map<Slot, Job>, reserved: set<Chunk>) {
    forall a :: a in jobs ==>
      && a in slots && jobs[a].from != jobs[a].to && Uses(jobs[a], slots[a])
      && (a !in recs ==> slots[a] == jobs[a].from && jobs[a].to in reserved && jobs[a].from !in reserved)
      && (a in recs ==> (jobs[a].to in reserved) != (jobs[a].from in reserved))
  }

  ghost predicate JobsAvoidSlots(slots: map<Slot, Chunk>, jobs: map<Slot, Job>) {
    forall a, b :: a in jobs && b in slots && a != b ==> !Uses(jobs[a], slots[b])
  }

  ghost predicate JobsDisjoint(jobs: map<Slot, Job>) {
    forall a, b :: a in jobs && b in jobs && a != b ==> !Uses(jobs[b], jobs[a].from) && !Uses(jobs[b], jobs[a].to)
  }

  ghost predicate FreeOk(slots: map<Slot, Chunk>, jobs: map<Slot, Job>, reserved: set<Chunk>, free: set<Chunk>) {
    && free <= reserved
    && (forall c, a :: c in free && a in slots ==> slots[a] != c)
    && (forall c, a :: c in free && a in jobs ==> !Uses(jobs[a], c))
  }

  ghost predicate ReservedOk(slots: map<Slot, Chunk>, recs: map<Slot, Job>, reserved: set<Chunk>) {
    forall a :: a in slots && slots[a] in reserved ==> a in recs
  }

  ghost predicate Owned(slots: map<Slot, Chunk>, jobs: map<Slot, Job>, recs: map<Slot, Job>, reserved: set<Chunk>,
                        free: set<Chunk>) {
    && SlotsDistinct(slots) && JobsOwn(slots, jobs, recs, reserved) && JobsAvoidSlots(slots, jobs) && JobsDisjoint(jobs)
    && FreeOk(slots, jobs, reserved, free) && ReservedOk(slots, recs, reserved)
  }

  /** A running task has a record exactly from the moment it wrote it. */
  ghost predicate RecsMatch(tasks: map<Slot, Task>, recs: map<Slot, Job>) {
    forall a :: a in tasks ==>
      && (a in recs <==> !tasks[a].phase.BeforeRecord())
      && (a in recs ==> tasks[a].job == recs[a])
  }

  // ------------------------------------------------ where things are stored

  /** Where shard records and live entries of slot `a` may point. */
  ghost predicate InHome(slots: map<Slot, Chunk>, recs: map<Slot, Job>, a: Slot, c: Chunk) {
    a in slots && (if a in recs then Uses(recs[a], c) else c == slots[a])
  }

  ghost predicate PlacedShards(slots: map<Slot, Chunk>, recs: map<Slot, Job>, shards: map<ShardId, Shard>) {
    forall sh :: sh in shards ==> InHome(slots, recs, shards[sh].slot, shards[sh].chunk)
  }

  ghost predicate PlacedIndex(slots: map<Slot, Chunk>, recs: map<Slot, Job>, shards: map<ShardId, Shard>,
                              index: Index) {
    forall k :: IsLive(index, k) ==> k.shard in shards && InHome(slots, recs, shards[k.shard].slot, index[k].pba.chunk)
  }

  // --------------------------------- the index, as an image of a log prefix

  /** Every live entry leads to the payload the client put. */
  ghost predicate Truthful(disk: Disk, pl: map<Key, Data>, index: Index) {
    forall k :: IsLive(index, k) ==> k in pl && Holds(disk, index[k].pba, pl[k])
  }

  ghost predicate TruthfulIn(disk: Disk, pl: map<Key, Data>, m: map<Key, Pba>, c: Chunk) {
    forall k :: k in m ==> m[k].chunk == c && k in pl && Holds(disk, m[k], pl[k])
  }

  /** The live keys are those the first `n` operations leave alive. */
  ghost predicate ImageOf(log: seq<Op>, n: nat, index: Index) {
    n <= |log| && LiveKeys(index) == Alive(log, n) && index.Keys <= PutKeys(log, n)
  }

  // ------------------------------------------ what the log has yet to commit

  /** A put that a crash would replay still finds its shard where it was written. */
  ghost predicate PutReady(pl: map<Key, Data>, op: Op, disk: Disk, slots: map<Slot, Chunk>, recs: map<Slot, Job>,
                           shards: map<ShardId, Shard>)
    requires op.Put?
  {
    var sh := op.key.shard;
    && sh in shards && shards[sh].slot in slots && shards[sh].slot !in recs
    && op.pba.chunk == slots[shards[sh].slot]
    && op.key in pl && pl[op.key] == op.data && Holds(disk, op.pba, op.data)
  }

  ghost predicate PutsAhead(log: seq<Op>, from: nat, disk: Disk, slots: map<Slot, Chunk>, recs: map<Slot, Job>,
                            shards: map<ShardId, Shard>) {
    forall i :: from <= i < |log| && log[i].Put? ==> PutReady(Payloads(log), log[i], disk, slots, recs, shards)
  }

  ghost predicate CreatesAhead(log: seq<Op>, slots: map<Slot, Chunk>, shards: map<ShardId, Shard>,
                               jobs: map<Slot, Job>) {
    forall i :: 0 <= i < |log| && log[i].Create? && log[i].shard !in shards ==>
      log[i].slot in slots && slots[log[i].slot] == log[i].chunk && log[i].slot !in jobs
  }

  /** Sealing flushed the durable commit position past the shard's puts. */
  ghost predicate SealFlushed(log: seq<Op>, dcLsn: nat, shards: map<ShardId, Shard>) {
    forall i :: 0 <= i < |log| && log[i].Put? && log[i].key.shard in shards && shards[log[i].key.shard].sealed ==>
      i < dcLsn
  }

  // ------------------------------------------------------ progress of a task

  /** Every live entry of slot `a` still in `from` has a copy listed in `copies`. */
  ghost predicate Covered(shards: map<ShardId, Shard>, index: Index, a: Slot, from: Chunk, copies: map<Key, Pba>) {
    forall k :: IsLive(index, k) && InSlot(shards, k.shard, a) && index[k].pba.chunk == from ==> k in copies
  }

  ghost predicate AllIn(shards: map<ShardId, Shard>, index: Index, a: Slot, c: Chunk) {
    forall k :: IsLive(index, k) && InSlot(shards, k.shard, a) ==> index[k].pba.chunk == c
  }

  ghost predicate ShardsIn(shards: map<ShardId, Shard>, a: Slot, c: Chunk) {
    forall sh :: InSlot(shards, sh, a) ==> shards[sh].chunk == c
  }

  /** The part of the state a task's progress depends on. */
  datatype View = View(log: seq<Op>, cpLsn: nat, index: Index, dIndex: Index, gcIndex: GcIndex, dGcIndex: GcIndex,
                       disk: Disk, slots: map<Slot, Chunk>, shards: map<ShardId, Shard>, reserved: set<Chunk>)

  function ViewOf(s: Node): View {
    View(s.log, s.cpLsn, s.index, s.dIndex, s.gcIndex, s.dGcIndex, s.disk, s.slots, s.shards, s.reserved)
  }

  ghost predicate CopiesTrue(v: View, j: Job) {
    TruthfulIn(v.disk, Payloads(v.log), GcOf(v.gcIndex, j.to), j.to)
  }

  /** What a task record promises, from the checkpoint before it on. */
  ghost predicate Recorded(v: View, a: Slot, j: Job) {
    && CopiesTrue(v, j) && GcOf(v.gcIndex, j.to) == GcOf(v.dGcIndex, j.to)
    && Covered(v.shards, v.index, a, j.from, GcOf(v.gcIndex, j.to))
    && Covered(v.shards, v.dIndex, a, j.from, GcOf(v.gcIndex, j.to))
    && Quiet(v.log, v.shards, a, v.cpLsn)
  }

  ghost predicate PhaseOk(v: View, a: Slot, j: Job, p: Phase) {
    match p
    case Purging => true
    case Copying(queried, todo) =>
      && CopiesTrue(v, j) && TruthfulIn(v.disk, Payloads(v.log), todo, j.from)
      && (forall k :: IsLive(v.index, k) && InSlot(v.shards, k.shard, a) && k.shard in queried
            ==> k in todo || k in GcOf(v.gcIndex, j.to))
    case Sweeping => CopiesTrue(v, j) && Covered(v.shards, v.index, a, j.from, GcOf(v.gcIndex, j.to))
    case Copied => Recorded(v, a, j)
    case Swapping(pending) =>
      && (forall k :: k in pending ==> k in GcOf(v.gcIndex, j.to) && pending[k] == GcOf(v.gcIndex, j.to)[k])
      && Covered(v.shards, v.index, a, j.from, pending)
    case PgMoved => MovedPg(v, a, j)
    case ShardsMoved => MovedShards(v, a, j)
    case Flushed => MovedShards(v, a, j) && AllIn(v.shards, v.dIndex, a, j.to)
    case ReservedMoved =>
      MovedShards(v, a, j) && AllIn(v.shards, v.dIndex, a, j.to) && j.from in v.reserved && j.to !in v.reserved
  }

  ghost predicate MovedPg(v: View, a: Slot, j: Job) {
    a in v.slots && v.slots[a] == j.to && AllIn(v.shards, v.index, a, j.to)
  }

  ghost predicate MovedShards(v: View, a: Slot, j: Job) {
    MovedPg(v, a, j) && ShardsIn(v.shards, a, j.to)
  }

  ghost predicate TasksOk(v: View, tasks: map<Slot, Task>) {
    forall a :: a in tasks ==> PhaseOk(v, a, tasks[a].job, tasks[a].phase)
  }

  ghost predicate TasksQuiet(log: seq<Op>, shards: map<ShardId, Shard>, applied: nat, tasks: map<Slot, Task>) {
    forall a :: a in tasks ==> Quiet(log, shards, a, applied)
  }

  ghost predicate RecsOk(v: View, recs: map<Slot, Job>) {
    forall a :: a in recs ==> Recorded(v, a, recs[a])
  }

  // ------------------------------------------------------- the invariant

  ghost predicate Ownership(s: Node) {
    Owned(s.slots, JobsOf(s.tasks, s.recs), s.recs, s.reserved, s.free) && RecsMatch(s.tasks, s.recs)
  }

  ghost predicate Placement(s: Node) {
    && PlacedShards(s.slots, s.recs, s.shards)
    && PlacedIndex(s.slots, s.recs, s.shards, s.index) && PlacedIndex(s.slots, s.recs, s.shards, s.dIndex)
  }

  ghost predicate Contents(s: Node) {
    && Truthful(s.disk, Payloads(s.log), s.index) && Truthful(s.disk, Payloads(s.log), s.dIndex)
    && ImageOf(s.log, s.applied, s.index) && ImageOf(s.log, s.cpLsn, s.dIndex)
  }

  ghost predicate Ahead(s: Node) {
    && PutsAhead(s.log, s.cpLsn, s.disk, s.slots, s.recs, s.shards)
    && CreatesAhead(s.log, s.slots, s.shards, JobsOf(s.tasks, s.recs))
    && SealFlushed(s.log, s.dcLsn, s.shards)
  }

  ghost predicate Progress(s: Node) {
    && TasksOk(ViewOf(s), s.tasks) && TasksQuiet(s.log, s.shards, s.applied, s.tasks) && RecsOk(ViewOf(s), s.recs)
  }

  ghost predicate Inv(s: Node) {
    LogOk(s.log) && Cursors(s) && Ownership(s) && Placement(s) && Contents(s) && Ahead(s) && Progress(s)
  }

  lemma InitInv(s: Node)
    requires Init(s)
    ensures Inv(s)
  {
  }

  // ------------------------------------------------------------- framing

  /** What a step must leave alone for the task of slot `a`, when it is not that
      task's own step. */
  ghost predicate Frame(v: View, w: View, a: Slot, j: Job) {
    && (forall p: Pba, d :: Uses(j, p.chunk) && Holds(v.disk, p, d) ==> Holds(w.disk, p, d))
    && (forall k :: k in Payloads(v.log) ==> k in Payloads(w.log) && Payloads(w.log)[k] == Payloads(v.log)[k])
    && (forall k :: IsLive(w.index, k) && InSlot(w.shards, k.shard, a) ==>
          InSlot(v.shards, k.shard, a) && IsLive(v.index, k) && w.index[k] == v.index[k])
    && (forall k :: IsLive(w.dIndex, k) && InSlot(w.shards, k.shard, a) ==>
          InSlot(v.shards, k.shard, a) &&
          ((IsLive(v.dIndex, k) && w.dIndex[k] == v.dIndex[k]) || (IsLive(v.index, k) && w.dIndex[k] == v.index[k])))
    && GcOf(w.gcIndex, j.to) == GcOf(v.gcIndex, j.to)
    && (GcOf(w.dGcIndex, j.to) == GcOf(v.dGcIndex, j.to) || GcOf(w.dGcIndex, j.to) == GcOf(v.gcIndex, j.to))
    && (forall sh :: InSlot(w.shards, sh, a) ==> InSlot(v.shards, sh, a) && w.shards[sh].chunk == v.shards[sh].chunk)
    && (a in v.slots ==> a in w.slots && w.slots[a] == v.slots[a])
    && (j.from in v.reserved ==> j.from in w.reserved) && (j.to !in v.reserved ==> j.to !in w.reserved)
    && (Quiet(v.log, v.shards, a, v.cpLsn) ==> Quiet(w.log, w.shards, a, w.cpLsn))
  }

  lemma FramePhase(v: View, w: View, a: Slot, j: Job, p: Phase)
    requires Frame(v, w, a, j) && PhaseOk(v, a, j, p)
    ensures PhaseOk(w, a, j, p)
  {
  }

  lemma FrameRecorded(v: View, w: View, a: Slot, j: Job)
    requires Frame(v, w, a, j) && Recorded(v, a, j)
    ensures Recorded(w, a, j)
  {
  }

  lemma SetPhaseJobs(s: Node, a: Slot, p: Phase)
    requires a in s.tasks
    ensures JobsOf(SetPhase(s, a, p).tasks, s.recs) == JobsOf(s.tasks, s.recs)
  {
    var t := SetPhase(s, a, p);
    assert JobsOf(t.tasks, s.recs).Keys == JobsOf(s.tasks, s.recs).Keys;
  }

  lemma PhaseOwnership(s: Node, a: Slot, p: Phase)
    requires Ownership(s) && a in s.tasks && p.BeforeRecord() == s.tasks[a].phase.BeforeRecord()
    ensures Ownership(SetPhase(s, a, p))
  {
    SetPhaseJobs(s, a, p);
    PhaseRecsMatch(s, a, p);
  }

  lemma PhaseRecsMatch(s: Node, a: Slot, p: Phase)
    requires RecsMatch(s.tasks, s.recs) && a in s.tasks && p.BeforeRecord() == s.tasks[a].phase.BeforeRecord()
    ensures RecsMatch(SetPhase(s, a, p).tasks, s.recs)
  {
  }

  lemma PhaseProgress(s: Node, a: Slot, p: Phase)
    requires Progress(s) && a in s.tasks && PhaseOk(ViewOf(s), a, s.tasks[a].job, p)
    ensures Progress(SetPhase(s, a, p))
  {
    assert ViewOf(SetPhase(s, a, p)) == ViewOf(s);
  }

  lemma PhaseAhead(s: Node, a: Slot, p: Phase)
    requires Ahead(s) && a in s.tasks
    ensures Ahead(SetPhase(s, a, p))
  {
    SetPhaseJobs(s, a, p);
  }

  /** A step that only advances one task's phase. */
  lemma PhaseInv(s: Node, a: Slot, p: Phase)
    requires Inv(s) && a in s.tasks && PhaseOk(ViewOf(s), a, s.tasks[a].job, p)
    requires p.BeforeRecord() == s.tasks[a].phase.BeforeRecord()
    ensures Inv(SetPhase(s, a, p))
  {
    PhaseOwnership(s, a, p);
    PhaseProgress(s, a, p);
    PhaseAhead(s, a, p);
  }
}
