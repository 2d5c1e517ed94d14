/** A GC task is never stuck: from every state of every run, one that may start
    can be carried through to the end. */
module GcProgress {
  import opened Storage
  import opened GcMachine
  import opened GcInvariant
  import opened GcTheorems
  import opened GcRedo

  function CopyRank(p: Phase): nat {
    match p
    case Purging => 4
    case Copying(_, _) => 3
    case Sweeping => 2
    case Copied => 1
    case _ => 0
  }

  /** Shards of the source chunk not yet listed. */
  function Unlisted(s: Node, a: Slot): set<ShardId>
    requires a in s.tasks
  {
    if s.tasks[a].phase.Copying? then ShardsAt(s.shards, s.tasks[a].job.from) - s.tasks[a].phase.queried else {}
  }

  function ToCopy(s: Node, a: Slot): nat
    requires a in s.tasks
  {
    if s.tasks[a].phase.Copying? then |s.tasks[a].phase.todo| else 0
  }

  predicate Less(t: Node, s: Node, a: Slot)
    requires a in s.tasks && a in t.tasks
  {
    || CopyRank(t.tasks[a].phase) < CopyRank(s.tasks[a].phase)
    || (CopyRank(t.tasks[a].phase) == CopyRank(s.tasks[a].phase)
        && (|Unlisted(t, a)| < |Unlisted(s, a)|
            || (|Unlisted(t, a)| == |Unlisted(s, a)| && ToCopy(t, a) < ToCopy(s, a))))
  }

  /** The step is the task's own, keeps its job, and brings it nearer its record. */
  ghost predicate Nearer(s: Node, a: Slot, e: CopyStep) {
    && a in s.tasks && CopyEnabled(s, a, e)
    && var t := CopyNext(s, a, e);
       a in t.tasks && t.tasks[a].job == s.tasks[a].job && Less(t, s, a)
       && (if e.RecordStep? then a in t.recs && t.recs[a] == s.tasks[a].job else t.tasks[a].phase.BeforeRecord())
  }

  lemma PurgeNearer(s: Node, a: Slot)
    requires CanPurge(s, a)
    ensures Nearer(s, a, PurgeStep)
  {
  }

  lemma QueryNearer(s: Node, a: Slot, sh: ShardId, marks: Data)
    requires CanQuery(s, a, sh)
    ensures Nearer(s, a, QueryStep(sh, marks))
  {
    var t := Query(s, a, sh, marks);
    assert sh in ShardsAt(s.shards, s.tasks[a].job.from);
    assert Unlisted(t, a) == Unlisted(s, a) - {sh};
  }

  lemma CopyNearer(s: Node, a: Slot, k: Key)
    requires CanCopy(s, a, k)
    ensures Nearer(s, a, CopyBlobStep(k))
  {
    MapShrinks(s.tasks[a].phase.todo, k);
    assert Unlisted(Copy(s, a, k), a) == Unlisted(s, a);
  }

  lemma EndCopyNearer(s: Node, a: Slot)
    requires a in s.tasks && s.tasks[a].phase.Copying? && s.tasks[a].phase.todo == map[] && Unlisted(s, a) == {}
    ensures Nearer(s, a, EndCopyStep)
  {
    forall sh | sh in s.shards && InChunk(s, sh, s.tasks[a].job.from) ensures sh in s.tasks[a].phase.queried {
      assert sh !in Unlisted(s, a);
    }
  }

  lemma FlushNearer(s: Node, a: Slot)
    requires CanFlush(s, a)
    ensures Nearer(s, a, FlushStep)
  {
  }

  lemma RecordNearer(s: Node, a: Slot)
    requires CanRecord(s, a)
    ensures Nearer(s, a, RecordStep)
  {
  }

  /** What a task has listed can be read. */
  ghost predicate Readable(disk: Disk, p: Phase) {
    p.Copying? ==> forall k :: k in p.todo ==> InBounds(disk, p.todo[k])
  }

  lemma ListedReadable(s: Node, a: Slot)
    requires Inv(s) && a in s.tasks
    ensures Readable(s.disk, s.tasks[a].phase)
  {
    assert PhaseOk(ViewOf(s), a, s.tasks[a].job, s.tasks[a].phase);
  }

  /** The next step of a task before its record: always enabled, always nearer. */
  lemma NextCollect(s: Node, a: Slot) returns (e: CopyStep)
    requires a in s.tasks && s.tasks[a].phase.BeforeRecord() && Readable(s.disk, s.tasks[a].phase)
    ensures Nearer(s, a, e)
  {
    var p := s.tasks[a].phase;
    if p.Purging? {
      PurgeNearer(s, a);
      return PurgeStep;
    } else if p.Copying? && p.todo != map[] {
      var k :| k in p.todo;
      CopyNearer(s, a, k);
      return CopyBlobStep(k);
    } else if p.Copying? && Unlisted(s, a) != {} {
      var sh :| sh in Unlisted(s, a);
      QueryNearer(s, a, sh, []);
      return QueryStep(sh, []);
    } else if p.Copying? {
      EndCopyNearer(s, a);
      return EndCopyStep;
    } else if p.Sweeping? {
      FlushNearer(s, a);
      return FlushStep;
    }
    RecordNearer(s, a);
    return RecordStep;
  }

  /** The run ends where it began, in recovery or out of it, with the job of slot
      `a` done. */
  ghost predicate Finishes(s: Node, steps: seq<Step>, a: Slot, j: Job) {
    IsRun(s, steps) && Landed(RunOf(s, steps), a, j) && RunOf(s, steps).recovering == s.recovering
  }

  lemma RecordedFinishes(s: Node, a: Slot) returns (steps: seq<Step>)
    requires Inv(s) && a in s.tasks && a in s.recs
    ensures Finishes(s, steps, a, s.recs[a])
  {
    steps := TaskCompletes(s, a);
    CompletesEnds(s, steps, a);
    RedoEndsInTarget(s, steps, a);
    OwnRun(s, steps, a);
  }

  lemma CopyKeepsRecovering(s: Node, a: Slot, e: CopyStep)
    requires CopyEnabled(s, a, e)
    ensures CopyNext(s, a, e).recovering == s.recovering
  {
    match e
    case StartStep(_, _) =>
    case PurgeStep =>
    case QueryStep(_, _) =>
    case CopyBlobStep(_) =>
    case EndCopyStep =>
    case SweepStep(_) =>
    case FlushStep =>
    case FailStep =>
    case RecordStep =>
  }

  lemma OneMore(s: Node, e: Step, t: Node, rest: seq<Step>)
    requires Enabled(s, e) && t == Next(s, e) && IsRun(t, rest)
    ensures IsRun(s, [e] + rest) && RunOf(s, [e] + rest) == RunOf(t, rest)
  {
    assert ([e] + rest)[1..] == rest;
  }

  lemma FinishesMore(s: Node, e: Step, t: Node, rest: seq<Step>, a: Slot, j: Job)
    requires Enabled(s, e) && t == Next(s, e) && t.recovering == s.recovering && Finishes(t, rest, a, j)
    ensures Finishes(s, [e] + rest, a, j)
  {
    OneMore(s, e, t, rest);
  }

  /** A started task can be finished. */
  lemma {:induction false} TaskFinishes(s: Node, a: Slot) returns (steps: seq<Step>)
    requires Inv(s) && a in s.tasks && s.tasks[a].phase.BeforeRecord()
    ensures Finishes(s, steps, a, s.tasks[a].job)
    decreases CopyRank(s.tasks[a].phase), |Unlisted(s, a)|, ToCopy(s, a)
  {
    ListedReadable(s, a);
    var e := NextCollect(s, a);
    var t := CopyNext(s, a, e);
    StepInv(s, Collect(a, e));
    CopyKeepsRecovering(s, a, e);
    var rest;
    if e.RecordStep? {
      rest := RecordedFinishes(t, a);
    } else {
      rest := TaskFinishes(t, a);
    }
    FinishesMore(s, Collect(a, e), t, rest, a, s.tasks[a].job);
    steps := [Collect(a, e)] + rest;
  }

  /** From every state in which GC of slot `a` may start, some run carries it through:
      the slot, its shards and all its live entries are on the receiving chunk, nothing
      live is in the old one, which is reserved and queued, and no record stays. */
  lemma GcCanComplete(s: Node, a: Slot, to: Chunk, emergent: bool) returns (steps: seq<Step>)
    requires Inv(s) && CanStart(s, a, to, emergent)
    ensures Finishes(s, steps, a, Job(s.slots[a], to, emergent))
    ensures s.slots[a] in RunOf(s, steps).free
  {
    var e := Collect(a, StartStep(to, emergent));
    StepInv(s, e);
    var t := Start(s, a, to, emergent);
    StartedTask(s, a, to, emergent);
    var rest := TaskFinishes(t, a);
    FinishesMore(s, e, t, rest, a, t.tasks[a].job);
    steps := [e] + rest;
    FinishedQueues(s, steps, a, t.tasks[a].job);
  }

  lemma StartedTask(s: Node, a: Slot, to: Chunk, emergent: bool)
    requires CanStart(s, a, to, emergent)
    ensures var t := Start(s, a, to, emergent);
      a in t.tasks && t.tasks[a] == Task(Job(s.slots[a], to, emergent), Purging) && !t.recovering && !s.recovering
  {
  }

  lemma FinishedQueues(s: Node, steps: seq<Step>, a: Slot, j: Job)
    requires Finishes(s, steps, a, j) && !s.recovering
    ensures j.from in RunOf(s, steps).free
  {
  }
}
