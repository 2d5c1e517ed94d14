/** Blob ids across checkpoints and crashes: the PG superblock is written before the
    index, so a fresh id is never one that is stored. */
module BlobSequence {
  import opened Storage

  /** `index` holds the blob ids of the PG. `cp` is a checkpoint in progress: the ids
      the index had when it began, and whether the PG superblock is written. `log` are
      the committed puts, `durable` how many the last replay need not redo. */
  datatype Cp = NoCp | Cp(ids: set<BlobId>, written: bool, upTo: nat)

  datatype Node = Node(log: seq<BlobId>, applied: nat, index: set<BlobId>, seqNum: nat, dirty: bool, dSeqNum: nat,
                       dIndex: set<BlobId>, dLsn: nat, cp: Cp)

  datatype Step =
    | Allocate
    | Replicate(id: BlobId)
    | Commit
    | CpBegin
    | CpPgSuperblock
    | CpIndex
    | Crash

  predicate Enabled(s: Node, e: Step) {
    match e
    case Allocate => true
    case Replicate(_) => true
    case Commit => s.applied < |s.log|
    case CpBegin => s.cp == NoCp
    case CpPgSuperblock => s.cp.Cp? && !s.cp.written
    case CpIndex => s.cp.Cp? && s.cp.written
    case Crash => true
  }

  /** The put's commit: insert, and raise the sequence number unless the blob is
      already in the index. */
  function Committed(s: Node): Node
    requires s.applied < |s.log|
  {
    var id := s.log[s.applied];
    var t := s.(applied := s.applied + 1, index := s.index + {id});
    if id in s.index then t else t.(seqNum := if id + 1 > s.seqNum then id + 1 else s.seqNum, dirty := true)
  }

  /** Allocating an id does not mark the PG superblock dirty; committing a new blob
      does. */
  function Next(s: Node, e: Step): Node
    requires Enabled(s, e)
  {
    match e
    case Allocate => s.(log := s.log + [s.seqNum], seqNum := s.seqNum + 1)
    case Replicate(id) => s.(log := s.log + [id])
    case Commit => Committed(s)
    case CpBegin => s.(cp := Cp(s.index, false, s.applied))
    case CpPgSuperblock =>
      if s.dirty then s.(dSeqNum := s.seqNum, dirty := false, cp := s.cp.(written := true))
      else s.(cp := s.cp.(written := true))
    case CpIndex => s.(dIndex := s.cp.ids, dLsn := s.cp.upTo, cp := NoCp)
    case Crash => s.(index := s.dIndex, seqNum := s.dSeqNum, dirty := false, applied := s.dLsn, cp := NoCp)
  }

  ghost predicate Below(ids: set<BlobId>, n: nat) {
    forall id :: id in ids ==> id < n
  }

  /** Ids stored, in memory or durably, are below the matching sequence number. */
  ghost predicate Inv(s: Node) {
    && Below(s.index, s.seqNum)
    && Below(s.dIndex, s.dSeqNum)
    && s.dSeqNum <= s.seqNum && (!s.dirty ==> Below(s.index, s.dSeqNum))
    && (s.cp.Cp? ==> s.cp.ids <= s.index && s.cp.upTo <= |s.log|)
    && (s.cp.Cp? && s.cp.written ==> Below(s.cp.ids, s.dSeqNum))
    && s.applied <= |s.log| && s.dLsn <= |s.log|
    && (forall i :: 0 <= i < s.applied ==> s.log[i] in s.index)
    && (forall i :: 0 <= i < s.dLsn ==> s.log[i] in s.dIndex)
    && (s.cp.Cp? ==> forall i :: 0 <= i < s.cp.upTo ==> s.log[i] in s.cp.ids)
  }

  ghost predicate Init(s: Node) {
    s == Node([], 0, {}, 0, false, 0, {}, 0, NoCp)
  }

  lemma StepInv(s: Node, e: Step)
    requires Inv(s) && Enabled(s, e)
    ensures Inv(Next(s, e))
  {
    match e
    case Commit => CommitInv(s);
    case CpPgSuperblock =>
    case CpIndex =>
    case Crash =>
    case Allocate =>
    case Replicate(_) =>
    case CpBegin =>
  }

  lemma CommitInv(s: Node)
    requires Inv(s) && s.applied < |s.log|
    ensures Inv(Committed(s))
  {
  }

  predicate IsRun(run: seq<Step>, s: Node)
    decreases |run|
  {
    run == [] || (Enabled(s, run[0]) && IsRun(run[1..], Next(s, run[0])))
  }

  function RunOf(run: seq<Step>, s: Node): Node
    requires IsRun(run, s)
    decreases |run|
  {
    if run == [] then s else RunOf(run[1..], Next(s, run[0]))
  }

  lemma {:induction false} RunInv(run: seq<Step>, s: Node)
    requires IsRun(run, s) && Inv(s)
    ensures Inv(RunOf(run, s))
    decreases |run|
  {
    if run != [] {
      StepInv(s, run[0]);
      RunInv(run[1..], Next(s, run[0]));
    }
  }

  /** In every state of every run, with crashes at any point of a checkpoint, the next
      id is in neither index. */
  lemma FreshIdIsNew(run: seq<Step>, s: Node)
    requires Init(s) && IsRun(run, s)
    ensures RunOf(run, s).seqNum !in RunOf(run, s).index && RunOf(run, s).seqNum !in RunOf(run, s).dIndex
    ensures Below(RunOf(run, s).index, RunOf(run, s).seqNum)
  {
    RunInv(run, s);
  }

  /** Once the log is applied again after a crash, the next id is in no logged put. */
  lemma FreshIdNotLogged(run: seq<Step>, s: Node, i: nat)
    requires Init(s) && IsRun(run, s) && RunOf(run, s).applied == |RunOf(run, s).log| && i < |RunOf(run, s).log|
    ensures RunOf(run, s).log[i] < RunOf(run, s).seqNum
  {
    RunInv(run, s);
  }

  // --------------------------------------------------------- what is durable

  /** The steps between the beginning and the end of a checkpoint. */
  ghost predicate Within(run: seq<Step>) {
    forall i :: 0 <= i < |run| ==> run[i] != Crash && run[i] != CpIndex
  }

  lemma WithinRest(run: seq<Step>)
    requires Within(run) && run != []
    ensures run[0] != Crash && run[0] != CpIndex && Within(run[1..])
  {
    assert forall i :: 0 <= i < |run[1..]| ==> run[1..][i] == run[i + 1];
  }

  lemma {:induction false} CpKeeps(run: seq<Step>, s: Node)
    requires IsRun(run, s) && Within(run) && s.cp.Cp?
    ensures RunOf(run, s).cp.Cp? && RunOf(run, s).cp.ids == s.cp.ids && RunOf(run, s).cp.upTo == s.cp.upTo
    decreases |run|
  {
    if run != [] {
      WithinRest(run);
      CpKeeps(run[1..], Next(s, run[0]));
    }
  }

  /** A checkpoint makes durable exactly what was applied when it began, however many
      puts are committed while it runs, and a crash after it comes back to that, with a
      sequence number above every durable id. */
  lemma CheckpointSaves(s: Node, run: seq<Step>, t: Node)
    requires Inv(s) && s.cp == NoCp && IsRun(run, Next(s, CpBegin)) && Within(run)
    requires t == RunOf(run, Next(s, CpBegin)) && t.cp.Cp? && t.cp.written
    ensures var u := Next(Next(t, CpIndex), Crash);
      u.index == s.index && u.applied == s.applied && Below(s.index, u.seqNum) && u.log == t.log
  {
    StepInv(s, CpBegin);
    RunInv(run, Next(s, CpBegin));
    CpKeeps(run, Next(s, CpBegin));
    StepInv(t, CpIndex);
  }

  // ------------------------------------------------------- ids handed out

  /** The ids the leader hands out along a run. */
  function HandedOut(run: seq<Step>, s: Node): seq<BlobId>
    requires IsRun(run, s)
    decreases |run|
  {
    if run == [] then []
    else (if run[0] == Allocate then [Next(s, Allocate).log[|s.log|]] else []) + HandedOut(run[1..], Next(s, run[0]))
  }

  ghost predicate NoCrash(run: seq<Step>) {
    forall i :: 0 <= i < |run| ==> run[i] != Crash
  }

  lemma NoCrashRest(run: seq<Step>)
    requires NoCrash(run) && run != []
    ensures run[0] != Crash && NoCrash(run[1..])
  {
    assert forall i :: 0 <= i < |run[1..]| ==> run[1..][i] == run[i + 1];
  }

  /** `ids` ascend strictly, from `low` on and below `high`. */
  ghost predicate Ascend(ids: seq<BlobId>, low: nat, high: nat) {
    && (forall i, j :: 0 <= i < j < |ids| ==> ids[i] < ids[j])
    && (forall i :: 0 <= i < |ids| ==> low <= ids[i] < high)
  }

  /** Between two crashes the leader hands out each id once, whatever is committed
      meanwhile, and none below the sequence number it started with. */
  lemma {:induction false} HandedOutOnce(run: seq<Step>, s: Node)
    requires IsRun(run, s) && NoCrash(run)
    ensures s.seqNum <= RunOf(run, s).seqNum && Ascend(HandedOut(run, s), s.seqNum, RunOf(run, s).seqNum)
    decreases |run|
  {
    if run != [] {
      NoCrashRest(run);
      HandedOutOnce(run[1..], Next(s, run[0]));
    }
  }

  /** An id handed out after a crash, once the log is applied again, and one logged
      before it are never the same. */
  lemma HandedOutNew(before: seq<Step>, s: Node, later: seq<Step>, i: nat, n: nat)
    requires Init(s) && IsRun(before, s) && IsRun(later, RunOf(before, s)) && NoCrash(later)
    requires RunOf(before, s).applied == |RunOf(before, s).log| && i < |RunOf(before, s).log|
    requires n < |HandedOut(later, RunOf(before, s))|
    ensures RunOf(before, s).log[i] < HandedOut(later, RunOf(before, s))[n]
  {
    FreshIdNotLogged(before, s, i);
    HandedOutOnce(later, RunOf(before, s));
  }

  // ------------------------------------------------------- the other order

  /** The index written first, and a crash before the PG superblock. */
  function IndexFirst(s: Node): Node
    requires s.cp.Cp?
  {
    var t := s.(dIndex := s.cp.ids, dLsn := s.cp.upTo);
    t.(index := t.dIndex, seqNum := t.dSeqNum, dirty := false, applied := t.dLsn, cp := NoCp)
  }

  /** With the checkpoint's order reversed, an id allocated after the crash is one
      already stored. */
  lemma ReversedOrderCollides(s: Node)
    requires s == Node([0], 1, {0}, 1, true, 0, {}, 0, Cp({0}, false, 1))
    ensures Inv(s) && IndexFirst(s).seqNum in IndexFirst(s).index && Enabled(IndexFirst(s), Allocate)
  {
  }
}
