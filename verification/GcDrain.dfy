/** Submitting GC tasks of one PG against destroying it, and creating it again. */
module GcDrain {
  /** Where a submitter is: it has read the chunk's PG, counted itself, seen the PG
      alive, marked the chunk and queued the task, or is running it; or it is about
      to uncount itself. */
  datatype Phase = Idle | Read | Counted | Alive | Queued | Running | Leaving

  /** `readAt` and `seenAt` are the incarnations of the PG in which the submitter read
      the chunk's PG and last saw the PG alive. */
  datatype Thread = Thread(phase: Phase, readAt: nat, seenAt: nat)

  /** `pending` is the counter of pending tasks kept under the PG's id, `life` the
      number of the PG's incarnation. */
  datatype Node = Node(threads: map<nat, Thread>, pending: nat, alive: bool, drained: bool, life: nat)

  datatype Step =
    | Begin(t: nat)
    | Increment(t: nat)
    | CheckAlive(t: nat)
    | MarkChunk(t: nat, ok: bool)
    | Start(t: nat)
    | Finish(t: nat)
    | Decrement(t: nat)
    | MarkDestroyed
    | Drain
    | Recreate

  predicate In(s: Node, t: nat, p: Phase) {
    t in s.threads && s.threads[t].phase == p
  }

  predicate Enabled(s: Node, e: Step) {
    match e
    case Begin(t) => In(s, t, Idle)
    case Increment(t) => In(s, t, Read)
    case CheckAlive(t) => In(s, t, Counted)
    case MarkChunk(t, _) => In(s, t, Alive)
    case Start(t) => In(s, t, Queued)
    case Finish(t) => In(s, t, Running)
    case Decrement(t) => In(s, t, Leaving)
    case MarkDestroyed => true
    case Drain => !s.alive && s.pending == 0
    case Recreate => s.drained
  }

  function To(s: Node, t: nat, p: Phase): Node
    requires t in s.threads
  {
    s.(threads := s.threads[t := s.threads[t].(phase := p)])
  }

  function Next(s: Node, e: Step): Node
    requires Enabled(s, e)
  {
    match e
    case Begin(t) => s.(threads := s.threads[t := Thread(Read, s.life, s.threads[t].seenAt)])
    case Increment(t) => To(s, t, Counted).(pending := s.pending + 1)
    case CheckAlive(t) =>
      if s.alive then s.(threads := s.threads[t := s.threads[t].(phase := Alive, seenAt := s.life)])
      else To(s, t, Leaving)
    case MarkChunk(t, ok) => To(s, t, if ok then Queued else Leaving)
    case Start(t) => To(s, t, Running)
    case Finish(t) => To(s, t, Leaving)
    case Decrement(t) => To(s, t, Idle).(pending := if s.pending > 0 then s.pending - 1 else 0)
    case MarkDestroyed => s.(alive := false)
    case Drain => s.(drained := true)
    case Recreate => s.(alive := true, drained := false, life := s.life + 1)
  }

  predicate IsCounted(p: Phase) {
    p != Idle && p != Read
  }

  /** The task is past its check: it runs or will run. */
  predicate InFlight(p: Phase) {
    p == Alive || p == Queued || p == Running
  }

  function CountedThreads(threads: map<nat, Thread>): set<nat> {
    set t | t in threads && IsCounted(threads[t].phase)
  }

  /** A task in flight saw the PG alive in the present incarnation, which is not drained,
      and read the chunk's PG in that one or before. */
  ghost predicate ThreadOk(th: Thread, life: nat, drained: bool) {
    && (InFlight(th.phase) ==> th.seenAt == life && !drained && th.readAt <= life)
    && (th.phase != Idle ==> th.readAt <= life)
  }

  /** The counter counts exactly the counted submitters, so it never wraps. */
  ghost predicate Inv(s: Node) {
    && s.pending == |CountedThreads(s.threads)| && (s.drained ==> !s.alive)
    && forall t :: t in s.threads ==> ThreadOk(s.threads[t], s.life, s.drained)
  }

  ghost predicate Init(s: Node) {
    s.pending == 0 && s.alive && !s.drained && forall t :: t in s.threads ==> s.threads[t].phase == Idle
  }

  lemma InitInv(s: Node)
    requires Init(s)
    ensures Inv(s)
  {
    assert CountedThreads(s.threads) == {};
  }

  function One(b: bool): nat {
    if b then 1 else 0
  }

  /** How a move of one thread changes the set of counted threads. */
  lemma Recount(threads: map<nat, Thread>, t: nat, th: Thread)
    requires t in threads
    ensures |CountedThreads(threads[t := th])|
      == |CountedThreads(threads)| - One(IsCounted(threads[t].phase)) + One(IsCounted(th.phase))
  {
    var before := CountedThreads(threads);
    assert CountedThreads(threads[t := th]) == before - {t} + (if IsCounted(th.phase) then {t} else {});
    assert IsCounted(threads[t].phase) <==> t in before;
    if t !in before { assert before - {t} == before; }
  }

  /** Thread `t` moves, and the counter follows. */
  lemma MoveInv(s: Node, t: nat, th: Thread, pending: nat)
    requires Inv(s) && t in s.threads && ThreadOk(th, s.life, s.drained)
    requires pending == s.pending - One(IsCounted(s.threads[t].phase)) + One(IsCounted(th.phase))
    ensures Inv(s.(threads := s.threads[t := th], pending := pending))
  {
    Recount(s.threads, t, th);
  }

  lemma CountedSome(s: Node, t: nat)
    requires Inv(s) && t in s.threads && IsCounted(s.threads[t].phase)
    ensures s.pending > 0
  {
    assert t in CountedThreads(s.threads);
  }

  lemma DrainInv(s: Node)
    requires Inv(s) && Enabled(s, Drain)
    ensures Inv(Next(s, Drain))
  {
    forall t | t in s.threads ensures ThreadOk(s.threads[t], s.life, true) {
      assert t !in CountedThreads(s.threads);
    }
  }

  lemma RecreateInv(s: Node)
    requires Inv(s) && Enabled(s, Recreate)
    ensures Inv(Next(s, Recreate))
  {
    forall t | t in s.threads ensures ThreadOk(s.threads[t], s.life + 1, false) {
      assert ThreadOk(s.threads[t], s.life, s.drained);
    }
  }

  lemma StepInv(s: Node, e: Step)
    requires Inv(s) && Enabled(s, e)
    ensures Inv(Next(s, e))
  {
    match e
    case Begin(t) => MoveInv(s, t, Next(s, e).threads[t], s.pending);
    case Increment(t) => MoveInv(s, t, Next(s, e).threads[t], s.pending + 1);
    case CheckAlive(t) => MoveInv(s, t, Next(s, e).threads[t], s.pending);
    case MarkChunk(t, ok) => MoveInv(s, t, Next(s, e).threads[t], s.pending);
    case Start(t) => MoveInv(s, t, Next(s, e).threads[t], s.pending);
    case Finish(t) => MoveInv(s, t, Next(s, e).threads[t], s.pending);
    case Decrement(t) =>
      CountedSome(s, t);
      MoveInv(s, t, Next(s, e).threads[t], s.pending - 1);
    case MarkDestroyed =>
    case Drain => DrainInv(s);
    case Recreate => RecreateInv(s);
  }

  predicate IsRun(run: seq<Step>, s: Node)
    decreases |run|
  {
    run == [] || (Enabled(s, run[0]) && IsRun(run[1..], Next(s, run[0])))
  }

  function RunOf(run: seq<Step>, s: Node): Node
    requires IsRun(run, s)
    decreases |run|
  {
    if run == [] then s else RunOf(run[1..], Next(s, run[0]))
  }

  lemma {:induction false} RunInv(run: seq<Step>, s: Node)
    requires IsRun(run, s) && Inv(s)
    ensures Inv(RunOf(run, s)) && s.life <= RunOf(run, s).life
    ensures s.drained && s.life == RunOf(run, s).life ==> RunOf(run, s).drained
    decreases |run|
  {
    if run != [] {
      StepInv(s, run[0]);
      RunInv(run[1..], Next(s, run[0]));
    }
  }

  /** Once drain has returned, no GC task that saw the PG alive in this incarnation or an
      earlier one is in flight, whatever happens next; and until the PG is created
      again none is in flight at all. */
  lemma NoTaskAfterDrain(s: Node, before: seq<Step>, after: seq<Step>, t: nat)
    requires Init(s) && IsRun(before, s) && RunOf(before, s).drained && IsRun(after, RunOf(before, s))
    requires t in RunOf(after, RunOf(before, s)).threads
    ensures var d, r := RunOf(before, s), RunOf(after, RunOf(before, s));
      InFlight(r.threads[t].phase) ==> d.life < r.life == r.threads[t].seenAt
  {
    InitInv(s);
    RunInv(before, s);
    RunInv(after, RunOf(before, s));
    assert ThreadOk(RunOf(after, RunOf(before, s)).threads[t], RunOf(after, RunOf(before, s)).life,
                    RunOf(after, RunOf(before, s)).drained);
  }

  /** And drain cannot return while one is. */
  lemma DrainWaits(s: Node, run: seq<Step>, t: nat)
    requires Init(s) && IsRun(run, s) && t in RunOf(run, s).threads && InFlight(RunOf(run, s).threads[t].phase)
    ensures !Enabled(RunOf(run, s), Drain)
  {
    InitInv(s);
    RunInv(run, s);
    assert t in CountedThreads(RunOf(run, s).threads);
  }

  /** The check passes for a PG read in an earlier incarnation if and only if the PG has
      been created again since the read, and is alive. */
  lemma StaleCheck(s: Node, t: nat)
    requires Inv(s) && In(s, t, Counted)
    ensures InFlight(Next(s, CheckAlive(t)).threads[t].phase)
      && Next(s, CheckAlive(t)).threads[t].readAt < Next(s, CheckAlive(t)).threads[t].seenAt
      <==> s.alive && s.threads[t].readAt < s.life
  {
    assert ThreadOk(s.threads[t], s.life, s.drained);
  }

  /** It happens: the PG is destroyed, drained and created again between the read of a
      submitter and its count. */
  lemma StaleTask()
    ensures var s0 := Node(map[7 := Thread(Idle, 0, 0)], 0, true, false, 0);
            var s1 := Next(Next(Next(s0, Begin(7)), MarkDestroyed), Drain);
            var s2 := Next(Next(Next(s1, Recreate), Increment(7)), CheckAlive(7));
            Init(s0) && s1.drained && s2.threads[7] == Thread(Alive, 0, 1)
  {
  }

  // ------------------------------------------------- who gets to run a task

  /** The submitters whose chunk was marked and whose task has not finished. */
  function MarkedAfter(marked: set<nat>, e: Step): set<nat> {
    match e
    case MarkChunk(t, ok) => if ok then marked + {t} else marked - {t}
    case Finish(t) => marked - {t}
    case _ => marked
  }

  function MarkedBy(run: seq<Step>, marked: set<nat>): set<nat>
    decreases |run|
  {
    if run == [] then marked else MarkedBy(run[1..], MarkedAfter(marked, run[0]))
  }

  /** The threads with a task in the executor. */
  function Tasks(threads: map<nat, Thread>): set<nat> {
    set t | t in threads && (threads[t].phase == Queued || threads[t].phase == Running)
  }

  lemma StepTasks(s: Node, e: Step)
    requires Enabled(s, e)
    ensures Tasks(Next(s, e).threads) == MarkedAfter(Tasks(s.threads), e)
  {
    match e
    case Begin(_) =>
    case Increment(_) =>
    case CheckAlive(_) =>
    case MarkChunk(_, _) =>
    case Start(_) =>
    case Finish(_) =>
    case Decrement(_) =>
    case MarkDestroyed =>
    case Drain =>
    case Recreate =>
  }

  lemma {:induction false} RunTasks(run: seq<Step>, s: Node)
    requires IsRun(run, s)
    ensures Tasks(RunOf(run, s).threads) == MarkedBy(run, Tasks(s.threads))
    decreases |run|
  {
    if run != [] {
      StepTasks(s, run[0]);
      RunTasks(run[1..], Next(s, run[0]));
    }
  }

  /** A submitter has a task queued or running exactly when its chunk was marked and the
      task has not finished; one whose chunk could not be marked never has. */
  lemma TasksAreMarked(s: Node, run: seq<Step>, t: nat)
    requires Init(s) && IsRun(run, s)
    ensures In(RunOf(run, s), t, Queued) || In(RunOf(run, s), t, Running) <==> t in MarkedBy(run, {})
  {
    assert Tasks(s.threads) == {};
    RunTasks(run, s);
    assert t in Tasks(RunOf(run, s).threads) <==> In(RunOf(run, s), t, Queued) || In(RunOf(run, s), t, Running);
  }

  // --------------------------------------------------- after the destruction

  ghost predicate NoRecreate(run: seq<Step>) {
    forall i :: 0 <= i < |run| ==> run[i] != Recreate
  }

  lemma NoRecreateRest(run: seq<Step>)
    requires NoRecreate(run) && run != []
    ensures run[0] != Recreate && NoRecreate(run[1..])
  {
    assert forall i :: 0 <= i < |run[1..]| ==> run[1..][i] == run[i + 1];
  }

  predicate Flying(s: Node, t: nat) {
    t in s.threads && InFlight(s.threads[t].phase)
  }

  lemma StepNoNew(s: Node, e: Step, t: nat)
    requires Enabled(s, e) && !s.alive && e != Recreate
    ensures !Next(s, e).alive && (Flying(Next(s, e), t) ==> Flying(s, t))
  {
  }

  lemma {:induction false} RunNoNew(run: seq<Step>, s: Node, t: nat)
    requires IsRun(run, s) && !s.alive && NoRecreate(run)
    ensures !RunOf(run, s).alive && (Flying(RunOf(run, s), t) ==> Flying(s, t))
    decreases |run|
  {
    if run != [] {
      NoRecreateRest(run);
      StepNoNew(s, run[0], t);
      RunNoNew(run[1..], Next(s, run[0]), t);
    }
  }

  /** Once the PG is marked destroyed, and until it is created again, no submitter that
      was not in flight gets a task through; and drain returns exactly when no
      submitter is counted. */
  lemma NoneAfterDestroy(s: Node, before: seq<Step>, later: seq<Step>, t: nat)
    requires Init(s) && IsRun(before, s) && IsRun(later, Next(RunOf(before, s), MarkDestroyed)) && NoRecreate(later)
    ensures var r := RunOf(later, Next(RunOf(before, s), MarkDestroyed));
      && (Flying(r, t) ==> Flying(RunOf(before, s), t))
      && (Enabled(r, Drain) <==> CountedThreads(r.threads) == {})
  {
    var m := Next(RunOf(before, s), MarkDestroyed);
    InitInv(s);
    RunInv(before, s);
    StepInv(RunOf(before, s), MarkDestroyed);
    RunInv(later, m);
    RunNoNew(later, m, t);
  }
}
