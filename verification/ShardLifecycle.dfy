/** Creating and sealing shards on the node that proposes them: who holds a
    virtual chunk. */
module ShardLifecycle {
  import opened Storage
  import opened ChunkSelector

  /** `sealed` is the state in memory, set by the seal's pre-commit; `done` says the
      seal is committed and the chunk released. */
  datatype Shard = Shard(v: nat, sealed: bool, done: bool)

  /** A committed shard message. */
  datatype Event = Created(shard: ShardId, v: nat) | Sealed(shard: ShardId, v: nat)

  /** `last` is the last shard id drawn and `drawn` are the ids whose create has no
      chunk yet; `creating` are proposed creates, `failing` creates whose error handler
      has released the chunk and whose caller has not run yet. `egc` are the chunks in
      use that an emergent GC has marked by force. */
  datatype Node = Node(chunk: map<nat, State>, egc: set<nat>, last: ShardId, drawn: set<ShardId>,
                       creating: map<ShardId, nat>, failing: map<ShardId, nat>, shards: map<ShardId, Shard>,
                       log: seq<Event>)

  datatype Step =
    | Draw
    | Propose(id: ShardId, v: nat)
    | CommitCreate(id: ShardId)
    | RollbackCreate(id: ShardId)
    | FailCreate(id: ShardId)
    | FailAgain(id: ShardId)
    | SealPreCommit(id: ShardId)
    | SealRollback(id: ShardId)
    | SealCommit(id: ShardId)
    | StartGc(v: nat)
    | EndGc(v: nat)
    | StartEgc(v: nat)
    | EndEgc(v: nat)

  function Taken(chunk: map<nat, State>, v: nat): map<nat, State> {
    if v in chunk && chunk[v] == Available then chunk[v := InUse] else chunk
  }

  function Freed(chunk: map<nat, State>, v: nat): map<nat, State> {
    if v in chunk && chunk[v] == InUse then chunk[v := Available] else chunk
  }

  /** The commit of a create waits while its chunk is under GC. */
  predicate Enabled(s: Node, e: Step) {
    match e
    case Draw => true
    case Propose(id, v) => id in s.drawn && v in s.chunk && s.chunk[v] == Available
    case CommitCreate(id) => id in s.creating && s.creating[id] !in s.egc
    case RollbackCreate(id) => id in s.creating
    case FailCreate(id) => id in s.creating
    case FailAgain(id) => id in s.failing
    case SealPreCommit(id) => id in s.shards && !s.shards[id].sealed
    case SealRollback(id) => id in s.shards && s.shards[id].sealed && !s.shards[id].done
    case SealCommit(id) => id in s.shards && s.shards[id].sealed && !s.shards[id].done
    case StartGc(v) => v in s.chunk && s.chunk[v] == Available
    case EndGc(v) => v in s.chunk && s.chunk[v] == Gc && v !in s.egc
    case StartEgc(v) => v in s.chunk && s.chunk[v] == InUse
    case EndEgc(v) => v in s.chunk && v in s.egc
  }

  function Next(s: Node, e: Step): Node
    requires Enabled(s, e)
  {
    match e
    case Draw => s.(last := s.last + 1, drawn := s.drawn + {s.last + 1})
    case Propose(id, v) => s.(chunk := Taken(s.chunk, v), drawn := s.drawn - {id}, creating := s.creating[id := v])
    case CommitCreate(id) =>
      var v := s.creating[id];
      s.(chunk := Taken(s.chunk, v), creating := s.creating - {id}, shards := s.shards[id := Shard(v, false, false)],
         log := s.log + [Created(id, v)])
    case RollbackCreate(id) => s.(chunk := Freed(s.chunk, s.creating[id]), creating := s.creating - {id})
    case FailCreate(id) =>
      s.(chunk := Freed(s.chunk, s.creating[id]), creating := s.creating - {id},
         failing := s.failing[id := s.creating[id]])
    case FailAgain(id) => s.(chunk := Freed(s.chunk, s.failing[id]), failing := s.failing - {id})
    case SealPreCommit(id) => s.(shards := s.shards[id := s.shards[id].(sealed := true)])
    case SealRollback(id) => s.(shards := s.shards[id := s.shards[id].(sealed := false)])
    case SealCommit(id) =>
      s.(chunk := Freed(s.chunk, s.shards[id].v), shards := s.shards[id := s.shards[id].(done := true)],
         log := s.log + [Sealed(id, s.shards[id].v)])
    case StartGc(v) => s.(chunk := s.chunk[v := Gc])
    case EndGc(v) => s.(chunk := s.chunk[v := Available])
    case StartEgc(v) => s.(chunk := s.chunk[v := Gc], egc := s.egc + {v})
    case EndEgc(v) => s.(chunk := s.chunk[v := InUse], egc := s.egc - {v})
  }

  // --------------------------------------------------------------- holders

  /** A shard holds its chunk from the proposal to the commit of its seal. */
  predicate Holds(s: Node, id: ShardId, v: nat) {
    (id in s.creating && s.creating[id] == v) || (id in s.shards && s.shards[id].v == v && !s.shards[id].done)
  }

  /** In use, or marked by an emergent GC that will put it back in use. */
  predicate Busy(s: Node, v: nat) {
    v in s.chunk && (s.chunk[v] == InUse || v in s.egc)
  }

  /** A chunk is busy exactly when a shard holds it, and then only one does. */
  ghost predicate Inv(s: Node) {
    && (forall id, v :: Holds(s, id, v) ==> Busy(s, v))
    && (forall v :: Busy(s, v) ==> exists id :: Holds(s, id, v))
    && (forall id, other, v :: Holds(s, id, v) && Holds(s, other, v) ==> id == other)
    && Tidy(s)
  }

  /** Ids are drawn once, a create ends once, and an emergent GC holds its chunk in
      state GC. */
  ghost predicate Tidy(s: Node) {
    && (forall id :: id in s.creating ==> id !in s.shards && id !in s.failing)
    && (forall id :: id in s.drawn ==> id !in s.shards && id !in s.failing && id !in s.creating)
    && (forall id :: id in s.drawn ==> id <= s.last) && (forall id :: id in s.creating ==> id <= s.last)
    && (forall id :: id in s.failing ==> id <= s.last) && (forall id :: id in s.shards ==> id <= s.last)
    && (forall id :: id in s.shards && s.shards[id].done ==> s.shards[id].sealed)
    && (forall v :: v in s.egc ==> v in s.chunk && s.chunk[v] == Gc)
  }

  ghost predicate Init(s: Node) {
    && s.egc == {} && s.last == 0 && s.drawn == {} && s.creating == map[] && s.failing == map[] && s.shards == map[]
    && s.log == [] && forall v :: v in s.chunk ==> s.chunk[v] == Available
  }

  lemma TidyStep(s: Node, e: Step)
    requires Tidy(s) && Enabled(s, e)
    ensures Tidy(Next(s, e))
  {
    if e.Draw? || e.Propose? || e.StartGc? || e.EndGc? || e.StartEgc? || e.EndEgc? {
      TidyChunks(s, e);
    } else {
      TidyShards(s, e);
    }
  }

  lemma TidyChunks(s: Node, e: Step)
    requires Tidy(s) && Enabled(s, e)
    requires e.Draw? || e.Propose? || e.StartGc? || e.EndGc? || e.StartEgc? || e.EndEgc?
    ensures Tidy(Next(s, e))
  {
  }

  lemma TidyShards(s: Node, e: Step)
    requires Tidy(s) && Enabled(s, e)
    requires !(e.Draw? || e.Propose? || e.StartGc? || e.EndGc? || e.StartEgc? || e.EndEgc?)
    ensures Tidy(Next(s, e))
  {
  }

  lemma ProposeInv(s: Node, id: ShardId, v: nat)
    requires Inv(s) && Enabled(s, Propose(id, v))
    ensures Inv(Next(s, Propose(id, v)))
  {
    var t := Next(s, Propose(id, v));
    assert Holds(t, id, v);
    forall x, w ensures Holds(t, x, w) <==> Holds(s, x, w) || (x == id && w == v) {
    }
    forall w | Busy(t, w) ensures exists x :: Holds(t, x, w) {
      if w != v {
        assert Busy(s, w);
        var x :| Holds(s, x, w);
        assert Holds(t, x, w);
      }
    }
    TidyStep(s, Propose(id, v));
  }

  lemma SameHoldersInv(s: Node, t: Node)
    requires Inv(s) && Tidy(t) && (forall x, w :: Holds(t, x, w) <==> Holds(s, x, w))
    requires (forall v :: Busy(s, v) <==> Busy(t, v))
    ensures Inv(t)
  {
    forall v | Busy(t, v) ensures exists id :: Holds(t, id, v) {
      var id :| Holds(s, id, v);
      assert Holds(t, id, v);
    }
  }

  /** The holder of `v` gives it up and the chunk, which is in use, is released. */
  lemma ReleaseInv(s: Node, t: Node, id: ShardId, v: nat)
    requires Inv(s) && Tidy(t) && Holds(s, id, v) && v !in s.egc && t.chunk == Freed(s.chunk, v) && t.egc == s.egc
    requires (forall x, w :: Holds(t, x, w) <==> Holds(s, x, w) && x != id) && (forall w :: Holds(s, id, w) ==> w == v)
    ensures Inv(t)
  {
    assert Busy(s, v);
    forall w | Busy(t, w) ensures exists x :: Holds(t, x, w) {
      assert Busy(s, w);
      var x :| Holds(s, x, w);
      assert Holds(t, x, w);
    }
  }

  /** The chunk a step releases, if it has a holder. */
  function Gives(s: Node, e: Step): nat
    requires Enabled(s, e) && (e.RollbackCreate? || e.FailCreate? || e.SealCommit?)
  {
    if e.SealCommit? then s.shards[e.id].v else s.creating[e.id]
  }

  /** The release at the end of a create or at a seal commit keeps chunks and holders
      together if and only if no emergent GC has the chunk: it does nothing to a
      chunk in state GC, and the GC then puts it back in use for nobody. */
  lemma ReleaseInGc(s: Node, e: Step)
    requires Inv(s) && Enabled(s, e) && (e.RollbackCreate? || e.FailCreate? || e.SealCommit?)
    ensures Inv(Next(s, e)) <==> Gives(s, e) !in s.egc
  {
    var t, v := Next(s, e), Gives(s, e);
    TidyStep(s, e);
    assert Holds(s, e.id, v);
    forall x, w ensures Holds(t, x, w) <==> Holds(s, x, w) && x != e.id {
    }
    if v in s.egc {
      assert Busy(t, v);
      forall x ensures !Holds(t, x, v) {
      }
    } else {
      ReleaseInv(s, t, e.id, v);
    }
  }

  /** Steps that move no chunk from one holder to another. */
  lemma QuietInv(s: Node, e: Step)
    requires Inv(s) && Enabled(s, e)
    requires e.Draw? || e.CommitCreate? || e.SealPreCommit? || e.SealRollback?
    ensures Inv(Next(s, e))
  {
    TidyStep(s, e);
    if e.CommitCreate? { assert Holds(s, e.id, s.creating[e.id]); }
    SameHoldersInv(s, Next(s, e));
  }

  lemma GcInv(s: Node, e: Step)
    requires Inv(s) && Enabled(s, e) && (e.StartGc? || e.EndGc? || e.StartEgc? || e.EndEgc?)
    ensures Inv(Next(s, e))
  {
    TidyStep(s, e);
    SameHoldersInv(s, Next(s, e));
  }

  /** The second release of a failed create is harmless if and only if the chunk has
      not been taken again in the meantime, or is under an emergent GC by now. */
  lemma SecondRelease(s: Node, id: ShardId)
    requires Inv(s) && id in s.failing
    ensures Inv(Next(s, FailAgain(id))) <==> !(s.failing[id] in s.chunk && s.chunk[s.failing[id]] == InUse)
  {
    var t, v := Next(s, FailAgain(id)), s.failing[id];
    TidyStep(s, FailAgain(id));
    forall x, w ensures Holds(t, x, w) <==> Holds(s, x, w) {
    }
    if v in s.chunk && s.chunk[v] == InUse {
      assert Busy(s, v);
      var x :| Holds(s, x, v);
      assert Holds(t, x, v) && !Busy(t, v);
    } else {
      SameHoldersInv(s, t);
    }
  }

  /** No second release hits a chunk that was taken again, and no release comes while
      an emergent GC has the chunk. */
  predicate Careful(s: Node, e: Step)
    requires Enabled(s, e)
  {
    && (e.FailAgain? ==> !(s.failing[e.id] in s.chunk && s.chunk[s.failing[e.id]] == InUse))
    && (e.RollbackCreate? || e.FailCreate? || e.SealCommit? ==> Gives(s, e) !in s.egc)
  }

  lemma StepInv(s: Node, e: Step)
    requires Inv(s) && Enabled(s, e)
    ensures Inv(Next(s, e)) <==> Careful(s, e)
  {
    match e
    case Propose(id, v) => ProposeInv(s, id, v);
    case RollbackCreate(_) => ReleaseInGc(s, e);
    case FailCreate(_) => ReleaseInGc(s, e);
    case SealCommit(_) => ReleaseInGc(s, e);
    case FailAgain(id) => SecondRelease(s, id);
    case StartGc(_) => GcInv(s, e);
    case EndGc(_) => GcInv(s, e);
    case StartEgc(_) => GcInv(s, e);
    case EndEgc(_) => GcInv(s, e);
    case _ => QuietInv(s, e);
  }

  // ------------------------------------------- what no emergent GC can break

  /** Every holder has a busy chunk, and no chunk has two holders. A busy chunk without
      a holder is allowed. */
  ghost predicate Held(s: Node) {
    && (forall id, v :: Holds(s, id, v) ==> Busy(s, v))
    && (forall id, other, v :: Holds(s, id, v) && Holds(s, other, v) ==> id == other)
    && Tidy(s)
  }

  ghost predicate SomeHolder(s: Node, v: nat) {
    exists id :: Holds(s, id, v)
  }

  /** The step is not a second release of a chunk that is in use and held again. */
  ghost predicate Spares(s: Node, e: Step)
    requires Enabled(s, e)
  {
    e.FailAgain? ==>
      var v := s.failing[e.id];
      !(v in s.chunk && s.chunk[v] == InUse && SomeHolder(s, v))
  }

  lemma ProposeHeld(s: Node, id: ShardId, v: nat)
    requires Held(s) && Enabled(s, Propose(id, v))
    ensures Held(Next(s, Propose(id, v)))
  {
    var t := Next(s, Propose(id, v));
    TidyStep(s, Propose(id, v));
    forall x, w ensures Holds(t, x, w) <==> Holds(s, x, w) || (x == id && w == v) {
    }
    forall x, w | Holds(t, x, w) ensures Busy(t, w) {
      if Holds(s, x, w) { assert Busy(s, w); }
    }
    forall x ensures !Holds(s, x, v) {
    }
  }

  /** Nobody new holds a chunk, and no held chunk stops being busy. */
  lemma FewerHolders(s: Node, t: Node)
    requires Held(s) && Tidy(t) && (forall x, w :: Holds(t, x, w) ==> Holds(s, x, w))
    requires forall x, w :: Holds(t, x, w) && Busy(s, w) ==> Busy(t, w)
    ensures Held(t)
  {
    forall x, y, w | Holds(t, x, w) && Holds(t, y, w) ensures x == y {
      assert Holds(s, x, w) && Holds(s, y, w);
    }
  }

  lemma ReleaseHeld(s: Node, e: Step)
    requires Held(s) && Enabled(s, e) && (e.RollbackCreate? || e.FailCreate? || e.SealCommit?)
    ensures Held(Next(s, e))
  {
    var t, v := Next(s, e), Gives(s, e);
    TidyStep(s, e);
    assert Holds(s, e.id, v);
    forall x, w ensures Holds(t, x, w) <==> Holds(s, x, w) && x != e.id {
    }
    FewerHolders(s, t);
  }

  lemma SecondReleaseHeld(s: Node, id: ShardId)
    requires Held(s) && id in s.failing
    ensures Held(Next(s, FailAgain(id))) <==> Spares(s, FailAgain(id))
  {
    var t, v := Next(s, FailAgain(id)), s.failing[id];
    TidyStep(s, FailAgain(id));
    forall x, w ensures Holds(t, x, w) <==> Holds(s, x, w) {
    }
    if Spares(s, FailAgain(id)) {
      forall x, w | Holds(t, x, w) && Busy(s, w) ensures Busy(t, w) {
        assert Holds(s, x, w);
      }
      FewerHolders(s, t);
    } else {
      var x :| Holds(s, x, v);
      assert Holds(t, x, v) && !Busy(t, v);
    }
  }

  lemma QuietHeld(s: Node, e: Step)
    requires Held(s) && Enabled(s, e)
    requires e.Draw? || e.CommitCreate? || e.SealPreCommit? || e.SealRollback?
    ensures Held(Next(s, e))
  {
    TidyStep(s, e);
    if e.CommitCreate? { assert Holds(s, e.id, s.creating[e.id]); }
    FewerHolders(s, Next(s, e));
  }

  lemma GcHeld(s: Node, e: Step)
    requires Held(s) && Enabled(s, e) && (e.StartGc? || e.EndGc? || e.StartEgc? || e.EndEgc?)
    ensures Held(Next(s, e))
  {
    TidyStep(s, e);
    FewerHolders(s, Next(s, e));
  }

  /** Releases during an emergent GC included, a step keeps one holder per chunk if and
      only if it spares the holder. */
  lemma StepHeld(s: Node, e: Step)
    requires Held(s) && Enabled(s, e)
    ensures Held(Next(s, e)) <==> Spares(s, e)
  {
    match e
    case Propose(id, v) => ProposeHeld(s, id, v);
    case RollbackCreate(_) => ReleaseHeld(s, e);
    case FailCreate(_) => ReleaseHeld(s, e);
    case SealCommit(_) => ReleaseHeld(s, e);
    case FailAgain(id) => SecondReleaseHeld(s, id);
    case StartGc(_) => GcHeld(s, e);
    case EndGc(_) => GcHeld(s, e);
    case StartEgc(_) => GcHeld(s, e);
    case EndEgc(_) => GcHeld(s, e);
    case _ => QuietHeld(s, e);
  }

  // ------------------------------------------------------------------- runs

  predicate IsRun(run: seq<Step>, s: Node)
    decreases |run|
  {
    run == [] || (Enabled(s, run[0]) && IsRun(run[1..], Next(s, run[0])))
  }

  function RunOf(run: seq<Step>, s: Node): Node
    requires IsRun(run, s)
    decreases |run|
  {
    if run == [] then s else RunOf(run[1..], Next(s, run[0]))
  }

  predicate RunCareful(run: seq<Step>, s: Node)
    requires IsRun(run, s)
    decreases |run|
  {
    run == [] || (Careful(s, run[0]) && RunCareful(run[1..], Next(s, run[0])))
  }

  ghost predicate RunSpares(run: seq<Step>, s: Node)
    requires IsRun(run, s)
    decreases |run|
  {
    run == [] || (Spares(s, run[0]) && RunSpares(run[1..], Next(s, run[0])))
  }

  /** The invariants in every state of a run. */
  ghost predicate AlwaysInv(run: seq<Step>, s: Node)
    requires IsRun(run, s)
    decreases |run|
  {
    Inv(s) && (run == [] || AlwaysInv(run[1..], Next(s, run[0])))
  }

  ghost predicate AlwaysHeld(run: seq<Step>, s: Node)
    requires IsRun(run, s)
    decreases |run|
  {
    Held(s) && (run == [] || AlwaysHeld(run[1..], Next(s, run[0])))
  }

  /** In use if and only if held, in every state, if and only if every step is careful. */
  lemma {:induction false} RunInv(run: seq<Step>, s: Node)
    requires IsRun(run, s) && Inv(s)
    ensures AlwaysInv(run, s) <==> RunCareful(run, s)
    decreases |run|
  {
    if run != [] {
      StepInv(s, run[0]);
      if Careful(s, run[0]) {
        RunInv(run[1..], Next(s, run[0]));
      } else {
        assert !AlwaysInv(run[1..], Next(s, run[0]));
      }
    }
  }

  /** One holder per chunk, in every state, if and only if every step spares the holder. */
  lemma {:induction false} RunHeld(run: seq<Step>, s: Node)
    requires IsRun(run, s) && Held(s)
    ensures AlwaysHeld(run, s) <==> RunSpares(run, s)
    decreases |run|
  {
    if run != [] {
      StepHeld(s, run[0]);
      if Spares(s, run[0]) {
        RunHeld(run[1..], Next(s, run[0]));
      } else {
        assert !AlwaysHeld(run[1..], Next(s, run[0]));
      }
    }
  }

  lemma {:induction false} HeldAtEnd(run: seq<Step>, s: Node)
    requires IsRun(run, s) && AlwaysHeld(run, s)
    ensures Held(RunOf(run, s))
    decreases |run|
  {
    if run != [] { HeldAtEnd(run[1..], Next(s, run[0])); }
  }

  /** In every run whose second releases spare the holder, whatever an emergent GC does
      meanwhile, a virtual chunk is held by at most one shard not yet sealed, and it is
      then in use, or in the hands of an emergent GC that puts it back in use. */
  lemma OneHolder(run: seq<Step>, s: Node, v: nat, id: ShardId, other: ShardId)
    requires Init(s) && IsRun(run, s) && RunSpares(run, s) && Holds(RunOf(run, s), id, v)
    ensures Holds(RunOf(run, s), other, v) ==> other == id
    ensures Busy(RunOf(run, s), v)
  {
    RunHeld(run, s);
    HeldAtEnd(run, s);
  }

  // --------------------------------------------------------- the shard log

  datatype Turn = Free | HeldBy(shard: ShardId)

  /** Who holds chunk `v` after the committed messages, or nothing when they do not
      alternate: a create on a held chunk, or the seal of a shard that is not the holder. */
  datatype Replay = Broken | At(turn: Turn)

  function Holder(log: seq<Event>, v: nat): Replay {
    if log == [] then At(Free)
    else AfterEvent(Holder(log[..|log| - 1], v), log[|log| - 1], v)
  }

  function AfterEvent(r: Replay, e: Event, v: nat): Replay {
    if r.Broken? || e.v != v then r
    else if e.Created? then (if r.turn == Free then At(HeldBy(e.shard)) else Broken)
    else if r.turn == HeldBy(e.shard) then At(Free) else Broken
  }

  /** On every chunk the committed creates and seals alternate, and the last create
      without a seal is the shard that holds the chunk. */
  ghost predicate LogInv(s: Node) {
    forall v :: LogAt(s, v)
  }

  ghost predicate LogAt(s: Node, v: nat) {
    && Holder(s.log, v).At?
    && forall id :: Holder(s.log, v) == At(HeldBy(id)) <==> id in s.shards && s.shards[id].v == v && !s.shards[id].done
  }

  lemma LogSnoc(log: seq<Event>, e: Event, v: nat)
    ensures Holder(log + [e], v) == AfterEvent(Holder(log, v), e, v)
  {
    assert (log + [e])[..|log|] == log;
  }

  lemma LogCreate(s: Node, id: ShardId, v: nat)
    requires Held(s) && LogAt(s, v) && Enabled(s, CommitCreate(id))
    ensures LogAt(Next(s, CommitCreate(id)), v)
  {
    var w := s.creating[id];
    LogSnoc(s.log, Created(id, w), v);
    if v == w {
      assert Holds(s, id, w);
      if Holder(s.log, v).turn.HeldBy? {
        assert Holds(s, Holder(s.log, v).turn.shard, v);
      }
    }
  }

  lemma LogSeal(s: Node, id: ShardId, v: nat)
    requires LogAt(s, v) && id in s.shards && s.shards[id].sealed && !s.shards[id].done
    ensures LogAt(Next(s, SealCommit(id)), v)
  {
    var w := s.shards[id].v;
    LogSnoc(s.log, Sealed(id, w), v);
    if v == w { assert Holder(s.log, v) == At(HeldBy(id)); }
  }

  lemma LogStep(s: Node, e: Step)
    requires Held(s) && LogInv(s) && Enabled(s, e)
    ensures LogInv(Next(s, e))
  {
    forall v ensures LogAt(Next(s, e), v) {
      assert LogAt(s, v);
      if e.CommitCreate? { LogCreate(s, e.id, v); }
      if e.SealCommit? { LogSeal(s, e.id, v); }
    }
  }

  lemma {:induction false} RunLog(run: seq<Step>, s: Node)
    requires IsRun(run, s) && AlwaysHeld(run, s) && LogInv(s)
    ensures LogInv(RunOf(run, s))
    decreases |run|
  {
    if run != [] {
      LogStep(s, run[0]);
      RunLog(run[1..], Next(s, run[0]));
    }
  }

  /** A replica that applies the committed messages in order never creates a shard on
      a chunk another open shard holds. */
  lemma CommittedLogAlternates(run: seq<Step>, s: Node, v: nat, n: nat)
    requires Init(s) && IsRun(run, s) && RunSpares(run, s) && n <= |RunOf(run, s).log|
    ensures Holder(RunOf(run, s).log[..n], v).At?
  {
    RunHeld(run, s);
    RunLog(run, s);
    assert LogAt(RunOf(run, s), v);
    PrefixAlternates(RunOf(run, s).log, v, n);
  }

  lemma {:induction false} PrefixAlternates(log: seq<Event>, v: nat, n: nat)
    requires n <= |log| && Holder(log, v).At?
    ensures Holder(log[..n], v).At?
  {
    if n < |log| {
      PrefixAlternates(log[..|log| - 1], v, n);
      assert log[..|log| - 1][..n] == log[..n];
    } else {
      assert log[..n] == log;
    }
  }

  // ------------------------------------------------------------ single runs

  ghost predicate Leads(s: Node, e: Step, t: Node) {
    Enabled(s, e) && Next(s, e) == t
  }

  /** The states the steps lead through, the first one being `states[0]`. */
  ghost predicate Path(run: seq<Step>, states: seq<Node>) {
    |states| == |run| + 1 && forall i :: 0 <= i < |run| ==> Leads(states[i], run[i], states[i + 1])
  }

  lemma {:induction false} PathIsRun(run: seq<Step>, states: seq<Node>)
    requires Path(run, states)
    ensures IsRun(run, states[0]) && RunOf(run, states[0]) == states[|run|]
    decreases |run|
  {
    if run != [] {
      assert Leads(states[0], run[0], states[1]);
      PathIsRun(run[1..], states[1..]);
    }
  }

  /** One chunk and nothing drawn. */
  function OneChunk(): Node {
    Node(map[0 := Available], {}, 0, {}, map[], map[], map[], [])
  }

  lemma {:induction false} RunJoins(s: Node, a: seq<Step>, t: Node, b: seq<Step>)
    requires IsRun(a, s) && t == RunOf(a, s) && IsRun(b, t)
    ensures IsRun(a + b, s) && RunOf(a + b, s) == RunOf(b, t)
    decreases |a|
  {
    if a == [] {
      assert a + b == b;
    } else {
      assert (a + b)[1..] == a[1..] + b;
      RunJoins(Next(s, a[0]), a[1..], t, b);
    }
  }

  /** Three ids drawn. */
  function Three(): Node {
    OneChunk().(last := 3, drawn := {1, 2, 3})
  }

  /** Shards 2 and 3 both hold the chunk. */
  function Shared(): Node {
    Node(map[0 := InUse], {}, 3, {}, map[2 := 0, 3 := 0], map[], map[], [])
  }

  function BothCreated(): Node {
    Shared().(creating := map[], shards := map[2 := Shard(0, false, false), 3 := Shard(0, false, false)],
              log := [Created(2, 0), Created(3, 0)])
  }

  lemma DrawTwo(s0: Node, s1: Node, s2: Node)
    requires s0 == OneChunk() && s1 == s0.(last := 1, drawn := {1}) && s2 == s0.(last := 2, drawn := {1, 2})
    ensures Leads(s0, Draw, s1) && Leads(s1, Draw, s2)
  {
    assert {} + {1} == {1} && {1} + {2} == {1, 2};
  }

  lemma DrawThree() returns (run: seq<Step>)
    ensures IsRun(run, OneChunk()) && RunOf(run, OneChunk()) == Three()
  {
    var s0, s1, s2 := OneChunk(), OneChunk().(last := 1, drawn := {1}), OneChunk().(last := 2, drawn := {1, 2});
    DrawTwo(s0, s1, s2);
    assert Leads(s2, Draw, Three()) by { assert {1, 2} + {3} == {1, 2, 3}; }
    run := [Draw, Draw, Draw];
    PathIsRun(run, [s0, s1, s2, Three()]);
  }

  lemma ReleaseTwice(s3: Node, s4: Node, s5: Node, s6: Node, s7: Node, s8: Node)
    requires s3 == Three() && s4 == s3.(chunk := map[0 := InUse], drawn := {2, 3}, creating := map[1 := 0])
    requires s5 == s4.(chunk := map[0 := Available], creating := map[], failing := map[1 := 0])
    requires s6 == s5.(chunk := map[0 := InUse], drawn := {3}, creating := map[2 := 0])
    requires s7 == s6.(chunk := map[0 := Available], failing := map[]) && s8 == Shared()
    ensures Leads(s3, Propose(1, 0), s4) && Leads(s4, FailCreate(1), s5) && Leads(s5, Propose(2, 0), s6)
    ensures Leads(s6, FailAgain(1), s7) && Leads(s7, Propose(3, 0), s8)
  {
    assert {1, 2, 3} - {1} == {2, 3} && {2, 3} - {2} == {3} && {3} - {3} == {};
  }

  lemma ChunkShared() returns (run: seq<Step>)
    ensures IsRun(run, Three()) && RunOf(run, Three()) == Shared()
  {
    var s3 := Three();
    var s4 := s3.(chunk := map[0 := InUse], drawn := {2, 3}, creating := map[1 := 0]);
    var s5 := s4.(chunk := map[0 := Available], creating := map[], failing := map[1 := 0]);
    var s6 := s5.(chunk := map[0 := InUse], drawn := {3}, creating := map[2 := 0]);
    var s7 := s6.(chunk := map[0 := Available], failing := map[]);
    ReleaseTwice(s3, s4, s5, s6, s7, Shared());
    run := [Propose(1, 0), FailCreate(1), Propose(2, 0), FailAgain(1), Propose(3, 0)];
    PathIsRun(run, [s3, s4, s5, s6, s7, Shared()]);
  }

  lemma CommitBoth() returns (run: seq<Step>)
    ensures IsRun(run, Shared()) && RunOf(run, Shared()) == BothCreated()
  {
    var s := Shared().(creating := map[3 := 0], shards := map[2 := Shard(0, false, false)], log := [Created(2, 0)]);
    assert Leads(Shared(), CommitCreate(2), s) && Leads(s, CommitCreate(3), BothCreated());
    run := [CommitCreate(2), CommitCreate(3)];
    PathIsRun(run, [Shared(), s, BothCreated()]);
  }

  /** The two releases of one failed create, with another create between them, leave
      an available chunk with a holder; the next create then shares it, and the
      committed log no longer alternates. */
  lemma DoubleReleaseShares() returns (run: seq<Step>)
    ensures Init(OneChunk()) && IsRun(run, OneChunk()) && RunOf(run, OneChunk()) == BothCreated()
    ensures Holds(BothCreated(), 2, 0) && Holds(BothCreated(), 3, 0) && Holder(BothCreated().log, 0) == Broken
  {
    var draw := DrawThree();
    var share := ChunkShared();
    var commit := CommitBoth();
    RunJoins(Three(), share, Shared(), commit);
    RunJoins(OneChunk(), draw, Three(), share + commit);
    run := draw + (share + commit);
    TwiceCreated(BothCreated().log);
  }

  lemma TwiceCreated(log: seq<Event>)
    requires log == [Created(2, 0), Created(3, 0)]
    ensures Holder(log, 0) == Broken
  {
    assert log[..1] == [Created(2, 0)] && log[..1][..0] == [];
    assert Holder(log[..1], 0) == At(HeldBy(2));
  }

  /** Shard 1 in the only chunk, which an emergent GC has marked, about to be sealed. */
  function SealedUnderGc(): Node {
    Node(map[0 := Gc], {0}, 1, {}, map[], map[], map[1 := Shard(0, true, false)], [Created(1, 0)])
  }

  lemma SealedUnderGcInv(s: Node)
    requires s == SealedUnderGc()
    ensures Inv(s)
  {
    assert forall id, v :: Holds(s, id, v) <==> id == 1 && v == 0;
    assert Holds(s, 1, 0);
  }

  /** The seal commits while the GC has the chunk: when the GC ends, the chunk is in use
      and nobody holds it, so no create can take it and no release is to come. */
  lemma SealInGcLeaks(s: Node, t: Node)
    requires s == SealedUnderGc() && t == Next(Next(s, SealCommit(1)), EndEgc(0))
    ensures Inv(s) && t.chunk[0] == InUse && forall id :: !Holds(t, id, 0)
  {
    SealedUnderGcInv(s);
  }

  lemma MarkedWhileOpen(s0: Node, s1: Node, s2: Node, s3: Node, s4: Node, s5: Node)
    requires s0 == OneChunk() && s1 == s0.(last := 1, drawn := {1})
    requires s2 == s0.(chunk := map[0 := InUse], last := 1, creating := map[1 := 0])
    requires s3 == s2.(creating := map[], shards := map[1 := Shard(0, false, false)], log := [Created(1, 0)])
    requires s4 == s3.(chunk := map[0 := Gc], egc := {0}) && s5 == SealedUnderGc()
    ensures Leads(s0, Draw, s1) && Leads(s1, Propose(1, 0), s2) && Leads(s2, CommitCreate(1), s3)
    ensures Leads(s3, StartEgc(0), s4) && Leads(s4, SealPreCommit(1), s5)
  {
  }

  /** That state is reached. */
  lemma SealedUnderGcReached() returns (run: seq<Step>)
    ensures Init(OneChunk()) && IsRun(run, OneChunk()) && RunOf(run, OneChunk()) == SealedUnderGc()
  {
    var s0 := OneChunk();
    var s1, s2 := s0.(last := 1, drawn := {1}), s0.(chunk := map[0 := InUse], last := 1, creating := map[1 := 0]);
    var s3 := s2.(creating := map[], shards := map[1 := Shard(0, false, false)], log := [Created(1, 0)]);
    var s4, s5 := s3.(chunk := map[0 := Gc], egc := {0}), SealedUnderGc();
    MarkedWhileOpen(s0, s1, s2, s3, s4, s5);
    run := [Draw, Propose(1, 0), CommitCreate(1), StartEgc(0), SealPreCommit(1)];
    PathIsRun(run, [s0, s1, s2, s3, s4, s5]);
  }

  /** Two ids drawn, one chunk. */
  function Alone(chunk: State, drawn: set<ShardId>, creating: map<ShardId, nat>, shards: map<ShardId, Shard>,
                 log: seq<Event>): Node {
    Node(map[0 := chunk], {}, 2, drawn, creating, map[], shards, log)
  }

  /** Shard 2 lives and dies in the chunk. */
  lemma SecondLives(s0: Node, s1: Node, s2: Node, s3: Node, s4: Node)
    requires s0 == Alone(Available, {1, 2}, map[], map[], []) && s1 == Alone(InUse, {1}, map[2 := 0], map[], [])
    requires s2 == Alone(InUse, {1}, map[], map[2 := Shard(0, false, false)], [Created(2, 0)])
    requires s3 == s2.(shards := map[2 := Shard(0, true, false)])
    requires s4 == Alone(Available, {1}, map[], map[2 := Shard(0, true, true)], [Created(2, 0), Sealed(2, 0)])
    ensures Leads(s0, Propose(2, 0), s1) && Leads(s1, CommitCreate(2), s2)
    ensures Leads(s2, SealPreCommit(2), s3) && Leads(s3, SealCommit(2), s4)
  {
    assert {1, 2} - {2} == {1};
  }

  lemma FirstFollows(a: Node, b: Node, c: Node)
    requires a == Alone(Available, {1}, map[], map[2 := Shard(0, true, true)], [Created(2, 0), Sealed(2, 0)])
    requires b == Alone(InUse, {}, map[1 := 0], a.shards, a.log)
    requires c == Alone(InUse, {}, map[], map[1 := Shard(0, false, false), 2 := Shard(0, true, true)],
                        a.log + [Created(1, 0)])
    ensures Leads(a, Propose(1, 0), b) && Leads(b, CommitCreate(1), c)
  {
    assert {1} - {1} == {};
  }

  /** Ids are drawn before chunks are chosen, so a shard may come into a chunk after the
      whole life of a shard with a larger id: ids 1 and 2 are drawn, shard 2 is created
      and sealed in the chunk, and shard 1 then takes it. In id order the chunk holds
      an open shard and then a sealed one. */
  lemma OpenBeforeSealed() returns (run: seq<Step>)
    ensures Init(OneChunk()) && IsRun(run, OneChunk())
    ensures RunOf(run, OneChunk()).shards == map[1 := Shard(0, false, false), 2 := Shard(0, true, true)]
  {
    var n0 := OneChunk();
    var n1, s0 := n0.(last := 1, drawn := {1}), Alone(Available, {1, 2}, map[], map[], []);
    var s1 := Alone(InUse, {1}, map[2 := 0], map[], []);
    var s2 := Alone(InUse, {1}, map[], map[2 := Shard(0, false, false)], [Created(2, 0)]);
    var s3 := s2.(shards := map[2 := Shard(0, true, false)]);
    var s4 := Alone(Available, {1}, map[], map[2 := Shard(0, true, true)], [Created(2, 0), Sealed(2, 0)]);
    var b := Alone(InUse, {}, map[1 := 0], s4.shards, s4.log);
    var c := Alone(InUse, {}, map[], map[1 := Shard(0, false, false), 2 := Shard(0, true, true)],
      s4.log + [Created(1, 0)]);
    DrawTwo(n0, n1, s0);
    SecondLives(s0, s1, s2, s3, s4);
    FirstFollows(s4, b, c);
    run := [Draw, Draw, Propose(2, 0), CommitCreate(2), SealPreCommit(2), SealCommit(2), Propose(1, 0),
            CommitCreate(1)];
    PathIsRun(run, [n0, n1, s0, s1, s2, s3, s4, b, c]);
  }
}
