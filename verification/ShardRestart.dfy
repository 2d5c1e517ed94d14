/** Chunk states after a restart: recovered from the shard superblocks, changed by the
    replay of the log, and set once more when the replay is done. */
module ShardRestart {
  import opened Storage
  import opened ChunkSelector
  import opened ShardLifecycle

  /** A shard superblock. */
  datatype Sb = Sb(v: nat, open: bool)

  /** The node while it replays: superblocks and chunk states. */
  datatype Booted = Booted(sbs: map<ShardId, Sb>, chunk: map<nat, State>)

  /** A committed message on the superblocks: the create of a known shard changes
      nothing, a seal closes its shard. */
  function Applied(sbs: map<ShardId, Sb>, e: Event): map<ShardId, Sb> {
    match e
    case Created(id, v) => if id in sbs then sbs else sbs[id := Sb(v, true)]
    case Sealed(id, _) => if id in sbs then sbs[id := sbs[id].(open := false)] else sbs
  }

  function SbsAfter(log: seq<Event>): map<ShardId, Sb> {
    if log == [] then map[] else Applied(SbsAfter(log[..|log| - 1]), log[|log| - 1])
  }

  /** The commit of the message during replay. A create takes the chunk only for a new
      shard; a seal releases the chunk, whoever holds it by now. */
  function Replayed(b: Booted, e: Event): Booted {
    match e
    case Created(id, v) => Booted(Applied(b.sbs, e), if id in b.sbs then b.chunk else ShardLifecycle.Taken(b.chunk, v))
    case Sealed(id, _) => Booted(Applied(b.sbs, e), if id in b.sbs then Freed(b.chunk, b.sbs[id].v) else b.chunk)
  }

  function ReplayedAll(b: Booted, log: seq<Event>): Booted {
    if log == [] then b else Replayed(ReplayedAll(b, log[..|log| - 1]), log[|log| - 1])
  }

  ghost predicate OpenOn(sbs: map<ShardId, Sb>, v: nat) {
    exists id :: id in sbs && sbs[id].open && sbs[id].v == v
  }

  /** Recovery of the states: in use exactly where a superblock is open. */
  ghost predicate Recovered(b: Booted) {
    forall v :: v in b.chunk ==> (b.chunk[v] == InUse <==> OpenOn(b.sbs, v)) && b.chunk[v] != Gc
  }

  // ---------------------------------------------------------- the superblocks

  ghost predicate Absorbs(sbs: map<ShardId, Sb>, e: Event) {
    match e
    case Created(id, _) => id in sbs
    case Sealed(id, _) => id in sbs && !sbs[id].open
  }

  ghost predicate AbsorbsAll(sbs: map<ShardId, Sb>, log: seq<Event>) {
    forall i :: 0 <= i < |log| ==> Absorbs(sbs, log[i])
  }

  /** A seal follows the create of its shard. */
  ghost predicate SealsKnown(log: seq<Event>) {
    forall i :: 0 <= i < |log| && log[i].Sealed? ==> log[i].shard in SbsAfter(log[..i])
  }

  lemma SbsSnoc(log: seq<Event>, i: nat)
    requires i < |log|
    ensures SbsAfter(log[..i + 1]) == Applied(SbsAfter(log[..i]), log[i])
  {
    assert log[..i + 1][..i] == log[..i];
  }

  /** The superblocks have every message of the log in them. */
  lemma {:induction false} AbsorbsOwn(log: seq<Event>, m: nat)
    requires SealsKnown(log) && m <= |log|
    ensures AbsorbsAll(SbsAfter(log[..m]), log[..m])
  {
    if m > 0 {
      AbsorbsOwn(log, m - 1);
      SbsSnoc(log, m - 1);
      var old_, now := SbsAfter(log[..m - 1]), SbsAfter(log[..m]);
      forall i | 0 <= i < m ensures Absorbs(now, log[i]) {
        if i < m - 1 { assert Absorbs(old_, log[..m - 1][i]); }
      }
    }
  }

  lemma AbsorbedStays(sbs: map<ShardId, Sb>, e: Event)
    requires Absorbs(sbs, e)
    ensures Applied(sbs, e) == sbs
  {
  }

  lemma ReplayedSnoc(b: Booted, log: seq<Event>, k: nat, n: nat)
    requires k < n <= |log|
    ensures ReplayedAll(b, log[k..n]) == Replayed(ReplayedAll(b, log[k..n - 1]), log[n - 1])
  {
    assert log[k..n][..n - 1 - k] == log[k..n - 1];
  }

  /** Replaying messages the superblocks have changes none of them. */
  lemma {:induction false} OldReplayed(b: Booted, log: seq<Event>, k: nat, n: nat)
    requires k <= n <= |log| && AbsorbsAll(b.sbs, log[..n])
    ensures ReplayedAll(b, log[k..n]).sbs == b.sbs
  {
    if k < n {
      assert forall i :: 0 <= i < n - 1 ==> log[..n - 1][i] == log[..n][i];
      OldReplayed(b, log, k, n - 1);
      ReplayedSnoc(b, log, k, n);
      assert Absorbs(b.sbs, log[..n][n - 1]);
      AbsorbedStays(b.sbs, log[n - 1]);
    }
  }

  /** With the rest of the log they become the superblocks of the whole log. */
  lemma {:induction false} SbsReplayed(log: seq<Event>, k: nat, m: nat, n: nat, b: Booted)
    requires SealsKnown(log) && k <= m <= n <= |log| && b.sbs == SbsAfter(log[..m])
    ensures ReplayedAll(b, log[k..n]).sbs == SbsAfter(log[..n])
  {
    if m == n {
      AbsorbsOwn(log, m);
      OldReplayed(b, log, k, m);
    } else {
      SbsReplayed(log, k, m, n - 1, b);
      ReplayedSnoc(b, log, k, n);
      SbsSnoc(log, n - 1);
    }
  }

  // --------------------------------------------------------------- the chunks

  /** No chunk is in use without an open shard. */
  ghost predicate NoLeak(b: Booted) {
    forall v :: v in b.chunk && b.chunk[v] == InUse ==> OpenOn(b.sbs, v)
  }

  lemma ReplayNoLeak(b: Booted, e: Event)
    requires NoLeak(b)
    ensures NoLeak(Replayed(b, e))
  {
    var t := Replayed(b, e);
    forall v | v in t.chunk && t.chunk[v] == InUse ensures OpenOn(t.sbs, v) {
      if e.Created? && e.shard !in b.sbs && e.v == v {
        assert t.sbs[e.shard].open && t.sbs[e.shard].v == v;
      } else {
        var id :| id in b.sbs && b.sbs[id].open && b.sbs[id].v == v;
        assert id in t.sbs && t.sbs[id] == b.sbs[id];
      }
    }
  }

  lemma {:induction false} ReplayKeeps(b: Booted, log: seq<Event>)
    requires NoLeak(b) && forall v :: v in b.chunk ==> b.chunk[v] != Gc
    ensures NoLeak(ReplayedAll(b, log)) && ReplayedAll(b, log).chunk.Keys == b.chunk.Keys
    ensures forall v :: v in b.chunk ==> ReplayedAll(b, log).chunk[v] != Gc
  {
    if log != [] {
      ReplayKeeps(b, log[..|log| - 1]);
      ReplayNoLeak(ReplayedAll(b, log[..|log| - 1]), log[|log| - 1]);
    }
  }

  /** Every available chunk with an open shard taken. */
  ghost function Marked(b: Booted): map<nat, State> {
    map v | v in b.chunk :: if b.chunk[v] == Available && OpenOn(b.sbs, v) then InUse else b.chunk[v]
  }

  /** Chunk states after replaying log[k..] and marking the chunks of open shards. */
  ghost function AfterRestart(b: Booted, log: seq<Event>, k: nat): map<nat, State>
    requires k <= |log|
  {
    Marked(ReplayedAll(b, log[k..]))
  }

  /** The end of the replay: take the chunk of every open shard. */
  method MarkOpen(sbs: map<ShardId, Sb>, order: seq<ShardId>, chunk: map<nat, State>) returns (r: map<nat, State>)
    requires forall id :: id in order <==> id in sbs
    ensures r == Marked(Booted(sbs, chunk))
  {
    r := chunk;
    var i := 0;
    while i < |order|
      invariant 0 <= i <= |order| && r.Keys == chunk.Keys
      invariant forall v :: v in chunk ==>
        r[v] == if chunk[v] == Available && OpenIn(sbs, order[..i], v) then InUse else chunk[v]
    {
      OpenSnoc(sbs, order, i);
      if sbs[order[i]].open { r := ShardLifecycle.Taken(r, sbs[order[i]].v); }
      i := i + 1;
    }
    forall v | v in chunk ensures OpenIn(sbs, order[..i], v) <==> OpenOn(sbs, v) {
      assert order[..i] == order;
      if OpenOn(sbs, v) {
        var id :| id in sbs && sbs[id].open && sbs[id].v == v;
        assert id in order;
      }
    }
  }

  ghost predicate OpenIn(sbs: map<ShardId, Sb>, ids: seq<ShardId>, v: nat) {
    exists id :: id in ids && id in sbs && sbs[id].open && sbs[id].v == v
  }

  lemma OpenSnoc(sbs: map<ShardId, Sb>, order: seq<ShardId>, i: nat)
    requires i < |order| && order[i] in sbs
    ensures forall v :: OpenIn(sbs, order[..i + 1], v) <==>
      OpenIn(sbs, order[..i], v) || (sbs[order[i]].open && sbs[order[i]].v == v)
  {
    assert order[..i + 1] == order[..i] + [order[i]];
    forall v
      ensures OpenIn(sbs, order[..i + 1], v) <==>
        OpenIn(sbs, order[..i], v) || (sbs[order[i]].open && sbs[order[i]].v == v)
    {
      if sbs[order[i]].open && sbs[order[i]].v == v { assert order[i] in order[..i + 1]; }
      if OpenIn(sbs, order[..i], v) {
        var id :| id in order[..i] && id in sbs && sbs[id].open && sbs[id].v == v;
        assert id in order[..i + 1];
      }
    }
  }

  /** What a restart may start from: the superblocks of the first `m` messages, chunk
      states recovered from them, and a replay from an earlier message `k` on. */
  ghost predicate Restarts(log: seq<Event>, k: nat, m: nat, b: Booted) {
    k <= m <= |log| && b.sbs == SbsAfter(log[..m]) && Recovered(b)
  }

  /** Whatever `k` and `m` are, a chunk ends in use exactly when a shard of the log is
      open in it. */
  lemma RestartOpens(log: seq<Event>, k: nat, m: nat, b: Booted)
    requires SealsKnown(log) && Restarts(log, k, m, b)
    ensures ReplayedAll(b, log[k..]).sbs == SbsAfter(log) && AfterRestart(b, log, k).Keys == b.chunk.Keys
    ensures forall v :: v in b.chunk ==>
      (AfterRestart(b, log, k)[v] == InUse <==> OpenOn(SbsAfter(log), v)) && AfterRestart(b, log, k)[v] != Gc
  {
    SbsReplayed(log, k, m, |log|, b);
    assert log[..|log|] == log && log[k..] == log[k..|log|];
    ReplayKeeps(b, log[k..]);
  }

  /** The restart as it is done: replay, then the loop over the shards. */
  method Restart(log: seq<Event>, k: nat, m: nat, b: Booted, order: seq<ShardId>) returns (r: map<nat, State>)
    requires SealsKnown(log) && Restarts(log, k, m, b) && forall id :: id in order <==> id in SbsAfter(log)
    ensures r == AfterRestart(b, log, k) && r.Keys == b.chunk.Keys
    ensures forall v :: v in r ==> (r[v] == InUse <==> OpenOn(SbsAfter(log), v)) && r[v] != Gc
  {
    RestartOpens(log, k, m, b);
    var done := ReplayedAll(b, log[k..]);
    r := MarkOpen(done.sbs, order, done.chunk);
  }

  /** Without the marking after the replay: shard 1 created and sealed, shard 2 created in
      the same chunk, all three messages replayed. The chunk starts in use, the old
      seal releases it, and shard 2 is left open in an available chunk. */
  lemma MarkedTooEarly(log: seq<Event>, b: Booted)
    requires log == [Created(1, 0), Sealed(1, 0), Created(2, 0)]
    requires b == Booted(map[1 := Sb(0, false), 2 := Sb(0, true)], map[0 := InUse])
    ensures b.sbs == SbsAfter(log) && Recovered(b)
    ensures ReplayedAll(b, log).chunk == map[0 := Available] && OpenOn(ReplayedAll(b, log).sbs, 0)
  {
    assert log[..2] == [Created(1, 0), Sealed(1, 0)] && log[..2][..1] == [Created(1, 0)] && log[..1][..0] == [];
    assert SbsAfter(log[..2][..1]) == map[1 := Sb(0, true)];
    assert SbsAfter(log[..2]) == map[1 := Sb(0, false)];
    assert b.sbs[2].open;
    assert ReplayedAll(b, log[..2][..1]) == b;
    assert ReplayedAll(b, log[..2]) == Booted(b.sbs, map[0 := Available]);
  }

  // ----------------------------------------------------- the running node

  /** The superblocks of a running node are those of its log. */
  ghost predicate SbsOk(s: Node) {
    && SealsKnown(s.log) && SbsAfter(s.log).Keys == s.shards.Keys
    && forall id :: id in s.shards ==> SbsAfter(s.log)[id] == Sb(s.shards[id].v, !s.shards[id].done)
  }

  lemma LogGrows(log: seq<Event>, e: Event)
    requires SealsKnown(log) && (e.Sealed? ==> e.shard in SbsAfter(log))
    ensures SealsKnown(log + [e]) && SbsAfter(log + [e]) == Applied(SbsAfter(log), e)
  {
    var all := log + [e];
    assert all[..|log|] == log;
    forall i | 0 <= i < |all| && all[i].Sealed? ensures all[i].shard in SbsAfter(all[..i]) {
      if i < |log| { assert all[..i] == log[..i]; }
    }
  }

  lemma SbsSame(s: Node, t: Node)
    requires SbsOk(s) && t.log == s.log && t.shards.Keys == s.shards.Keys
    requires forall id :: id in s.shards ==> t.shards[id].v == s.shards[id].v && t.shards[id].done == s.shards[id].done
    ensures SbsOk(t)
  {
  }

  lemma SbsCreate(s: Node, t: Node, id: ShardId, v: nat)
    requires SbsOk(s) && id !in s.shards && t.log == s.log + [Created(id, v)]
    requires t.shards == s.shards[id := Shard(v, false, false)]
    ensures SbsOk(t)
  {
    LogGrows(s.log, Created(id, v));
  }

  lemma SbsSeal(s: Node, t: Node, id: ShardId)
    requires SbsOk(s) && id in s.shards && t.log == s.log + [Sealed(id, s.shards[id].v)]
    requires t.shards == s.shards[id := s.shards[id].(done := true)]
    ensures SbsOk(t)
  {
    LogGrows(s.log, Sealed(id, s.shards[id].v));
  }

  lemma SbsStep(s: Node, e: Step)
    requires SbsOk(s) && Tidy(s) && Enabled(s, e)
    ensures SbsOk(Next(s, e))
  {
    var t := Next(s, e);
    if e.CommitCreate? {
      SbsCreate(s, t, e.id, s.creating[e.id]);
    } else if e.SealCommit? {
      SbsSeal(s, t, e.id);
    } else {
      SbsSame(s, t);
    }
  }

  lemma {:induction false} RunSbs(run: seq<Step>, s: Node)
    requires IsRun(run, s) && Tidy(s) && SbsOk(s)
    ensures SbsOk(RunOf(run, s))
    decreases |run|
  {
    if run != [] {
      SbsStep(s, run[0]);
      TidyStep(s, run[0]);
      RunSbs(run[1..], Next(s, run[0]));
    }
  }

  /** A committed shard that is not sealed has its chunk `v`. */
  ghost predicate OpenShard(t: Node, v: nat) {
    exists id :: id in t.shards && t.shards[id].v == v && !t.shards[id].done
  }

  lemma OpenIsOpen(t: Node, v: nat)
    requires SbsOk(t)
    ensures OpenOn(SbsAfter(t.log), v) <==> OpenShard(t, v)
  {
    if OpenOn(SbsAfter(t.log), v) {
      var id :| id in SbsAfter(t.log) && SbsAfter(t.log)[id].open && SbsAfter(t.log)[id].v == v;
      assert id in t.shards && t.shards[id].v == v && !t.shards[id].done;
    }
    if OpenShard(t, v) {
      var id :| id in t.shards && t.shards[id].v == v && !t.shards[id].done;
      assert SbsAfter(t.log)[id].open && SbsAfter(t.log)[id].v == v;
    }
  }

  /** After any run of any steps, a crash, and a restart from any durable part of the log:
      a chunk is in use exactly when a shard that is created and not sealed has it,
      whatever leaked or was shared before the crash. */
  lemma RestartedChunks(run: seq<Step>, s: Node, t: Node, k: nat, m: nat, b: Booted, v: nat)
    requires Init(s) && IsRun(run, s) && t == RunOf(run, s) && Restarts(t.log, k, m, b) && v in b.chunk
    ensures SealsKnown(t.log) && v in AfterRestart(b, t.log, k)
    ensures AfterRestart(b, t.log, k)[v] == InUse <==> OpenShard(t, v)
  {
    RunSbs(run, s);
    RestartOpens(t.log, k, m, b);
    OpenIsOpen(t, v);
  }
}
