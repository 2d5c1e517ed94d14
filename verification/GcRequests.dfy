/** What the clients asked for and what was flushed, read off the steps of a run
    alone, and what a reader then finds: the replica as its clients see it. */
module GcRequests {
  import opened Storage
  import opened GcMachine
  import opened GcInvariant
  import opened GcSteps
  import opened GcTheorems

  datatype Request =
    | PutRequest(key: Key, data: Data)
    | DelRequest(key: Key)
    | CreateRequest(shard: ShardId, slot: Slot)
    | SealRequest(shard: ShardId)

  datatype Launch = Launch(to: Chunk, emergent: bool)

  /** Everything asked, in order; how many of them are committed, were committed
      at the last checkpoint, have ever been committed, and are known to be
      durable; and what was last launched for each slot. */
  datatype History = History(asked: seq<Request>, done: nat, saved: nat, high: nat, flushed: nat,
                             launched: map<Slot, Launch>)

  const NOTHING := History([], 0, 0, 0, 0, map[])

  function Committed(h: History): History {
    h.(done := h.done + 1, high := Max(h.high, h.done + 1),
       flushed := if h.done < |h.asked| && h.asked[h.done].SealRequest? then Max(h.flushed, h.done) else h.flushed)
  }

  function Flushing(h: History): History {
    h.(saved := h.done, flushed := Max(h.flushed, h.done))
  }

  function After(h: History, e: Step): History {
    match e
    case Client(PutStep(k, d)) => h.(asked := h.asked + [PutRequest(k, d)])
    case Client(DelStep(k)) => h.(asked := h.asked + [DelRequest(k)])
    case Client(CreateStep(sh, a, _)) => h.(asked := h.asked + [CreateRequest(sh, a)])
    case Client(SealStep(sh, _)) => h.(asked := h.asked + [SealRequest(sh)])
    case Client(ApplyStep) => Committed(h)
    case Host(CheckpointStep) => Flushing(h)
    case Host(CrashStep) => h.(done := h.saved)
    case Collect(a, StartStep(to, emergent)) => h.(launched := h.launched[a := Launch(to, emergent)])
    case Collect(_, FlushStep) => Flushing(h)
    case Move(_, FlushSwapStep) => Flushing(h)
    case _ => h
  }

  function HistoryOf(h: History, steps: seq<Step>): History
    decreases |steps|
  {
    if steps == [] then h else HistoryOf(After(h, steps[0]), steps[1..])
  }

  /** `r` is among the first `n` requests. */
  ghost predicate Among(asked: seq<Request>, n: nat, r: Request) {
    exists i :: 0 <= i < n && i < |asked| && asked[i] == r
  }

  // ---------------------------------------------- the log is what was asked

  predicate Logs(op: Op, r: Request) {
    match op
    case Put(k, _, d) => r == PutRequest(k, d)
    case Del(k) => r == DelRequest(k)
    case Create(sh, a, _) => r == CreateRequest(sh, a)
    case Seal(sh) => r == SealRequest(sh)
  }

  ghost predicate LogIs(log: seq<Op>, asked: seq<Request>) {
    |log| == |asked| && (forall i :: 0 <= i < |log| ==> Logs(log[i], asked[i]))
  }

  ghost predicate LogFollows(s: Node, h: History) {
    && LogIs(s.log, h.asked) && s.applied == h.done && s.cpLsn == h.saved && s.dcLsn == h.flushed
  }

  lemma ProposeFollows(s: Node, c: ClientStep, h: History)
    requires ClientEnabled(s, c) && c != ApplyStep && LogFollows(s, h)
    ensures LogFollows(ClientNext(s, c), After(h, Client(c)))
  {
    match c
    case PutStep(_, _) =>
    case DelStep(_) =>
    case CreateStep(_, _, _) =>
    case SealStep(_, _) =>
  }

  lemma ApplyBlobFlushed(s: Node)
    requires CanApply(s) && (s.log[s.applied].Put? || s.log[s.applied].Del?)
    ensures Apply(s).cpLsn == s.cpLsn && Apply(s).dcLsn == s.dcLsn
  {
  }

  lemma ApplyShardFlushed(s: Node)
    requires CanApply(s) && (s.log[s.applied].Create? || s.log[s.applied].Seal?)
    ensures Apply(s).cpLsn == s.cpLsn
    ensures Apply(s).dcLsn == if s.log[s.applied].Seal? then Max(s.dcLsn, s.applied) else s.dcLsn
  {
  }

  lemma ApplyFollows(s: Node, t: Node, h: History)
    requires CanApply(s) && t == Apply(s) && LogFollows(s, h)
    ensures LogFollows(t, Committed(h))
  {
    assert Logs(s.log[s.applied], h.asked[h.done]);
    ApplyCursor(s);
    if s.log[s.applied].Put? || s.log[s.applied].Del? { ApplyBlobFlushed(s); } else { ApplyShardFlushed(s); }
  }

  lemma HostFollows(s: Node, e: HostStep, h: History)
    requires HostEnabled(s, e) && LogFollows(s, h)
    ensures LogFollows(HostNext(s, e), After(h, Host(e)))
  {
    match e
    case CheckpointStep =>
    case CrashStep =>
    case RecoverStep(_) =>
    case EndRecoveryStep =>
  }

  lemma CopyFollows(s: Node, a: Slot, e: CopyStep, h: History)
    requires CopyEnabled(s, a, e) && LogFollows(s, h)
    ensures LogFollows(CopyNext(s, a, e), After(h, Collect(a, e)))
  {
    match e
    case StartStep(_, _) =>
    case PurgeStep =>
    case QueryStep(_, _) =>
    case CopyBlobStep(_) =>
    case EndCopyStep =>
    case SweepStep(_) =>
    case FlushStep =>
    case FailStep =>
    case RecordStep =>
  }

  lemma MoveFollows(s: Node, a: Slot, e: MoveStep, h: History)
    requires MoveEnabled(s, a, e) && LogFollows(s, h)
    ensures LogFollows(MoveNext(s, a, e), After(h, Move(a, e)))
  {
    match e
    case SwapStep(_) =>
    case MovePgStep =>
    case MoveShardStep(_) =>
    case EndShardsStep =>
    case FlushSwapStep =>
    case MoveReservedStep =>
    case DestroyStep =>
  }

  lemma StepFollows(s: Node, e: Step, h: History)
    requires Enabled(s, e) && LogFollows(s, h)
    ensures LogFollows(Next(s, e), After(h, e))
  {
    match e
    case Client(c) => if c == ApplyStep { ApplyFollows(s, Apply(s), h); } else { ProposeFollows(s, c, h); }
    case Host(x) => HostFollows(s, x, h);
    case Collect(a, p) => CopyFollows(s, a, p, h);
    case Move(a, m) => MoveFollows(s, a, m, h);
  }

  lemma {:induction false} RunFollows(s: Node, steps: seq<Step>, h: History)
    requires IsRun(s, steps) && LogFollows(s, h)
    ensures LogFollows(RunOf(s, steps), HistoryOf(h, steps))
    decreases |steps|
  {
    if steps != [] {
      StepFollows(s, steps[0], h);
      RunFollows(Next(s, steps[0]), steps[1..], After(h, steps[0]));
    }
  }

  // ------------------------------------------------------------ what is read

  /** A key alive after `n` operations was put by one of them and not deleted since. */
  lemma {:induction false} AliveSince(log: seq<Op>, n: nat, k: Key) returns (i: nat)
    requires n <= |log| && k in Alive(log, n)
    ensures i < n && log[i].Put? && log[i].key == k
    ensures forall j :: i < j < n ==> log[j] != Del(k)
  {
    if log[n - 1].Put? && log[n - 1].key == k {
      i := n - 1;
    } else {
      i := AliveSince(log, n - 1, k);
    }
  }

  lemma {:induction false} PutStaysAlive(log: seq<Op>, i: nat, n: nat)
    requires i < n <= |log| && log[i].Put? && (forall j :: i < j < n ==> log[j] != Del(log[i].key))
    ensures log[i].key in Alive(log, n)
  {
    if n > i + 1 { PutStaysAlive(log, i, n - 1); }
  }

  /** A delete never precedes the put of its key. */
  lemma NoDelBefore(log: seq<Op>, i: nat, j: nat)
    requires UniquePuts(log) && DelsFollowPuts(log) && i < |log| && log[i].Put?
    requires j < |log| && log[j] == Del(log[i].key)
    ensures i < j
  {
    var m := PutKeysFrom(log, j, log[j].key);
  }

  lemma {:induction false} PayloadAt(log: seq<Op>, i: nat)
    requires UniquePuts(log) && i < |log| && log[i].Put?
    ensures log[i].key in Payloads(log) && Payloads(log)[log[i].key] == log[i].data
    decreases |log|
  {
    var rest := log[..|log| - 1];
    if i < |log| - 1 {
      assert rest[i] == log[i];
      assert forall x, y :: 0 <= x < y < |rest| && rest[x].Put? && rest[y].Put? ==> rest[x].key != rest[y].key;
      PayloadAt(rest, i);
    }
  }

  /** `k` holds `d` after the first `n` requests. */
  ghost predicate Stored(asked: seq<Request>, n: nat, k: Key, d: Data) {
    Among(asked, n, PutRequest(k, d)) && !Among(asked, n, DelRequest(k))
  }

  lemma StoredIsRead(s: Node, h: History, k: Key, d: Data)
    requires Inv(s) && LogFollows(s, h) && Stored(h.asked, h.done, k, d)
    ensures Reads(s, k, d)
  {
    var i :| 0 <= i < h.done && i < |h.asked| && h.asked[i] == PutRequest(k, d);
    assert Logs(s.log[i], h.asked[i]);
    forall j | i < j < s.applied ensures s.log[j] != Del(k) {
      assert Logs(s.log[j], h.asked[j]);
    }
    PutStaysAlive(s.log, i, s.applied);
    PayloadAt(s.log, i);
    ReadsLogical(s, k, d);
  }

  lemma ReadIsStored(s: Node, h: History, k: Key, d: Data)
    requires Inv(s) && LogFollows(s, h) && Reads(s, k, d)
    ensures Stored(h.asked, h.done, k, d)
  {
    ReadsLogical(s, k, d);
    var i := AliveSince(s.log, s.applied, k);
    assert Logs(s.log[i], h.asked[i]);
    PayloadAt(s.log, i);
    if Among(h.asked, h.done, DelRequest(k)) {
      var j :| 0 <= j < h.done && j < |h.asked| && h.asked[j] == DelRequest(k);
      assert Logs(s.log[j], h.asked[j]);
      NoDelBefore(s.log, i, j);
    }
  }

  lemma HistoryFollows(s0: Node, steps: seq<Step>)
    requires Init(s0) && IsRun(s0, steps)
    ensures Inv(RunOf(s0, steps)) && LogFollows(RunOf(s0, steps), HistoryOf(NOTHING, steps))
  {
    InitInv(s0);
    RunInv(s0, steps);
    RunFollows(s0, steps, NOTHING);
  }

  /** A get of `k` returns `d` exactly when, among the requests committed so far, a
      client put `d` under `k` and none deleted `k`: from the arguments the clients
      passed, through every crash, replay and GC task, to what they read back. */
  lemma ReadsFollowRequests(s0: Node, steps: seq<Step>, k: Key, d: Data)
    requires Init(s0) && IsRun(s0, steps)
    ensures var h := HistoryOf(NOTHING, steps);
      Reads(RunOf(s0, steps), k, d) <==> Stored(h.asked, h.done, k, d)
  {
    var s, h := RunOf(s0, steps), HistoryOf(NOTHING, steps);
    HistoryFollows(s0, steps);
    if Reads(s, k, d) { ReadIsStored(s, h, k, d); }
    if Stored(h.asked, h.done, k, d) { StoredIsRead(s, h, k, d); }
  }

  // --------------------------------------------- one request through the run

  lemma {:induction false} HistoryJoins(h: History, a: seq<Step>, b: seq<Step>)
    ensures HistoryOf(h, a + b) == HistoryOf(HistoryOf(h, a), b)
    decreases |a|
  {
    if a == [] {
      assert a + b == b;
    } else {
      FrontOf(a, b);
      HistoryJoins(After(h, a[0]), a[1..], b);
    }
  }

  lemma FrontOf(a: seq<Step>, b: seq<Step>)
    requires a != []
    ensures (a + b)[0] == a[0] && (a + b)[1..] == a[1..] + b
  {
  }

  lemma {:induction false} AskedGrows(h: History, steps: seq<Step>)
    ensures h.asked <= HistoryOf(h, steps).asked
    decreases |steps|
  {
    if steps != [] { AskedGrows(After(h, steps[0]), steps[1..]); }
  }

  /** The position a request takes among all requests is the number asked before. */
  lemma AskedAt(before: seq<Step>, e: Step, later: seq<Step>, r: Request)
    requires After(HistoryOf(NOTHING, before), e).asked == HistoryOf(NOTHING, before).asked + [r]
    ensures var n, h := |HistoryOf(NOTHING, before).asked|, HistoryOf(NOTHING, before + ([e] + later));
      n < |h.asked| && h.asked[n] == r
  {
    var h := HistoryOf(NOTHING, before);
    HistoryJoins(NOTHING, before, [e] + later);
    FrontOf([e], later);
    assert [e][1..] + later == later;
    AskedGrows(After(h, e), later);
  }

  function Around(before: seq<Step>, c: ClientStep, later: seq<Step>): seq<Step> {
    before + ([Client(c)] + later)
  }

  /** The request made between `before` and `later` is committed. */
  predicate IsCommitted(before: seq<Step>, c: ClientStep, later: seq<Step>) {
    |HistoryOf(NOTHING, before).asked| < HistoryOf(NOTHING, Around(before, c, later)).done
  }

  /** A put that has been committed is read back, whole, until a delete of its key
      is committed too. */
  lemma PutIsRead(s0: Node, before: seq<Step>, k: Key, d: Data, later: seq<Step>)
    requires Init(s0) && IsRun(s0, Around(before, PutStep(k, d), later))
    requires IsCommitted(before, PutStep(k, d), later)
    ensures var h := HistoryOf(NOTHING, Around(before, PutStep(k, d), later));
      Reads(RunOf(s0, Around(before, PutStep(k, d), later)), k, d) <==> !Among(h.asked, h.done, DelRequest(k))
  {
    AskedAt(before, Client(PutStep(k, d)), later, PutRequest(k, d));
    ReadsFollowRequests(s0, Around(before, PutStep(k, d), later), k, d);
  }

  /** Once a delete has been committed its key cannot be read. */
  lemma DelIsGone(s0: Node, before: seq<Step>, k: Key, later: seq<Step>, d: Data)
    requires Init(s0) && IsRun(s0, Around(before, DelStep(k), later)) && IsCommitted(before, DelStep(k), later)
    ensures !Reads(RunOf(s0, Around(before, DelStep(k), later)), k, d)
  {
    AskedAt(before, Client(DelStep(k)), later, DelRequest(k));
    ReadsFollowRequests(s0, Around(before, DelStep(k), later), k, d);
  }

  // ----------------------------------------------------------- shard records

  /** The requests name each new shard once, and seal only shards that exist. */
  ghost predicate ShardsAsked(asked: seq<Request>, shards: map<ShardId, Shard>) {
    && (forall i, j :: 0 <= i < j < |asked| && asked[i].CreateRequest? && asked[j].CreateRequest?
          ==> asked[i].shard != asked[j].shard)
    && (forall i :: 0 <= i < |asked| && asked[i].SealRequest? ==> asked[i].shard in shards)
  }

  /** The shard records are those of the first `n` requests. */
  ghost predicate ShardsAre(asked: seq<Request>, n: nat, shards: map<ShardId, Shard>) {
    && (forall i :: 0 <= i < n && i < |asked| && asked[i].CreateRequest? ==> asked[i].shard in shards)
    && (forall sh :: sh in shards ==>
          && Among(asked, n, CreateRequest(sh, shards[sh].slot))
          && (shards[sh].sealed <==> Among(asked, n, SealRequest(sh))))
  }

  ghost predicate ShardsFollow(s: Node, h: History) {
    h.done <= h.high <= |h.asked| && ShardsAsked(h.asked, s.shards) && ShardsAre(h.asked, h.high, s.shards)
  }

  /** Moving a shard to another chunk does not show here. */
  ghost predicate SameButChunk(a: map<ShardId, Shard>, b: map<ShardId, Shard>) {
    && a.Keys == b.Keys
    && (forall sh :: sh in a ==> sh in b && a[sh].slot == b[sh].slot && a[sh].sealed == b[sh].sealed)
  }

  lemma SameShardsFollow(s: Node, t: Node, h: History, h': History)
    requires ShardsFollow(s, h) && SameButChunk(s.shards, t.shards)
    requires h'.asked == h.asked && h'.high == h.high && h'.done <= h.high
    ensures ShardsFollow(t, h')
  {
    assert forall sh :: sh in t.shards ==> sh in s.shards;
  }

  lemma AmongMore(asked: seq<Request>, r: Request, n: nat, q: Request)
    requires n <= |asked|
    ensures Among(asked + [r], n, q) <==> Among(asked, n, q)
  {
    assert forall i :: 0 <= i < n ==> (asked + [r])[i] == asked[i];
    if Among(asked, n, q) {
      var i :| 0 <= i < n && i < |asked| && asked[i] == q;
      assert (asked + [r])[i] == q;
    }
  }

  lemma AmongNext(asked: seq<Request>, n: nat, q: Request)
    requires n < |asked|
    ensures Among(asked, n + 1, q) <==> Among(asked, n, q) || asked[n] == q
  {
  }

  lemma AskShards(asked: seq<Request>, n: nat, shards: map<ShardId, Shard>, r: Request)
    requires ShardsAre(asked, n, shards) && n <= |asked|
    ensures ShardsAre(asked + [r], n, shards)
  {
    forall sh | sh in shards
      ensures Among(asked + [r], n, CreateRequest(sh, shards[sh].slot))
        && (shards[sh].sealed <==> Among(asked + [r], n, SealRequest(sh)))
    {
      AmongMore(asked, r, n, CreateRequest(sh, shards[sh].slot));
      AmongMore(asked, r, n, SealRequest(sh));
    }
  }

  lemma AskAgain(s: Node, h: History, r: Request)
    requires LogFollows(s, h) && ShardsAsked(h.asked, s.shards)
    requires r.CreateRequest? ==>
      forall i :: 0 <= i < |s.log| && s.log[i].Create? ==> s.log[i].shard != r.shard
    requires r.SealRequest? ==> r.shard in s.shards
    ensures ShardsAsked(h.asked + [r], s.shards)
  {
    if r.CreateRequest? {
      forall i | 0 <= i < |h.asked| && h.asked[i].CreateRequest? ensures h.asked[i].shard != r.shard {
        assert Logs(s.log[i], h.asked[i]);
      }
    }
  }

  lemma ProposeShards(s: Node, c: ClientStep, h: History, r: Request)
    requires ClientEnabled(s, c) && c != ApplyStep && LogFollows(s, h) && ShardsFollow(s, h)
    requires After(h, Client(c)) == h.(asked := h.asked + [r])
    ensures ShardsFollow(ClientNext(s, c), After(h, Client(c)))
  {
    AskShards(h.asked, h.high, s.shards, r);
    assert (h.asked + [r])[|h.asked|] == r == After(h, Client(c)).asked[|h.asked|];
    AskAgain(s, h, r);
    match c
    case PutStep(_, _) =>
    case DelStep(_) =>
    case CreateStep(_, _, _) =>
    case SealStep(_, _) =>
  }

  /** Committing a create: its shard is new, so the record is the one asked for. */
  lemma CreateShards(asked: seq<Request>, n: nat, shards: map<ShardId, Shard>, sh: ShardId, a: Slot, c: Chunk)
    requires ShardsAsked(asked, shards) && ShardsAre(asked, n, shards) && n < |asked|
    requires asked[n] == CreateRequest(sh, a)
    ensures sh !in shards
    ensures ShardsAsked(asked, AddShard(shards, sh, a, c)) && ShardsAre(asked, n + 1, AddShard(shards, sh, a, c))
  {
    var after := AddShard(shards, sh, a, c);
    forall x | x in after
      ensures Among(asked, n + 1, CreateRequest(x, after[x].slot))
        && (after[x].sealed <==> Among(asked, n + 1, SealRequest(x)))
    {
      AmongNext(asked, n, CreateRequest(x, after[x].slot));
      AmongNext(asked, n, SealRequest(x));
    }
  }

  lemma SealShards(asked: seq<Request>, n: nat, shards: map<ShardId, Shard>, sh: ShardId)
    requires ShardsAsked(asked, shards) && ShardsAre(asked, n, shards) && n < |asked|
    requires asked[n] == SealRequest(sh)
    ensures ShardsAsked(asked, SealShard(shards, sh)) && ShardsAre(asked, n + 1, SealShard(shards, sh))
  {
    var after := SealShard(shards, sh);
    forall x | x in after
      ensures Among(asked, n + 1, CreateRequest(x, after[x].slot))
        && (after[x].sealed <==> Among(asked, n + 1, SealRequest(x)))
    {
      AmongNext(asked, n, CreateRequest(x, after[x].slot));
      AmongNext(asked, n, SealRequest(x));
    }
  }

  lemma BlobShards(asked: seq<Request>, n: nat, shards: map<ShardId, Shard>)
    requires ShardsAre(asked, n, shards) && n < |asked| && (asked[n].PutRequest? || asked[n].DelRequest?)
    ensures ShardsAre(asked, n + 1, shards)
  {
    forall x | x in shards
      ensures Among(asked, n + 1, CreateRequest(x, shards[x].slot))
        && (shards[x].sealed <==> Among(asked, n + 1, SealRequest(x)))
    {
      AmongNext(asked, n, CreateRequest(x, shards[x].slot));
      AmongNext(asked, n, SealRequest(x));
    }
  }

  /** What committing an operation does to the shard records. */
  function ShardsAfter(shards: map<ShardId, Shard>, op: Op): map<ShardId, Shard> {
    match op
    case Create(sh, a, c) => AddShard(shards, sh, a, c)
    case Seal(sh) => SealShard(shards, sh)
    case _ => shards
  }

  /** Committed for the first time. */
  lemma FirstCommit(asked: seq<Request>, n: nat, shards: map<ShardId, Shard>, op: Op)
    requires ShardsAsked(asked, shards) && ShardsAre(asked, n, shards) && n < |asked| && Logs(op, asked[n])
    ensures ShardsAsked(asked, ShardsAfter(shards, op)) && ShardsAre(asked, n + 1, ShardsAfter(shards, op))
  {
    match op
    case Create(sh, a, c) => CreateShards(asked, n, shards, sh, a, c);
    case Seal(sh) => SealShards(asked, n, shards, sh);
    case Put(_, _, _) => BlobShards(asked, n, shards);
    case Del(_) => BlobShards(asked, n, shards);
  }

  /** Replayed after a crash: the record is there already. */
  lemma ReplayCommit(asked: seq<Request>, n: nat, high: nat, shards: map<ShardId, Shard>, op: Op)
    requires ShardsAre(asked, high, shards) && n < high && n < |asked| && Logs(op, asked[n])
    ensures ShardsAfter(shards, op) == shards
  {
    if op.Seal? && op.shard in shards {
      assert Among(asked, high, SealRequest(op.shard));
      assert shards[op.shard].(sealed := true) == shards[op.shard];
    }
  }

  lemma ApplyBlobKeepsShards(s: Node)
    requires CanApply(s) && (s.log[s.applied].Put? || s.log[s.applied].Del?)
    ensures Apply(s).shards == s.shards
  {
  }

  lemma ApplyCreateShards(s: Node)
    requires CanApply(s) && s.log[s.applied].Create?
    ensures Apply(s).shards == ShardsAfter(s.shards, s.log[s.applied])
  {
  }

  lemma ApplySealShards(s: Node)
    requires CanApply(s) && s.log[s.applied].Seal?
    ensures Apply(s).shards == ShardsAfter(s.shards, s.log[s.applied])
  {
  }

  lemma ApplyShardsAfter(s: Node)
    requires CanApply(s)
    ensures Apply(s).shards == ShardsAfter(s.shards, s.log[s.applied])
  {
    var op := s.log[s.applied];
    if op.Create? {
      ApplyCreateShards(s);
    } else if op.Seal? {
      ApplySealShards(s);
    } else {
      ApplyBlobKeepsShards(s);
    }
  }

  /** Committed for the first time or replayed. */
  lemma CommitShards(h: History, s: Node, t: Node, op: Op)
    requires ShardsFollow(s, h) && h.done < |h.asked| && Logs(op, h.asked[h.done])
    requires t.shards == ShardsAfter(s.shards, op)
    ensures ShardsFollow(t, Committed(h))
  {
    if h.done == h.high {
      FirstCommit(h.asked, h.high, s.shards, op);
    } else {
      ReplayCommit(h.asked, h.done, h.high, s.shards, op);
    }
  }

  lemma ApplyShards(s: Node, t: Node, h: History)
    requires CanApply(s) && t == Apply(s) && LogFollows(s, h) && ShardsFollow(s, h)
    ensures ShardsFollow(t, Committed(h))
  {
    var op := s.log[s.applied];
    assert Logs(op, h.asked[h.done]);
    ApplyShardsAfter(s);
    CommitShards(h, s, t, op);
  }

  lemma HostShards(s: Node, e: HostStep)
    requires HostEnabled(s, e)
    ensures HostNext(s, e).shards == s.shards
  {
    match e
    case CheckpointStep =>
    case CrashStep =>
    case RecoverStep(_) =>
    case EndRecoveryStep =>
  }

  lemma CopyShards(s: Node, a: Slot, e: CopyStep)
    requires CopyEnabled(s, a, e)
    ensures CopyNext(s, a, e).shards == s.shards
  {
    match e
    case StartStep(_, _) =>
    case PurgeStep =>
    case QueryStep(_, _) =>
    case CopyBlobStep(_) =>
    case EndCopyStep =>
    case SweepStep(_) =>
    case FlushStep =>
    case FailStep =>
    case RecordStep =>
  }

  lemma MoveShards(s: Node, a: Slot, e: MoveStep)
    requires MoveEnabled(s, a, e)
    ensures SameButChunk(s.shards, MoveNext(s, a, e).shards)
  {
    match e
    case SwapStep(_) =>
    case MovePgStep =>
    case MoveShardStep(_) =>
    case EndShardsStep =>
    case FlushSwapStep =>
    case MoveReservedStep =>
    case DestroyStep =>
  }

  /** Requests that GC and host steps leave as they are. */
  lemma QuietHistory(h: History, e: Step)
    requires !e.Client? && h.saved <= h.done
    ensures After(h, e).asked == h.asked && After(h, e).high == h.high && After(h, e).done <= h.done
  {
  }

  function RequestOf(c: ClientStep): Request
    requires c != ApplyStep
  {
    match c
    case PutStep(k, d) => PutRequest(k, d)
    case DelStep(k) => DelRequest(k)
    case CreateStep(sh, a, _) => CreateRequest(sh, a)
    case SealStep(sh, _) => SealRequest(sh)
  }

  lemma StepShards(s: Node, e: Step, t: Node, h: History)
    requires Enabled(s, e) && t == Next(s, e) && LogFollows(s, h) && ShardsFollow(s, h) && h.saved <= h.done
    ensures ShardsFollow(t, After(h, e))
  {
    if e.Client? {
      if e.c == ApplyStep { ApplyShards(s, t, h); } else { ProposeShards(s, e.c, h, RequestOf(e.c)); }
    } else {
      QuietHistory(h, e);
      match e {
        case Host(x) => HostShards(s, x);
        case Collect(a, p) => CopyShards(s, a, p);
        case Move(a, m) => MoveShards(s, a, m);
      }
      SameShardsFollow(s, t, h, After(h, e));
    }
  }

  lemma {:induction false} RunShards(s: Node, steps: seq<Step>, h: History)
    requires Inv(s) && IsRun(s, steps) && LogFollows(s, h) && ShardsFollow(s, h)
    ensures ShardsFollow(RunOf(s, steps), HistoryOf(h, steps))
    decreases |steps|
  {
    if steps != [] {
      var t := Next(s, steps[0]);
      assert Cursors(s);
      StepInv(s, steps[0]);
      StepFollows(s, steps[0], h);
      StepShards(s, steps[0], t, h);
      RunShards(t, steps[1..], After(h, steps[0]));
    }
  }

  /** The shard records are those the clients asked for: a shard exists exactly
      when its create has been committed at some time, in the slot asked for, and
      is sealed exactly when its seal has been. A crash takes neither back. */
  lemma ShardsFollowRequests(s0: Node, steps: seq<Step>, sh: ShardId, a: Slot)
    requires Init(s0) && IsRun(s0, steps)
    ensures var s, h := RunOf(s0, steps), HistoryOf(NOTHING, steps);
      && (sh in s.shards && s.shards[sh].slot == a <==> Among(h.asked, h.high, CreateRequest(sh, a)))
      && (sh in s.shards && s.shards[sh].sealed <==> Among(h.asked, h.high, SealRequest(sh)))
  {
    InitInv(s0);
    RunShards(s0, steps, NOTHING);
    ShardRecord(HistoryOf(NOTHING, steps), RunOf(s0, steps), sh, a);
  }

  lemma ShardRecord(h: History, s: Node, sh: ShardId, a: Slot)
    requires ShardsFollow(s, h)
    ensures sh in s.shards && s.shards[sh].slot == a <==> Among(h.asked, h.high, CreateRequest(sh, a))
    ensures sh in s.shards && s.shards[sh].sealed <==> Among(h.asked, h.high, SealRequest(sh))
  {
    if Among(h.asked, h.high, CreateRequest(sh, a)) {
      var i :| 0 <= i < h.high && i < |h.asked| && h.asked[i] == CreateRequest(sh, a);
      var j :| 0 <= j < h.high && j < |h.asked| && h.asked[j] == CreateRequest(sh, s.shards[sh].slot);
    }
  }

  // ------------------------------------------------------------ jobs of tasks

  ghost predicate Launches(l: map<Slot, Launch>, a: Slot, j: Job) {
    a in l && l[a] == Launch(j.to, j.emergent)
  }

  /** Every task and every record moves to the chunk it was launched with, in the
      mode it was launched in. */
  ghost predicate JobsFollow(s: Node, h: History) {
    && (forall a :: a in s.tasks ==> Launches(h.launched, a, s.tasks[a].job))
    && (forall a :: a in s.recs ==> Launches(h.launched, a, s.recs[a]))
  }

  lemma ClientJobs(s: Node, c: ClientStep)
    requires ClientEnabled(s, c)
    ensures ClientNext(s, c).tasks == s.tasks && ClientNext(s, c).recs == s.recs
  {
    match c
    case PutStep(_, _) =>
    case DelStep(_) =>
    case CreateStep(_, _, _) =>
    case SealStep(_, _) =>
    case ApplyStep => ApplyJobs(s);
  }

  lemma ApplyJobs(s: Node)
    requires CanApply(s)
    ensures Apply(s).tasks == s.tasks && Apply(s).recs == s.recs
  {
    if s.log[s.applied].Put? || s.log[s.applied].Del? { ApplyBlobJobs(s); } else { ApplyShardJobs(s); }
  }

  lemma ApplyBlobJobs(s: Node)
    requires CanApply(s) && (s.log[s.applied].Put? || s.log[s.applied].Del?)
    ensures Apply(s).tasks == s.tasks && Apply(s).recs == s.recs
  {
  }

  lemma ApplyShardJobs(s: Node)
    requires CanApply(s) && (s.log[s.applied].Create? || s.log[s.applied].Seal?)
    ensures Apply(s).tasks == s.tasks && Apply(s).recs == s.recs
  {
  }

  lemma HostJobs(s: Node, e: HostStep, h: History)
    requires HostEnabled(s, e) && JobsFollow(s, h)
    ensures JobsFollow(HostNext(s, e), h)
  {
    match e
    case CheckpointStep =>
    case CrashStep =>
    case RecoverStep(_) =>
    case EndRecoveryStep =>
  }

  lemma CopyJobs(s: Node, a: Slot, e: CopyStep, h: History)
    requires CopyEnabled(s, a, e) && JobsFollow(s, h)
    ensures JobsFollow(CopyNext(s, a, e), After(h, Collect(a, e)))
  {
    match e
    case StartStep(_, _) =>
    case PurgeStep =>
    case QueryStep(_, _) =>
    case CopyBlobStep(_) =>
    case EndCopyStep =>
    case SweepStep(_) =>
    case FlushStep =>
    case FailStep =>
    case RecordStep =>
  }

  lemma MoveJobs(s: Node, a: Slot, e: MoveStep, h: History)
    requires MoveEnabled(s, a, e) && JobsFollow(s, h)
    ensures JobsFollow(MoveNext(s, a, e), After(h, Move(a, e)))
  {
    match e
    case SwapStep(_) =>
    case MovePgStep =>
    case MoveShardStep(_) =>
    case EndShardsStep =>
    case FlushSwapStep =>
    case MoveReservedStep =>
    case DestroyStep =>
  }

  lemma StepJobs(s: Node, e: Step, h: History)
    requires Enabled(s, e) && JobsFollow(s, h)
    ensures JobsFollow(Next(s, e), After(h, e))
  {
    match e
    case Client(c) => ClientJobs(s, c);
    case Host(x) => HostJobs(s, x, h);
    case Collect(a, p) => CopyJobs(s, a, p, h);
    case Move(a, m) => MoveJobs(s, a, m, h);
  }

  lemma {:induction false} RunJobs(s: Node, steps: seq<Step>, h: History)
    requires IsRun(s, steps) && JobsFollow(s, h)
    ensures JobsFollow(RunOf(s, steps), HistoryOf(h, steps))
    decreases |steps|
  {
    if steps != [] {
      StepJobs(s, steps[0], h);
      RunJobs(Next(s, steps[0]), steps[1..], After(h, steps[0]));
    }
  }

  /** Whatever happens in between, a task and the record it leaves for a redo move
      to the chunk and run in the mode their launch named. */
  lemma JobsFollowLaunches(s0: Node, steps: seq<Step>, a: Slot)
    requires Init(s0) && IsRun(s0, steps) && HasJob(RunOf(s0, steps), a)
    ensures Launches(HistoryOf(NOTHING, steps).launched, a, JobOf(RunOf(s0, steps), a))
  {
    RunJobs(s0, steps, NOTHING);
  }
}
