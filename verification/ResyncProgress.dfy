/** A resync can always be finished, with the batches and the prefetch window of the
    real iterator: from every state of every run, a fresh iterator and exchanges
    without failures end it. An iterator that is not fresh may never get on: see
    `BlobBatches.ResendCanFail`. */
module ResyncProgress {
  import opened Storage
  import opened ResyncLeader
  import opened ResyncFollower
  import opened ResyncMachine
  import opened ResyncInvariant
  import opened ResyncSteps
  import opened ResyncTheorems
  import opened BlobBatches

  /** A resync and the leader's prefetch window: the blobs held and the bytes in flight. */
  datatype Serving = Serving(s: Sync, held: set<BlobId>, inflight: int)

  /** Batch size limit and blob sizes. */
  datatype Limits = Limits(max: nat, size: BlobId -> nat)

  function Sized(blobs: seq<BlobEntry>, m: Limits): (r: seq<Blob>)
    ensures |r| == |blobs|
  {
    seq(|blobs|, i requires 0 <= i < |blobs| => Blob(blobs[i].id, blobs[i].live, m.size(blobs[i].id)))
  }

  // ------------------------------------------------------- windowed exchanges

  /** The window after the prefetch that serves object `off` with the moved cursor `t`. */
  function Fetched(w: Serving, t: Leader, blobs: seq<BlobEntry>, m: Limits): (set<BlobId>, int)
    requires w.s.off.Obj? && (w.s.off.batch != 0 ==> t.start <= |t.blobs|)
  {
    if w.s.off.batch == 0 then Scan(Sized(blobs, m), 0, w.held, w.inflight, m.max)
    else Scan(Sized(t.blobs, m), t.start, w.held, w.inflight, m.max)
  }

  function EndOf(t: Leader, m: Limits): (r: nat)
    requires t.start <= |t.blobs|
    ensures t.start <= r <= |t.blobs|
  {
    BatchEnd(Sized(t.blobs, m), t.start, 0, m.max)
  }

  function BatchBlobs(t: Leader, m: Limits): set<BlobId>
    requires t.start <= |t.blobs|
  {
    LiveIn(Sized(t.blobs, m), t.start, EndOf(t, m))
  }

  function BatchBytes(t: Leader, m: Limits): nat
    requires t.start <= |t.blobs|
  {
    Bytes(Sized(t.blobs, m)[t.start..EndOf(t, m)])
  }

  /** The step is one of the protocol other than a message that is not sent, and a batch
      is the one the iterator builds: it ends where the size limit says and its live
      blobs have been prefetched. */
  ghost predicate CanServe(w: Serving, e: Step, m: Limits) {
    && Enabled(w.s, e) && !e.Unsent?
    && (e.Exchange? && w.s.off.shard != 0 && w.s.off.batch != 0 && MoveCursor(w.s.l, w.s.off).0 ==>
          var t := MoveCursor(w.s.l, w.s.off).1;
          t.start <= |t.blobs| && t.start + e.n == EndOf(t, m) && BatchBlobs(t, m) <= Fetched(w, t, e.blobs, m).0)
  }

  /** Exchanges and a fresh iterator; the steps of the follower leave the window alone. */
  ghost function Serve(w: Serving, e: Step, m: Limits): Serving
    requires CanServe(w, e, m)
  {
    var s := Next(w.s, e);
    if e.RestartLeader? then Serving(s, {}, 0)
    else if e.Exchange? && w.s.off.shard != 0 && MoveCursor(w.s.l, w.s.off).0 then
      var t := MoveCursor(w.s.l, w.s.off).1;
      if w.s.off.batch == 0 then
        var (held, inflight) := Fetched(w, t, e.blobs, m);
        Serving(s, held, inflight)
      else
        var (held, inflight) := Fetched(w, t, e.blobs, m);
        Serving(s, held - BatchBlobs(t, m), inflight - BatchBytes(t, m))
    else Serving(s, w.held, w.inflight)
  }

  ghost predicate Serves(run: seq<Step>, w: Serving, m: Limits)
    decreases |run|
  {
    run == [] || (CanServe(w, run[0], m) && Serves(run[1..], Serve(w, run[0], m), m))
  }

  ghost function After(run: seq<Step>, w: Serving, m: Limits): Serving
    requires Serves(run, w, m)
    decreases |run|
  {
    if run == [] then w else After(run[1..], Serve(w, run[0], m), m)
  }

  /** A windowed run is a run. */
  lemma {:induction false} ServesIsRun(run: seq<Step>, w: Serving, m: Limits)
    requires Serves(run, w, m)
    ensures IsRun(run, w.s) && RunOf(run, w.s) == After(run, w, m).s
    decreases |run|
  {
    if run != [] { ServesIsRun(run[1..], Serve(w, run[0], m), m); }
  }

  // ---------------------------------------------------- undisturbed exchanges

  /** What the leader's index gives for each shard; no blob twice. */
  ghost predicate Gives(s: Sync, lists: map<ShardId, seq<BlobEntry>>, m: Limits) {
    forall i :: 0 <= i < |s.l.list| ==> GivesFor(s.base, s.listed, lists, s.l.list[i].id, m)
  }

  ghost predicate GivesFor(base: map<ShardId, set<BlobId>>, listed: map<ShardId, set<BlobId>>,
                           lists: map<ShardId, seq<BlobEntry>>, id: ShardId, m: Limits)
  {
    id in lists && Listing(base, listed, id, lists[id]) && DistinctBlobs(Sized(lists[id], m))
  }

  /** The window of an iterator none of whose batches was asked for twice: empty
      between shards, and inside a shard it starts where the next batch does. */
  ghost predicate InStep(w: Serving, lists: map<ShardId, seq<BlobEntry>>, m: Limits) {
    Inv(w.s) && Gives(w.s, lists, m) && WindowFits(w.s.l, w.s.off, w.held, w.inflight, lists, m)
  }

  ghost predicate WindowFits(l: Leader, off: ObjId, held: set<BlobId>, inflight: int,
                             lists: map<ShardId, seq<BlobEntry>>,
                             m: Limits)
  {
    && (off.Obj? && off.batch == 0 ==> held == {} && inflight == 0 && (off.shard == 0 ==> l.cur == PG_META))
    && (off.Obj? && off.batch != 0 ==>
          && l.cur != off && off.shard in lists && l.blobs == lists[off.shard]
          && HasWindow(Sized(l.blobs, m), l.start + l.count, held, inflight))
  }

  /** An exchange that keeps the window in step. */
  ghost predicate ServesOn(w: Serving, e: Step, v: Serving, lists: map<ShardId, seq<BlobEntry>>, m: Limits) {
    && e.Exchange? && CanServe(w, e, m) && v == Serve(w, e, m) && v.s.l.list == w.s.l.list
    && WindowFits(v.s.l, v.s.off, v.held, v.inflight, lists, m) && Closer(v.s, w.s)
  }

  lemma StaysInStep(w: Serving, e: Step, v: Serving, lists: map<ShardId, seq<BlobEntry>>, m: Limits)
    requires InStep(w, lists, m) && ServesOn(w, e, v, lists, m)
    ensures InStep(v, lists, m)
  {
    StepInv(w.s, e);
    forall i | 0 <= i < |v.s.l.list| ensures GivesFor(v.s.base, v.s.listed, lists, v.s.l.list[i].id, m) {
      assert GivesFor(w.s.base, w.s.listed, lists, w.s.l.list[i].id, m);
    }
  }

  ghost predicate HasWindow(list: seq<Blob>, at: nat, held: set<BlobId>, inflight: int) {
    exists v: nat :: Window(list, at, v, held, inflight)
  }

  /** Some list of exactly the blobs in `ids`, each once. */
  ghost function ListOf(ids: set<BlobId>): (r: seq<BlobEntry>)
    ensures LiveIds(r) == ids && forall i, j :: 0 <= i < j < |r| ==> r[i].id != r[j].id
    ensures forall i :: 0 <= i < |r| ==> r[i].id in ids
    decreases |ids|
  {
    if ids == {} then []
    else
      var b :| b in ids;
      var rest := ListOf(ids - {b});
      OneMore(rest, b);
      rest + [BlobEntry(b, true)]
  }

  lemma OneMore(rest: seq<BlobEntry>, b: BlobId)
    ensures LiveIds(rest + [BlobEntry(b, true)]) == LiveIds(rest) + {b}
  {
    var all := rest + [BlobEntry(b, true)];
    forall x ensures x in LiveIds(all) <==> x in LiveIds(rest) || x == b {
      assert all[|rest|] == BlobEntry(b, true);
      assert forall e :: e in rest ==> e in all;
    }
  }

  /** There is always an answer the index may give. */
  lemma SomeLists(s: Sync, m: Limits) returns (lists: map<ShardId, seq<BlobEntry>>)
    requires Inv(s)
    ensures Gives(s, lists, m)
  {
    lists := map id | id in s.base :: ListOf(s.base[id]);
    forall i | 0 <= i < |s.l.list| ensures GivesFor(s.base, s.listed, lists, s.l.list[i].id, m) {
    }
  }

  /** Everything succeeds. */
  function AllGood(written: set<BlobId>): Outcome {
    Outcome(true, true, true, written)
  }

  /** The next exchange when nothing fails. */
  ghost function Onward(s: Sync, lists: map<ShardId, seq<BlobEntry>>, m: Limits): Step
    requires Inv(s) && s.off.Obj?
  {
    if s.off.shard == 0 then Exchange([], 0, AllGood({}), false)
    else if s.off.batch
      == 0 then Exchange(if s.off.shard in lists then lists[s.off.shard] else [], 0, AllGood({}), false)
    else
      var t := MoveCursor(s.l, s.off).1;
      MoveKeepsOk(s.l, s.off);
      Exchange([], EndOf(t, m) - t.start, AllGood(LiveIds(t.blobs)), false)
  }

  // ------------------------------------------------------------- the measure

  function ShardsLeft(s: Sync): nat {
    if s.off.Last? then 0
    else if s.off.shard == 0 then |s.l.list| + 1
    else |s.l.list| - FindId(Ids(s.l.list), s.off.shard)
  }

  function BlobsLeft(s: Sync): int {
    if s.off.Obj? && s.off.batch == 0 then 1 + |s.l.blobs| else |s.l.blobs| - s.l.start - s.l.count
  }

  /** Fewer shards, or the first batch of the shard, or fewer blobs of it. */
  ghost predicate Closer(t: Sync, s: Sync) {
    || ShardsLeft(t) < ShardsLeft(s)
    || (ShardsLeft(t) == ShardsLeft(s) && s.off.Obj? && t.off.Obj? && t.off.batch != 0
        && (s.off.batch == 0 || (s.off.batch != 0 && 0 <= BlobsLeft(t) < BlobsLeft(s))))
  }

  // ---------------------------------------------------------------- the steps

  lemma OnwardEnabled(s: Sync, lists: map<ShardId, seq<BlobEntry>>, m: Limits)
    requires Inv(s) && s.off.Obj? && Gives(s, lists, m)
    ensures Enabled(s, Onward(s, lists, m))
  {
    MessagesAreHandled(s);
    MoveKeepsOk(s.l, s.off);
    if s.off.shard != 0 {
      TurnIndex(s);
      var i := FindId(Ids(s.l.list), s.off.shard);
      assert s.l.list[i].id == s.off.shard;
      assert GivesFor(s.base, s.listed, lists, s.l.list[i].id, m);
    }
  }

  /** The PG meta message moves the follower on to a shard or to the end. */
  lemma MetaLeaves(s: Sync, e: Step)
    requires Inv(s) && s.off == PG_META && s.l.cur == PG_META && Enabled(s, e)
    requires e == Exchange([], 0, AllGood({}), false)
    ensures Next(s, e).off != PG_META && Next(s, e).l == s.l && (Next(s, e).off.Obj? ==> Next(s, e).off.batch == 0)
  {
    var ids := Ids(s.l.list);
    if Matching(s.lsn, s.f.ctx) && s.f.ctx.cursor.At? {
      assert s.l.list[FindId(ids, s.f.ctx.cursor.id)].id == s.f.ctx.cursor.id;
    }
    if ids != [] { assert ids[0] == s.l.list[0].id; }
  }

  lemma MetaServes(w: Serving, lists: map<ShardId, seq<BlobEntry>>, m: Limits, e: Step)
    requires InStep(w, lists, m) && w.s.off.Obj? && w.s.off.shard == 0 && e == Onward(w.s, lists, m)
    ensures CanServe(w, e, m) && ServesOn(w, e, Serve(w, e, m), lists, m)
  {
    OnwardEnabled(w.s, lists, m);
    MetaLeaves(w.s, e);
    StepInv(w.s, e);
    var t := Serve(w, e, m).s;
    if t.off.Obj? && t.off.shard != 0 { TurnIndex(t); }
  }

  lemma ShardNext(s: Sync, e: Step, blobs: seq<BlobEntry>)
    requires Inv(s) && s.off.Obj? && s.off.shard != 0 && s.off.batch == 0 && Enabled(s, e)
    requires e == Exchange(blobs, 0, AllGood({}), false)
    ensures Next(s, e).off == Obj(s.off.shard, 1) && Next(s, e).l.cur == s.off && Next(s, e).l.blobs == blobs
    ensures Next(s, e).l.start == 0 && Next(s, e).l.count == 0 && Next(s, e).l.list == s.l.list
  {
    Accepted(s);
    MessagesAreHandled(s);
    TurnIndex(s);
    ServedOk(s, blobs, 0);
  }

  lemma ShardServes(w: Serving, lists: map<ShardId, seq<BlobEntry>>, m: Limits, e: Step)
    requires InStep(w, lists, m) && w.s.off.Obj? && w.s.off.shard != 0 && w.s.off.batch == 0
    requires e == Onward(w.s, lists, m)
    ensures CanServe(w, e, m) && ServesOn(w, e, Serve(w, e, m), lists, m)
  {
    var id := w.s.off.shard;
    OnwardEnabled(w.s, lists, m);
    TurnIndex(w.s);
    assert w.s.l.list[FindId(Ids(w.s.l.list), id)].id == id;
    assert GivesFor(w.s.base, w.s.listed, lists, id, m);
    Accepted(w.s);
    ShardNext(w.s, e, lists[id]);
    FirstWindow(Sized(lists[id], m), m.max);
  }

  lemma FirstWindow(list: seq<Blob>, max: nat)
    requires DistinctBlobs(list)
    ensures HasWindow(list, 0, Scan(list, 0, {}, 0, max).0, Scan(list, 0, {}, 0, max).1)
  {
    assert Window(list, 0, 0, {}, 0);
    var v := ScanWindow(list, 0, 0, 0, {}, 0, max);
  }

  /** The window at a batch, after the prefetch, holds the batch; what is left when
      the batch is taken is the window of the next one. */
  lemma NextWindow(list: seq<Blob>, at: nat, held: set<BlobId>, inflight: int, max: nat, end: nat)
    requires DistinctBlobs(list) && at <= |list| && HasWindow(list, at, held, inflight)
    requires end == BatchEnd(list, at, 0, max)
    ensures var (h, f) := Scan(list, at, held, inflight, max);
      && LiveIn(list, at, end) <= h && HasWindow(list, end, h - LiveIn(list, at, end), f - Bytes(list[at..end]))
      && (end == |list| ==> h - LiveIn(list, at, end) == {} && f - Bytes(list[at..end]) == 0)
  {
    var w0 :| Window(list, at, w0, held, inflight);
    var v := ScanWindow(list, at, at, w0, held, inflight, max);
    var h, f := Scan(list, at, held, inflight, max).0, Scan(list, at, held, inflight, max).1;
    WindowCovers(list, at, 0, v, h, f, max);
    Shrunk(list, at, end, v, h, f);
    assert Window(list, end, v, h - LiveIn(list, at, end), f - Bytes(list[at..end]));
    if end == |list| { assert list[end..v] == []; }
  }

  lemma BatchMoves(list: seq<Blob>, at: nat, max: nat)
    requires at < |list| && max > 0
    ensures BatchEnd(list, at, 0, max) > at
  {
    assert BatchEnd(list, at, 0, max) == BatchEnd(list, at + 1, if list[at].live then list[at].size else 0, max);
  }

  /** The cursor moves to the next batch. */
  lemma BatchMoved(s: Sync, t: Leader)
    requires Inv(s) && s.off.Obj? && s.off.shard != 0 && s.off.batch != 0 && s.l.cur != s.off
    requires t == MoveCursor(s.l, s.off).1
    ensures MoveCursor(s.l, s.off).0 && t == s.l.(cur := s.off, start := s.l.start + s.l.count, count := 0)
    ensures LeaderOk(t)
    ensures 0 <= s.l.idx < |s.l.list| && s.l.list[s.l.idx].id == s.off.shard
  {
    Accepted(s);
    MoveKeepsOk(s.l, s.off);
  }

  /** A batch all of whose blobs are written moves the follower on. */
  lemma BatchNext(s: Sync, e: Step, t: Leader, n: nat)
    requires Inv(s) && s.off.Obj? && s.off.shard != 0 && s.off.batch != 0 && s.l.cur != s.off
    requires t == MoveCursor(s.l, s.off).1
    requires Enabled(s, e) && e == Exchange([], n, AllGood(LiveIds(t.blobs)), false) && t.start + n <= |t.blobs|
    ensures Next(s, e).l == t.(count := n)
    ensures Next(s, e).off == if t.start + n == |t.blobs| then OffsetFor(NextShard(Ids(s.l.list), At(s.off.shard)))
                              else Obj(s.off.shard, s.off.batch + 1)
  {
    BatchMoved(s, t);
    MessagesAreHandled(s);
    ServedOk(s, [], n);
    var l := t.(count := n);
    LiveSplit(l.blobs, l.start, l.start + l.count);
    var missing := NewBlobs(s.f.index, s.off.shard, BatchIds(l));
    assert LiveIds(t.blobs) * missing == missing;
  }

  /** The next batch can be built, and leaves the window of the batch after it. */
  lemma BatchBuilt(w: Serving, lists: map<ShardId, seq<BlobEntry>>, m: Limits, e: Step, t: Leader)
    requires InStep(w, lists, m) && w.s.off.Obj? && w.s.off.shard != 0 && w.s.off.batch != 0
    requires e == Onward(w.s, lists, m)
    requires t == MoveCursor(w.s.l, w.s.off).1
    ensures t.start <= |t.blobs| && e == Exchange([], EndOf(t, m) - t.start, AllGood(LiveIds(t.blobs)), false)
    ensures CanServe(w, e, m) && Serve(w, e, m).s == Next(w.s, e)
    ensures HasWindow(Sized(t.blobs, m), EndOf(t, m), Serve(w, e, m).held, Serve(w, e, m).inflight)
    ensures EndOf(t, m) == |t.blobs| ==> Serve(w, e, m).held == {} && Serve(w, e, m).inflight == 0
  {
    BatchMoved(w.s, t);
    OnwardEnabled(w.s, lists, m);
    BatchHeld(w, lists, m, t);
  }

  /** The prefetch before the batch holds it, and what is left is the next window. */
  lemma BatchHeld(w: Serving, lists: map<ShardId, seq<BlobEntry>>, m: Limits, t: Leader)
    requires InStep(w, lists, m) && w.s.off.Obj? && w.s.off.shard != 0 && w.s.off.batch != 0
    requires t == MoveCursor(w.s.l, w.s.off).1
    ensures t.start <= |t.blobs| && BatchBlobs(t, m) <= Fetched(w, t, [], m).0
    ensures HasWindow(Sized(t.blobs, m), EndOf(t, m), Fetched(w, t, [], m).0 - BatchBlobs(t, m),
                      Fetched(w, t, [], m).1 - BatchBytes(t, m))
    ensures EndOf(t, m) == |t.blobs| ==>
      Fetched(w, t, [], m).0 - BatchBlobs(t, m) == {} && Fetched(w, t, [], m).1 - BatchBytes(t, m) == 0
  {
    var s := w.s;
    BatchMoved(s, t);
    assert GivesFor(s.base, s.listed, lists, s.l.list[s.l.idx].id, m);
    NextWindow(Sized(t.blobs, m), t.start, w.held, w.inflight, m.max, EndOf(t, m));
  }

  lemma BatchCloser(s: Sync, r: Sync, t: Leader, n: nat)
    requires MovedOn(s, r, t, n) && (t.start < |t.blobs| ==> n > 0)
    ensures Closer(r, s) && (t.start + n == |t.blobs| ==> r.off.Last? || (r.off.batch == 0 && r.off.shard != 0))
  {
    var i := s.l.idx;
    FindDistinct(s.l.list, i);
    if t.start + n == |t.blobs| {
      NextShardPos(s.l.list, i);
      if i + 1 < |s.l.list| { FindDistinct(s.l.list, i + 1); }
    }
  }

  lemma BatchFits(r: Leader, off: ObjId, next: ObjId, held: set<BlobId>, inflight: int,
                  lists: map<ShardId, seq<BlobEntry>>, m: Limits)
    requires off.Obj? && r.cur == off && off.shard in lists && r.blobs == lists[off.shard]
    requires HasWindow(Sized(r.blobs, m), r.start + r.count, held, inflight)
    requires next == Obj(off.shard, off.batch + 1)
      || (held == {} && inflight == 0 && (next.Last? || (next.batch == 0 && next.shard != 0)))
    ensures WindowFits(r, next, held, inflight, lists, m)
  {
  }

  /** The cursor and the follower after a batch of `n` entries served with cursor `t`. */
  ghost predicate MovedOn(s: Sync, r: Sync, t: Leader, n: nat) {
    && LeaderOk(s.l) && s.off.Obj? && s.off.shard != 0 && s.off.batch != 0
    && t == s.l.(cur := s.off, start := s.l.start + s.l.count, count := 0) && t.start + n <= |t.blobs|
    && 0 <= s.l.idx < |s.l.list| && s.l.list[s.l.idx].id == s.off.shard && r.l == t.(count := n)
    && r.off == if t.start + n == |t.blobs| then OffsetFor(NextShard(Ids(s.l.list), At(s.off.shard)))
                else Obj(s.off.shard, s.off.batch + 1)
  }

  lemma BatchMovesOn(s: Sync, lists: map<ShardId, seq<BlobEntry>>, m: Limits, e: Step, t: Leader)
    requires Inv(s) && s.off.Obj? && s.off.shard != 0 && s.off.batch != 0 && s.l.cur != s.off
    requires t == MoveCursor(s.l, s.off).1
    requires e == Onward(s, lists, m) && Enabled(s, e)
    ensures t.start <= |t.blobs| && MovedOn(s, Next(s, e), t, EndOf(t, m) - t.start)
  {
    BatchMoved(s, t);
    BatchNext(s, e, t, EndOf(t, m) - t.start);
  }

  lemma BatchOn(w: Serving, e: Step, v: Serving, t: Leader, end: nat, lists: map<ShardId, seq<BlobEntry>>, m: Limits)
    requires e.Exchange? && CanServe(w, e, m) && v == Serve(w, e, m)
    requires t.start <= end && MovedOn(w.s, v.s, t, end - t.start)
    requires w.s.off.shard in lists && t.blobs == lists[w.s.off.shard] && (t.start < |t.blobs| ==> end > t.start)
    requires HasWindow(Sized(t.blobs, m), end, v.held, v.inflight)
    requires end == |t.blobs| ==> v.held == {} && v.inflight == 0
    ensures ServesOn(w, e, v, lists, m)
  {
    BatchCloser(w.s, v.s, t, end - t.start);
    assert v.s.l.start + v.s.l.count == end;
    BatchFits(v.s.l, w.s.off, v.s.off, v.held, v.inflight, lists, m);
  }

  lemma BatchServes(w: Serving, lists: map<ShardId, seq<BlobEntry>>, m: Limits, e: Step)
    requires InStep(w, lists, m) && w.s.off.Obj? && w.s.off.shard != 0 && w.s.off.batch != 0
    requires e == Onward(w.s, lists, m)
    requires m.max > 0
    ensures CanServe(w, e, m) && ServesOn(w, e, Serve(w, e, m), lists, m)
  {
    var t := MoveCursor(w.s.l, w.s.off).1;
    BatchBuilt(w, lists, m, e, t);
    BatchMovesOn(w.s, lists, m, e, t);
    if t.start < |t.blobs| { BatchMoves(Sized(t.blobs, m), t.start, m.max); }
    BatchOn(w, e, Serve(w, e, m), t, EndOf(t, m), lists, m);
  }

  // ---------------------------------------------------------------- the result

  ghost predicate Undisturbed(run: seq<Step>) {
    forall e :: e in run ==> e.Exchange? && !e.lost
  }

  /** Undisturbed exchanges with the blob lists of any index finish the resync. */
  lemma {:induction false} FreshFinishes(w: Serving, lists: map<ShardId, seq<BlobEntry>>, m: Limits)
    returns (run: seq<Step>)
    requires InStep(w, lists, m) && m.max > 0
    ensures Serves(run, w, m) && After(run, w, m).s.off == Last && Undisturbed(run)
    decreases ShardsLeft(w.s), w.s.off.Obj? && w.s.off.batch == 0,
      if w.s.off.Obj? && w.s.off.batch != 0 then BlobsLeft(w.s) else 0
  {
    if w.s.off.Last? {
      run := [];
    } else {
      var e := Onward(w.s, lists, m);
      if w.s.off.shard == 0 {
        MetaServes(w, lists, m, e);
      } else if w.s.off.batch == 0 {
        ShardServes(w, lists, m, e);
      } else {
        BatchServes(w, lists, m, e);
      }
      StaysInStep(w, e, Serve(w, e, m), lists, m);
      var rest := FreshFinishes(Serve(w, e, m), lists, m);
      run := [e] + rest;
      assert run[1..] == rest;
    }
  }

  /** From every state, whatever the old iterator has prefetched: a fresh iterator,
      then exchanges without failures, finish the resync. The index may list the
      blobs of a shard in any way, and the sizes and the limit are any. */
  lemma ResyncCanFinish(w: Serving, lists: map<ShardId, seq<BlobEntry>>, m: Limits) returns (run: seq<Step>)
    requires Inv(w.s) && Gives(w.s, lists, m) && m.max > 0
    ensures Serves(run, w, m) && After(run, w, m).s.off == Last
    ensures run != [] && run[0] == RestartLeader(w.s.l.list) && Undisturbed(run[1..])
    ensures IsRun(run, w.s) && RunOf(run, w.s).off == Last
  {
    var e := RestartLeader(w.s.l.list);
    RestartLeaderInv(w.s, w.s.l.list);
    var rest := FreshFinishes(Serve(w, e, m), lists, m);
    run := [e] + rest;
    assert run[1..] == rest;
    ServesIsRun(run, w, m);
  }
}
