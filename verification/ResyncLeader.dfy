/** Leader side of baseline resync: the cursor of the PG blob iterator. */
module ResyncLeader {
  import opened Storage

  /** Logical offset of a snapshot object: PG meta is `Obj(0, 0)`, shard meta
      `Obj(s, 0)`, blob batches `Obj(s, 1)`, `Obj(s, 2)`, ...; `Last` is the end marker. */
  datatype ObjId = Obj(shard: nat, batch: nat) | Last

  const PG_META: ObjId := Obj(0, 0)

  /** A shard of the snapshot: its sequence number, its virtual chunk, the log
      position of its creation, and whether it is still open. */
  datatype ShardEntry = ShardEntry(id: ShardId, v: nat, lsn: nat, open: bool)

  /** A blob listed by the index; `live` is false for a tombstone. */
  datatype BlobEntry = BlobEntry(id: BlobId, live: bool)

  function LiveIds(blobs: seq<BlobEntry>): set<BlobId> {
    set b | b in blobs && b.live :: b.id
  }

  /** `blobs` is the list of the shard at `idx`; the next batch starts at `start`
      and the last one built held `count` entries. */
  datatype Leader = Leader(list: seq<ShardEntry>, cur: ObjId, idx: int, blobs: seq<BlobEntry>, start: nat, count: nat)

  function FreshLeader(list: seq<ShardEntry>): Leader {
    Leader(list, PG_META, -1, [], 0, 0)
  }

  predicate DistinctIds(list: seq<ShardEntry>) {
    && (forall i :: 0 <= i < |list| ==> list[i].id != 0)
    && (forall i, j :: 0 <= i < |list| && 0 <= j < |list| && list[i].id == list[j].id ==> i == j)
  }

  predicate LeaderOk(l: Leader) {
    && DistinctIds(l.list)
    && l.cur.Obj?
    && -1 <= l.idx < |l.list|
    && (l.cur.shard == 0 <==> l.idx == -1)
    && (l.idx >= 0 ==> l.list[l.idx].id == l.cur.shard)
    && (l.cur.batch == 0 ==> l.start == 0 && l.count == 0)
    && l.start + l.count <= |l.blobs|
  }

  function ExpectedNext(l: Leader): ObjId
    requires l.cur.Obj? && -1 <= l.idx < |l.list|
  {
    if l.start + l.count < |l.blobs| then Obj(l.cur.shard, l.cur.batch + 1)
    else if l.cur.batch == 0 && l.blobs == [] then Obj(l.cur.shard, l.cur.batch + 1)
    else if l.idx < |l.list| - 1 then Obj(l.list[l.idx + 1].id, 0)
    else Last
  }

  function Ids(list: seq<ShardEntry>): seq<ShardId> {
    seq(|list|, i requires 0 <= i < |list| => list[i].id)
  }

  /** Position of `id`, or the length of the list when it is not there. */
  function FindId(ids: seq<ShardId>, id: ShardId): (r: nat)
    ensures r <= |ids| && (r < |ids| ==> ids[r] == id)
    ensures forall j :: 0 <= j < r ==> ids[j] != id
  {
    if ids == [] || ids[0] == id then 0 else 1 + FindId(ids[1..], id)
  }

  lemma FirstFound(ids: seq<ShardId>, id: ShardId, i: nat)
    requires i < |ids| && ids[i] == id && forall j :: 0 <= j < i ==> ids[j] != id
    ensures FindId(ids, id) == i
  {
    assert ids[i] == id;
  }

  /** Whether the cursor accepts `id`, and what it becomes. */
  function MoveCursor(l: Leader, id: ObjId): (bool, Leader)
    requires LeaderOk(l)
  {
    if id == Last || id == l.cur then (true, l)
    else if l.cur.shard == 0 && id.shard != 0 && id.batch == 0 then
      var i := FindId(Ids(l.list), id.shard);
      if i < |l.list| then (true, l.(cur := id, idx := i, start := 0, count := 0)) else (false, l)
    else if id != ExpectedNext(l) then (false, l)
    else if l.cur.shard != id.shard then (true, l.(cur := id, idx := l.idx + 1, start := 0, count := 0))
    else (true, l.(cur := id, start := l.start + l.count, count := 0))
  }

  /** Back to the PG meta message. The blob list is kept: the source clears a local
      of the same name. */
  function ResetCursor(l: Leader): Leader {
    l.(cur := PG_META, idx := -1, start := 0, count := 0)
  }

  /** The live blobs of the batch that starts at `start`. */
  function BatchIds(l: Leader): set<BlobId>
    requires l.start + l.count <= |l.blobs|
  {
    LiveIds(l.blobs[l.start..l.start + l.count])
  }

  predicate IsLastBatch(l: Leader) {
    l.start + l.count == |l.blobs|
  }

  /** The cursor accepts the PG meta message and the start of every shard, at which it
      then stands; it accepts no batch. */
  ghost predicate StandsAtMeta(l: Leader) {
    && LeaderOk(l) && MoveCursor(l, PG_META) == (true, l)
    && (forall i: nat :: i < |l.list| ==> StartsShard(l, i))
    && (forall s: nat, b: nat :: s != 0 && b != 0 ==> !MoveCursor(l, Obj(s, b)).0)
  }

  ghost predicate StartsShard(l: Leader, i: nat)
    requires LeaderOk(l) && i < |l.list|
  {
    var (ok, t) := MoveCursor(l, Obj(l.list[i].id, 0));
    ok && t.cur == Obj(l.list[i].id, 0) && t.idx == i && t.start == 0 && t.count == 0
  }

  lemma ResetStands(l: Leader)
    requires LeaderOk(l)
    ensures StandsAtMeta(ResetCursor(l))
  {
    var t := ResetCursor(l);
    forall i: nat | i < |t.list| ensures StartsShard(t, i) {
      FirstFound(Ids(t.list), t.list[i].id, i);
    }
  }

  class PgBlobIterator {
    var list: seq<ShardEntry>
    var cur: ObjId
    var idx: int
    var blobs: seq<BlobEntry>
    var start: nat
    var count: nat

    ghost function View(): Leader reads this {
      Leader(list, cur, idx, blobs, start, count)
    }

    ghost predicate Valid() reads this {
      LeaderOk(View())
    }

    /** The shards known at `upto`, in (virtual chunk, lsn) order. */
    constructor (shards: seq<ShardEntry>, upto: nat)
      requires DistinctIds(shards)
      ensures Valid() && View() == FreshLeader(list)
      ensures SortedByChunk(list)
      ensures upto == 0 ==> list == []
      ensures upto != 0 ==> multiset(list) == multiset(Known(shards, upto))
    {
      cur, idx, blobs, start, count := PG_META, -1, [], 0, 0;
      if upto == 0 {
        list := [];
      } else {
        KnownDistinct(shards, upto);
        var sorted := SortShards(Known(shards, upto));
        SameIds(Known(shards, upto), sorted);
        list := sorted;
      }
    }

    method UpdateCursor(id: ObjId) returns (ok: bool)
      requires Valid()
      modifies this`cur, this`idx, this`start, this`count
      ensures Valid()
      ensures (ok, View()) == MoveCursor(old(View()), id)
    {
      if id == Last || id == cur { return true; }
      if cur.shard == 0 && id.shard != 0 && id.batch == 0 {
        var i := 0;
        while i < |list|
          invariant 0 <= i <= |list|
          invariant forall j :: 0 <= j < i ==> Ids(list)[j] != id.shard
        {
          if list[i].id == id.shard {
            FirstFound(Ids(list), id.shard, i);
            idx, start, count, cur := i, 0, 0, id;
            return true;
          }
          i := i + 1;
        }
        return false;
      }
      var next := ExpectedNext(Leader(list, cur, idx, blobs, start, count));
      if id != next { return false; }
      if cur.shard != next.shard {
        idx, start, count := idx + 1, 0, 0;
      } else {
        start, count := start + count, 0;
      }
      cur := id;
      return true;
    }

    /** Back to the PG meta message: from there the start of every shard is accepted,
        and no batch is. */
    method Reset()
      requires Valid()
      modifies this`cur, this`idx, this`start, this`count
      ensures Valid() && View() == ResetCursor(old(View())) && StandsAtMeta(View())
    {
      ResetStands(View());
      cur, idx, start, count := PG_META, -1, 0, 0;
    }
  }

  // -------------------------------------------------------- the shard list

  /** Shards created no later than the snapshot. */
  function Known(shards: seq<ShardEntry>, upto: nat): seq<ShardEntry> {
    if shards == [] then []
    else (if shards[0].lsn <= upto then [shards[0]] else []) + Known(shards[1..], upto)
  }

  predicate Before(a: ShardEntry, b: ShardEntry) {
    if a.v != b.v then a.v < b.v else a.lsn <= b.lsn
  }

  predicate SortedByChunk(list: seq<ShardEntry>) {
    forall i, j :: 0 <= i < j < |list| ==> Before(list[i], list[j])
  }

  lemma {:induction false} KnownDistinct(shards: seq<ShardEntry>, upto: nat)
    requires DistinctIds(shards)
    ensures DistinctIds(Known(shards, upto))
    ensures forall e :: e in Known(shards, upto) <==> e in shards && e.lsn <= upto
  {
    if shards != [] {
      var rest := shards[1..];
      assert DistinctIds(rest);
      KnownDistinct(rest, upto);
      assert forall e :: e in rest ==> e.id != shards[0].id;
      var all := Known(shards, upto);
      var head: seq<ShardEntry> := if shards[0].lsn <= upto then [shards[0]] else [];
      assert all == head + Known(rest, upto);
    }
  }

  lemma SameIds(a: seq<ShardEntry>, b: seq<ShardEntry>)
    requires DistinctIds(a) && multiset(a) == multiset(b)
    ensures DistinctIds(b)
  {
    forall i | 0 <= i < |b| ensures b[i].id != 0 {
      assert b[i] in multiset(b);
      assert b[i] in a;
    }
    forall i, j | 0 <= i < j < |b| ensures b[i].id != b[j].id {
      if b[i].id == b[j].id {
        assert b[i] in multiset(a) && b[j] in multiset(a);
        var p :| 0 <= p < |a| && a[p] == b[i];
        var q :| 0 <= q < |a| && a[q] == b[j];
        TwiceInSeq(b, i, j);
        OnceInSeq(a, p);
      }
    }
  }

  lemma TwiceInSeq(s: seq<ShardEntry>, i: nat, j: nat)
    requires i < j < |s| && s[i] == s[j]
    ensures multiset(s)[s[i]] >= 2
  {
    assert s == s[..i] + [s[i]] + s[i + 1..j] + [s[j]] + s[j + 1..];
  }

  lemma OnceInSeq(s: seq<ShardEntry>, p: nat)
    requires p < |s| && DistinctIds(s)
    ensures multiset(s)[s[p]] == 1
  {
    assert s == s[..p] + [s[p]] + s[p + 1..];
    assert s[p] !in s[..p] && s[p] !in s[p + 1..];
  }

  /** Sort by (virtual chunk, lsn). */
  method SortShards(shards: seq<ShardEntry>) returns (sorted: seq<ShardEntry>)
    ensures SortedByChunk(sorted) && multiset(sorted) == multiset(shards)
  {
    sorted := [];
    var n := 0;
    while n < |shards|
      invariant 0 <= n <= |shards|
      invariant SortedByChunk(sorted) && multiset(sorted) == multiset(shards[..n])
    {
      assert shards[..n + 1] == shards[..n] + [shards[n]];
      sorted := Insert(sorted, shards[n]);
      n := n + 1;
    }
    assert shards[..n] == shards;
  }

  method Insert(sorted: seq<ShardEntry>, e: ShardEntry) returns (r: seq<ShardEntry>)
    requires SortedByChunk(sorted)
    ensures SortedByChunk(r) && multiset(r) == multiset(sorted) + multiset{e}
  {
    var i := 0;
    while i < |sorted| && Before(sorted[i], e)
      invariant 0 <= i <= |sorted|
      invariant forall j :: 0 <= j < i ==> Before(sorted[j], e)
    {
      i := i + 1;
    }
    assert sorted == sorted[..i] + sorted[i..];
    r := sorted[..i] + [e] + sorted[i..];
  }

  /** No later shard of the list is in the chunk of shard `i`. */
  ghost predicate LastOfChunk(list: seq<ShardEntry>, i: int)
    requires 0 <= i < |list|
  {
    forall j :: i < j < |list| ==> list[j].v != list[i].v
  }

  ghost predicate OpenIsNewest(list: seq<ShardEntry>) {
    forall i, j :: 0 <= i < |list| && 0 <= j < |list| && list[i].open && i != j && list[j].v == list[i].v
      ==> list[j].lsn < list[i].lsn
  }

  ghost predicate OpenIsLast(list: seq<ShardEntry>) {
    forall i :: 0 <= i < |list| && list[i].open ==> LastOfChunk(list, i)
  }

  /** The sort puts an open shard after every sealed shard of its chunk. */
  lemma SortPutsOpenLast(list: seq<ShardEntry>)
    requires SortedByChunk(list) && OpenIsNewest(list)
    ensures OpenIsLast(list)
  {
    forall i, j | 0 <= i < j < |list| && list[i].open ensures list[j].v != list[i].v {
      assert Before(list[i], list[j]);
    }
  }
}
