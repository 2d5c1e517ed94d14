/** Prefetching and batching the blobs of one shard on the leader of a resync. */
module BlobBatches {
  import opened Storage

  /** A listed blob; `live` is false for a tombstone, `size` is its blocks in bytes. */
  datatype Blob = Blob(id: BlobId, live: bool, size: nat)

  ghost predicate DistinctBlobs(list: seq<Blob>) {
    forall i, j :: 0 <= i < |list| && 0 <= j < |list| && list[i].id == list[j].id ==> i == j
  }

  /** The live blobs, in order. */
  function LiveSeq(list: seq<Blob>): seq<BlobId> {
    if list == [] then []
    else (if list[0].live then [list[0].id] else []) + LiveSeq(list[1..])
  }

  function Bytes(list: seq<Blob>): nat {
    if list == [] then 0 else (if list[0].live then list[0].size else 0) + Bytes(list[1..])
  }

  function LiveIn(list: seq<Blob>, from: nat, to: nat): set<BlobId>
    requires from <= to <= |list|
  {
    set i | from <= i < to && list[i].live :: list[i].id
  }

  lemma {:induction false} LiveSeqConcat(a: seq<Blob>, b: seq<Blob>)
    ensures LiveSeq(a + b) == LiveSeq(a) + LiveSeq(b) && Bytes(a + b) == Bytes(a) + Bytes(b)
  {
    if a == [] {
      assert a + b == b;
    } else {
      assert (a + b)[1..] == a[1..] + b;
      LiveSeqConcat(a[1..], b);
    }
  }

  lemma Extend(list: seq<Blob>, from: nat, to: nat)
    requires from <= to < |list|
    ensures Bytes(list[from..to + 1]) == Bytes(list[from..to]) + if list[to].live then list[to].size else 0
    ensures LiveSeq(list[from..to + 1]) == LiveSeq(list[from..to]) + if list[to].live then [list[to].id] else []
  {
    assert list[from..to + 1] == list[from..to] + [list[to]];
    LiveSeqConcat(list[from..to], [list[to]]);
  }

  lemma Chop(list: seq<Blob>, from: nat, to: nat)
    requires from < to <= |list|
    ensures Bytes(list[from..to]) == Bytes(list[from + 1..to]) + if list[from].live then list[from].size else 0
    ensures LiveSeq(list[from..to]) == (if list[from].live then [list[from].id] else []) + LiveSeq(list[from + 1..to])
  {
    assert list[from..to][1..] == list[from + 1..to];
  }

  // ---------------------------------------------------------- specification

  /** The prefetch scan from `idx`: what is held and how many bytes are in flight
      when it stops. */
  function Scan(list: seq<Blob>, idx: nat, held: set<BlobId>, inflight: int, max: nat): (set<BlobId>, int)
    requires idx <= |list|
    decreases |list| - idx
  {
    if inflight >= 2 * max || idx == |list| then (held, inflight)
    else if !list[idx].live || list[idx].id in held then Scan(list, idx + 1, held, inflight, max)
    else Scan(list, idx + 1, held + {list[idx].id}, inflight + list[idx].size, max)
  }

  /** Where a batch that starts at `idx`, with `total` bytes taken, ends. */
  function BatchEnd(list: seq<Blob>, idx: nat, total: nat, max: nat): (r: nat)
    requires idx <= |list|
    ensures idx <= r <= |list|
    decreases |list| - idx
  {
    if total >= max || idx == |list| then idx
    else BatchEnd(list, idx + 1, total + if list[idx].live then list[idx].size else 0, max)
  }

  /** Exactly the live blobs of list[start..w] are held. */
  ghost predicate Window(list: seq<Blob>, start: nat, w: nat, held: set<BlobId>, inflight: int) {
    start <= w <= |list| && held == LiveIn(list, start, w) && inflight == Bytes(list[start..w])
  }

  /** The scan extends the window until it spans two batches or the whole list. */
  lemma {:induction false} ScanWindow(list: seq<Blob>, start: nat, idx: nat, w: nat, held: set<BlobId>, inflight: int,
                                      max: nat)
      returns (v: nat)
    requires DistinctBlobs(list) && Window(list, start, w, held, inflight) && start <= idx <= w
    ensures w <= v
    ensures Window(list, start, v, Scan(list, idx, held, inflight, max).0, Scan(list, idx, held, inflight, max).1)
    ensures v == |list| || Scan(list, idx, held, inflight, max).1 >= 2 * max
    decreases |list| - idx
  {
    if inflight >= 2 * max || idx == |list| {
      v := w;
    } else if idx < w {
      assert list[idx].live ==> list[idx].id in held;
      v := ScanWindow(list, start, idx + 1, w, held, inflight, max);
    } else {
      Extend(list, start, w);
      if list[w].live {
        assert LiveIn(list, start, w + 1) == held + {list[w].id};
        assert list[w].id !in held;
        v := ScanWindow(list, start, idx + 1, w + 1, held + {list[w].id}, inflight + list[w].size, max);
      } else {
        assert LiveIn(list, start, w + 1) == held;
        v := ScanWindow(list, start, idx + 1, w + 1, held, inflight, max);
      }
    }
  }

  /** A full window covers the next batch, and shrinks to what the batch leaves. */
  lemma {:induction false} WindowCovers(list: seq<Blob>, idx: nat, total: nat, w: nat, held: set<BlobId>,
                                        inflight: int, max: nat)
    requires DistinctBlobs(list) && Window(list, idx, w, held, inflight)
    requires w == |list| || inflight + total >= 2 * max
    ensures BatchEnd(list, idx, total, max) <= w
    decreases |list| - idx
  {
    if total < max && idx < |list| {
      assert idx < w;
      Chop(list, idx, w);
      var size := if list[idx].live then list[idx].size else 0;
      WindowCovers(list, idx + 1, total + size, w, LiveIn(list, idx + 1, w), inflight - size, max);
    }
  }

  /** A batch is not the last one only if it is full. */
  lemma {:induction false} BatchFull(list: seq<Blob>, idx: nat, total: nat, max: nat)
    requires idx <= |list|
    ensures BatchEnd(list, idx, total, max) < |list| ==>
      total + Bytes(list[idx..BatchEnd(list, idx, total, max)]) >= max
    decreases |list| - idx
  {
    if total < max && idx < |list| {
      var size := if list[idx].live then list[idx].size else 0;
      BatchFull(list, idx + 1, total + size, max);
      Chop(list, idx, BatchEnd(list, idx, total, max));
    }
  }

  // ------------------------------------------------------------ the iterator

  class BatchBuilder {
    const list: seq<Blob>
    const max: nat
    var start: nat
    var count: nat
    var inflight: int
    var held: set<BlobId>

    constructor (list: seq<Blob>, max: nat)
      ensures this.list == list && this.max == max && start == 0 && count == 0 && inflight == 0 && held == {}
    {
      this.list, this.max, start, count, inflight, held := list, max, 0, 0, 0, {};
    }

    method Prefetch()
      requires start <= |list|
      modifies this`inflight, this`held
      ensures (held, inflight) == Scan(list, start, old(held), old(inflight), max)
    {
      var idx := start;
      while inflight < 2 * max && idx < |list|
        invariant start <= idx <= |list|
        invariant Scan(list, idx, held, inflight, max) == Scan(list, start, old(held), old(inflight), max)
        decreases |list| - idx
      {
        var b := list[idx];
        idx := idx + 1;
        if b.live && b.id !in held {
          inflight := inflight + b.size;
          held := held + {b.id};
        }
      }
    }

    /** Build the batch at `start`. It fails exactly when the prefetch has left out a
        live blob of the batch. */
    method CreateBatch() returns (ok: bool, ids: seq<BlobId>, last: bool)
      requires start <= |list| && DistinctBlobs(list)
      modifies this`inflight, this`held, this`count
      ensures ok <==>
        LiveIn(list, start, BatchEnd(list, start, 0, max)) <= Scan(list, start, old(held), old(inflight), max).0
      ensures ok ==> count == BatchEnd(list, start, 0, max) - start && ids == LiveSeq(list[start..start + count])
      ensures ok ==> (last <==> start + count == |list|)
      ensures ok ==> held == Scan(list, start, old(held), old(inflight), max).0 - LiveIn(list, start, start + count)
      ensures ok ==> inflight == Scan(list, start, old(held), old(inflight), max).1 - Bytes(list[start..start + count])
      ensures !ok ==> count == old(count)
    {
      Prefetch();
      var end, left, taken;
      ok, ids, end, left, taken := TakeBatch(list, start, held, max);
      inflight := inflight - taken;
      held := left;
      last := end == |list|;
      if ok { count := end - start; }
    }

    /** One batch from a window that starts at `start`: it never fails. */
    method NextBatch(ghost w: nat) returns (ids: seq<BlobId>, last: bool, ghost v: nat)
      requires start <= |list| && DistinctBlobs(list) && Window(list, start, w, held, inflight) && max > 0
      modifies this`inflight, this`held, this`count
      ensures start + count <= |list| && (last <==> start + count == |list|)
      ensures ids == LiveSeq(list[start..start + count])
      ensures !last ==> Bytes(list[start..start + count]) >= max
      ensures start < |list| ==> count > 0
      ensures Window(list, start + count, v, held, inflight)
    {
      v := ScanWindow(list, start, start, w, held, inflight, max);
      ghost var got, bytes := Scan(list, start, held, inflight, max).0, Scan(list, start, held, inflight, max).1;
      WindowCovers(list, start, 0, v, got, bytes, max);
      BatchFull(list, start, 0, max);
      var ok;
      ok, ids, last := CreateBatch();
      Shrunk(list, start, start + count, v, got, bytes);
    }

    /** Send the whole shard: shard meta, then batch after batch until the one that
        is flagged. */
    method SendShard() returns (batches: seq<seq<BlobId>>, flags: seq<bool>)
      requires start == 0 && count == 0 && inflight == 0 && held == {} && DistinctBlobs(list) && max > 0
      modifies this
      ensures Concat(batches) == LiveSeq(list)
      ensures |flags| == |batches| > 0 && forall i :: 0 <= i < |flags| ==> (flags[i] <==> i == |flags| - 1)
      ensures held == {} && inflight == 0
      ensures (|batches| - 1) * max <= Bytes(list) && |batches| <= Bytes(list) / max + 1
    {
      ghost var w := ScanWindow(list, 0, 0, 0, {}, 0, max);
      Prefetch();
      batches, flags := [], [];
      var last := false;
      while !last
        invariant start + count <= |list| && Window(list, start + count, w, held, inflight)
        invariant last ==> start + count == |list|
        invariant Sent(list, start + count, batches, flags, last, max)
        decreases |list| - start - count, !last
      {
        start := start + count;
        var ids;
        ids, last, w := NextBatch(w);
        SendOneMore(list, start, start + count, batches, flags, max, ids, last);
        batches, flags := batches + [ids], flags + [last];
      }
      AllSent(list, batches, flags, max);
      assert list[|list|..] == [];
    }
  }

  /** The whole list sent. */
  lemma AllSent(list: seq<Blob>, batches: seq<seq<BlobId>>, flags: seq<bool>, max: nat)
    requires Sent(list, |list|, batches, flags, true, max) && max > 0
    ensures Concat(batches) == LiveSeq(list) && |batches| > 0
    ensures (|batches| - 1) * max <= Bytes(list) && |batches| <= Bytes(list) / max + 1
  {
    assert list[..|list|] == list;
    BatchCount(|batches|, max, Bytes(list));
  }

  /** Take the live blobs of the batch at `start` out of those held. */
  method TakeBatch(list: seq<Blob>, start: nat, held: set<BlobId>, max: nat)
    returns (ok: bool, ids: seq<BlobId>, idx: nat, left: set<BlobId>, total: nat)
    requires start <= |list| && DistinctBlobs(list)
    ensures ok <==> LiveIn(list, start, BatchEnd(list, start, 0, max)) <= held
    ensures start <= idx <= BatchEnd(list, start, 0, max) && left == held - LiveIn(list, start, idx)
    ensures total == Bytes(list[start..idx])
    ensures ok ==> idx == BatchEnd(list, start, 0, max) && ids == LiveSeq(list[start..idx])
  {
    ghost var end := BatchEnd(list, start, 0, max);
    idx, ids, left, total := start, [], held, 0;
    while total < max && idx < |list|
      invariant start <= idx <= end <= |list| && BatchEnd(list, idx, total, max) == end
      invariant total == Bytes(list[start..idx]) && ids == LiveSeq(list[start..idx])
      invariant LiveIn(list, start, idx) <= held && left == held - LiveIn(list, start, idx)
      decreases |list| - idx
    {
      var b := list[idx];
      Extend(list, start, idx);
      if b.live {
        assert LiveIn(list, start, idx + 1) == LiveIn(list, start, idx) + {b.id};
        if b.id !in left {
          assert b.id in LiveIn(list, start, end) && b.id !in LiveIn(list, start, idx);
          return false, [], idx, left, total;
        }
        left, ids, total := left - {b.id}, ids + [b.id], total + b.size;
      } else {
        assert LiveIn(list, start, idx + 1) == LiveIn(list, start, idx);
      }
      idx := idx + 1;
    }
    return true, ids, idx, left, total;
  }

  /** What is known of the batches sent for list[..at]. */
  ghost predicate Sent(list: seq<Blob>, at: nat, batches: seq<seq<BlobId>>, flags: seq<bool>, last: bool, max: nat)
    requires at <= |list|
  {
    && |flags| == |batches| && (last ==> |flags| > 0)
    && (forall i :: 0 <= i < |flags| ==> (flags[i] <==> last && i == |flags| - 1))
    && Concat(batches) == LiveSeq(list[..at])
    && |batches| * max <= Bytes(list[..at]) + if last then max else 0
  }

  lemma SendOneMore(list: seq<Blob>, from: nat, to: nat, batches: seq<seq<BlobId>>, flags: seq<bool>, max: nat,
                    ids: seq<BlobId>, last: bool)
    requires from <= to <= |list| && Sent(list, from, batches, flags, false, max)
    requires ids == LiveSeq(list[from..to]) && (!last ==> Bytes(list[from..to]) >= max)
    ensures Sent(list, to, batches + [ids], flags + [last], last, max)
  {
    Joined(list, from, to);
    ConcatOne(batches, ids);
    assert (|batches| + 1) * max == |batches| * max + max;
  }

  lemma Shrunk(list: seq<Blob>, start: nat, end: nat, w: nat, held: set<BlobId>, inflight: int)
    requires DistinctBlobs(list) && Window(list, start, w, held, inflight) && start <= end <= w
    ensures Window(list, end, w, held - LiveIn(list, start, end), inflight - Bytes(list[start..end]))
  {
    assert list[start..w] == list[start..end] + list[end..w];
    LiveSeqConcat(list[start..end], list[end..w]);
    assert held - LiveIn(list, start, end) == LiveIn(list, end, w);
  }

  function Concat(batches: seq<seq<BlobId>>): seq<BlobId> {
    if batches == [] then [] else Concat(batches[..|batches| - 1]) + batches[|batches| - 1]
  }

  lemma ConcatOne(batches: seq<seq<BlobId>>, ids: seq<BlobId>)
    ensures Concat(batches + [ids]) == Concat(batches) + ids
  {
    assert (batches + [ids])[..|batches|] == batches;
  }

  lemma Joined(list: seq<Blob>, from: nat, to: nat)
    requires from <= to <= |list|
    ensures LiveSeq(list[..to]) == LiveSeq(list[..from]) + LiveSeq(list[from..to])
    ensures Bytes(list[..to]) == Bytes(list[..from]) + Bytes(list[from..to])
  {
    assert list[..to] == list[..from] + list[from..to];
    LiveSeqConcat(list[..from], list[from..to]);
  }

  lemma MulLess(a: nat, b: nat, m: nat)
    requires a * m < b * m
    ensures a < b
  {
  }

  lemma Quotient(k: nat, m: nat, bytes: nat)
    requires m > 0 && k * m <= bytes
    ensures k <= bytes / m
  {
    var q := bytes / m;
    assert bytes == q * m + bytes % m;
    assert (q + 1) * m == q * m + m;
    MulLess(k, q + 1, m);
  }

  lemma BatchCount(n: nat, max: nat, bytes: nat)
    requires max > 0 && n > 0 && n * max <= bytes + max
    ensures (n - 1) * max <= bytes && n <= bytes / max + 1
  {
    assert (n - 1) * max == n * max - max;
    Quotient(n - 1, max, bytes);
  }

  /** The 15-bit batch id is wide enough for a shard of up to 0x7FFE full batches. */
  lemma BatchIdFits(n: nat, max: nat, bytes: nat)
    requires max > 0 && n > 0 && (n - 1) * max <= bytes && bytes < 0x7FFF * max
    ensures n <= 0x7FFF
  {
    MulLess(n - 1, 0x7FFF, max);
  }

  // --------------------------------------------------------------- resending

  lemma {:induction false} ScanKeeps(list: seq<Blob>, idx: nat, held: set<BlobId>, inflight: int, max: nat)
    requires idx <= |list|
    ensures held <= Scan(list, idx, held, inflight, max).0
    ensures forall b :: b in Scan(list, idx, held, inflight, max).0 ==>
      b in held || exists k :: idx <= k < |list| && list[k].id == b
    decreases |list| - idx
  {
    if !(inflight >= 2 * max || idx == |list|) {
      if !list[idx].live || list[idx].id in held {
        ScanKeeps(list, idx + 1, held, inflight, max);
      } else {
        ScanKeeps(list, idx + 1, held + {list[idx].id}, inflight + list[idx].size, max);
      }
    }
  }

  /** A live blob not yet held is fetched again iff the bytes before it leave room. */
  lemma {:induction false} ScanHas(list: seq<Blob>, idx: nat, k: nat, held: set<BlobId>, inflight: int, max: nat)
    requires DistinctBlobs(list) && idx <= k < |list| && list[k].live && LiveIn(list, idx, k + 1) !! held
    ensures list[k].id in Scan(list, idx, held, inflight, max).0 <==> inflight + Bytes(list[idx..k]) < 2 * max
    decreases |list| - idx
  {
    if inflight >= 2 * max {
      assert list[k].id in LiveIn(list, idx, k + 1);
    } else if idx == k {
      assert list[k].id in LiveIn(list, idx, k + 1);
      ScanKeeps(list, idx + 1, held + {list[idx].id}, inflight + list[idx].size, max);
    } else {
      Chop(list, idx, k);
      if list[idx].live {
        assert list[idx].id in LiveIn(list, idx, k + 1);
        ScanHas(list, idx + 1, k, held + {list[idx].id}, inflight + list[idx].size, max);
      } else {
        ScanHas(list, idx + 1, k, held, inflight, max);
      }
    }
  }

  /** Bytes of the batch list[start..end] before its last live blob; 0 when there is none. */
  function BytesBeforeLast(list: seq<Blob>, start: nat, end: nat): nat
    requires start <= end <= |list|
    decreases end
  {
    if start == end then 0
    else if list[end - 1].live then Bytes(list[start..end - 1])
    else BytesBeforeLast(list, start, end - 1)
  }

  lemma {:induction false} LastLive(list: seq<Blob>, start: nat, end: nat) returns (k: nat)
    requires start <= end <= |list| && LiveIn(list, start, end) != {}
    ensures start <= k < end && list[k].live && BytesBeforeLast(list, start, end) == Bytes(list[start..k])
    ensures forall j :: k < j < end ==> !list[j].live
  {
    if list[end - 1].live {
      k := end - 1;
    } else {
      assert LiveIn(list, start, end) == LiveIn(list, start, end - 1);
      k := LastLive(list, start, end - 1);
    }
  }

  lemma BytesGrow(list: seq<Blob>, start: nat, i: nat, j: nat)
    requires start <= i <= j <= |list|
    ensures Bytes(list[start..i]) <= Bytes(list[start..j])
  {
    assert list[start..j] == list[start..i] + list[i..j];
    LiveSeqConcat(list[start..i], list[i..j]);
  }

  /** Building the batch list[start..end] a second time, after its first build left
      the window list[end..w], succeeds if and only if the batch is empty or the
      bytes still in flight plus those of the batch before its last blob leave room
      in two batches. */
  lemma ResendSucceeds(list: seq<Blob>, start: nat, w: nat, held: set<BlobId>, inflight: int, max: nat)
    requires start <= |list| && DistinctBlobs(list)
    requires Window(list, BatchEnd(list, start, 0, max), w, held, inflight)
    ensures LiveIn(list, start, BatchEnd(list, start, 0, max)) <= Scan(list, start, held, inflight, max).0
      <==> LiveIn(list, start, BatchEnd(list, start, 0, max)) == {}
           || inflight + BytesBeforeLast(list, start, BatchEnd(list, start, 0, max)) < 2 * max
  {
    var end := BatchEnd(list, start, 0, max);
    var got := Scan(list, start, held, inflight, max).0;
    assert LiveIn(list, start, end) !! held;
    if LiveIn(list, start, end) != {} {
      var k := LastLive(list, start, end);
      forall j | start <= j <= k && list[j].live
        ensures list[j].id in got <==> inflight + Bytes(list[start..j]) < 2 * max
      {
        assert LiveIn(list, start, j + 1) <= LiveIn(list, start, end);
        ScanHas(list, start, j, held, inflight, max);
      }
      assert list[k].id in LiveIn(list, start, end);
      forall j | start <= j < end && list[j].live && inflight + Bytes(list[start..k]) < 2 * max
        ensures list[j].id in got
      {
        BytesGrow(list, start, j, k);
      }
    }
  }

  /** With batches of 10 and blobs of 5, 5 and 100 bytes, the first batch cannot be
      built again once it has been built: the third blob alone fills the window. The
      attempt fails at the first blob and leaves the window as it was, so every later
      attempt of the same iterator fails too. */
  lemma ResendCanFail()
    ensures var list := [Blob(1, true, 5), Blob(2, true, 5), Blob(3, true, 100)];
            BatchEnd(list, 0, 0, 10) == 2 && Scan(list, 0, {}, 0, 10) == ({1, 2, 3}, 110)
            && Scan(list, 0, {3}, 100, 10) == ({3}, 100) && list[0].live && list[0].id !in {3}
            && !(LiveIn(list, 0, 2) <= Scan(list, 0, {3}, 100, 10).0)
  {
    var list := [Blob(1, true, 5), Blob(2, true, 5), Blob(3, true, 100)];
    assert BatchEnd(list, 2, 10, 10) == 2;
    assert BatchEnd(list, 1, 5, 10) == 2;
    assert {1, 2} + {3} == {1, 2, 3} && {1} + {2} == {1, 2} && {} + {1} == {1};
    assert Scan(list, 3, {1, 2} + {3}, 110, 10) == ({1, 2, 3}, 110);
    assert Scan(list, 2, {1} + {2}, 10, 10) == ({1, 2, 3}, 110);
    assert Scan(list, 1, {} + {1}, 5, 10) == ({1, 2, 3}, 110);
    assert Scan(list, 0, {3}, 100, 10) == ({3}, 100);
    assert list[0].id in LiveIn(list, 0, 2);
  }
}
