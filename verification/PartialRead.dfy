/** Blob layout on blocks, and the partial read that skips the header. */
module PartialRead {
  type Byte = b: int | 0 <= b < 256

  const HEADER: nat := 4096
  const IO_ALIGN: nat := 512
  const PAD_BUFFERS: nat := HEADER / IO_ALIGN

  /** What the header keeps for the client besides the size. */
  datatype Meta = Meta(key: seq<Byte>, objectOffset: nat)

  const NO_META: Meta := Meta([], 0)

  datatype Result = Ok(bytes: seq<Byte>, meta: Meta) | InvalidArg

  function RoundUp(n: nat, k: nat): (r: nat)
    requires k > 0
  {
    (n + k - 1) / k * k
  }

  // -------------------------------------------------------------- arithmetic

  lemma RoundUpBounds(n: nat, k: nat)
    requires k > 0
    ensures n <= RoundUp(n, k) < n + k
  {
    var q := (n + k - 1) / k;
    assert n + k - 1 == q * k + (n + k - 1) % k;
    assert RoundUp(n, k) == q * k;
  }

  lemma MulMono(a: nat, b: nat, k: nat)
    requires a <= b
    ensures a * k <= b * k
  {
  }

  lemma MulLess(a: nat, b: nat, k: nat)
    requires a * k < b * k
    ensures a < b
  {
  }

  lemma DivBounds(n: nat, k: nat)
    requires k > 0
    ensures n / k * k <= n < n / k * k + k
  {
    assert n == n / k * k + n % k;
  }

  // ------------------------------------------------------------------ layout

  /** A put appends the header block, the body rounded up to the I/O alignment with
      whatever the buffer holds, and zeros up to the block size. */
  function PadLen(size: nat, blk: nat): int
    requires blk > 0
  {
    RoundUp(HEADER + RoundUp(size, IO_ALIGN), blk) - (HEADER + RoundUp(size, IO_ALIGN))
  }

  /** The zero buffer for `pad` bytes: number pad / IO_ALIGN, of that many units plus one. */
  function PadBuffer(pad: nat): (nat, nat) {
    (pad / IO_ALIGN, IO_ALIGN * (pad / IO_ALIGN + 1))
  }

  /** The chosen zero buffer exists and is long enough, for every blob size and every
      block size up to the header's. */
  lemma PadFits(size: nat, blk: nat)
    requires 0 < blk <= HEADER
    ensures 0 <= PadLen(size, blk) < blk
    ensures PadBuffer(PadLen(size, blk)).0 < PAD_BUFFERS && PadLen(size, blk) <= PadBuffer(PadLen(size, blk)).1
  {
    RoundUpBounds(HEADER + RoundUp(size, IO_ALIGN), blk);
  }

  /** `stored` is what the put wrote for `body`: header, body, filler, to whole blocks. */
  ghost predicate Layout(stored: seq<Byte>, body: seq<Byte>, blk: nat) {
    blk > 0 && |stored| == RoundUp(HEADER + RoundUp(|body|, IO_ALIGN), blk)
    && HEADER + |body| <= |stored| && stored[HEADER..HEADER + |body|] == body
  }

  lemma LayoutRoom(size: nat, blk: nat)
    requires blk > 0
    ensures HEADER + size <= RoundUp(HEADER + RoundUp(size, IO_ALIGN), blk)
  {
    RoundUpBounds(size, IO_ALIGN);
    RoundUpBounds(HEADER + RoundUp(size, IO_ALIGN), blk);
  }

  function Zeros(n: nat): seq<Byte> { seq(n, _ => 0) }

  /** The bytes a put writes: header, body, the rest of the aligned body buffer, zeros. */
  function Written(header: seq<Byte>, body: seq<Byte>, rest: seq<Byte>, blk: nat): seq<Byte>
    requires 0 < blk <= HEADER
  {
    PadFits(|body|, blk);
    header + body + rest + Zeros(PadLen(|body|, blk))
  }

  /** They fill whole blocks and hold the body behind the header. */
  lemma WrittenLayout(header: seq<Byte>, body: seq<Byte>, rest: seq<Byte>, blk: nat)
    requires 0 < blk <= HEADER && |header| == HEADER && |body| + |rest| == RoundUp(|body|, IO_ALIGN)
    ensures Layout(Written(header, body, rest, blk), body, blk)
  {
    PadFits(|body|, blk);
    var stored := Written(header, body, rest, blk);
    assert stored == header + (body + (rest + Zeros(PadLen(|body|, blk))));
    assert stored[HEADER..HEADER + |body|] == body;
  }

  // ----------------------------------------------------------------- reading

  /** Blocks `base`, ..., `base + count - 1` of the chunk. */
  function ReadBlocks(chunk: seq<Byte>, blk: nat, base: nat, count: nat): seq<Byte>
    requires (base + count) * blk <= |chunk| && base * blk <= (base + count) * blk
  {
    chunk[base * blk..(base + count) * blk]
  }

  /** The full read: all blocks, then the range check against the blob size; the answer
      carries the user key and the object offset of the header. */
  function FullRead(stored: seq<Byte>, size: nat, meta: Meta, offset: nat, len: nat): Result
    requires HEADER + size <= |stored|
  {
    if offset + len > size then InvalidArg
    else Ok(stored[HEADER + offset..HEADER + offset + if len == 0 then size - offset else len], meta)
  }

  function StartBlk(blk: nat, offset: nat): nat
    requires blk > 0
  {
    (HEADER + offset) / blk
  }

  function EndBlk(blk: nat, offset: nat, len: nat): nat
    requires blk > 0
  {
    (HEADER + offset + len + blk - 1) / blk
  }

  function OffsetInBuf(blk: nat, offset: nat): int
    requires blk > 0
  {
    HEADER + offset - StartBlk(blk, offset) * blk
  }

  lemma BlockRange(blk: nat, offset: nat, len: nat)
    requires blk > 0
    ensures StartBlk(blk, offset) <= EndBlk(blk, offset, len)
    ensures 0 <= OffsetInBuf(blk, offset)
    ensures OffsetInBuf(blk, offset) + len <= (EndBlk(blk, offset, len) - StartBlk(blk, offset)) * blk
    ensures StartBlk(blk, offset) * blk <= EndBlk(blk, offset, len) * blk
  {
    var a, b := StartBlk(blk, offset), EndBlk(blk, offset, len);
    DivBounds(HEADER + offset, blk);
    RoundUpBounds(HEADER + offset + len, blk);
    assert RoundUp(HEADER + offset + len, blk) == b * blk;
    assert a * blk < (b + 1) * blk by { assert (b + 1) * blk == b * blk + blk; }
    MulLess(a, b + 1, blk);
    assert (b - a) * blk == b * blk - a * blk;
  }

  /** The blocks the partial read asks for are the blob's own if and only if the range
      ends within them. */
  lemma PartialStaysInside(blk: nat, count: nat, offset: nat, len: nat)
    requires blk > 0
    ensures EndBlk(blk, offset, len) <= count <==> HEADER + offset + len <= count * blk
  {
    var b := EndBlk(blk, offset, len);
    RoundUpBounds(HEADER + offset + len, blk);
    assert RoundUp(HEADER + offset + len, blk) == b * blk;
    if b <= count {
      MulMono(b, count, blk);
    } else {
      MulMono(count + 1, b, blk);
      assert (count + 1) * blk == count * blk + blk;
    }
  }

  /** The partial read of a blob at block `base`: no header, so no size check, no user key
      and no object offset. */
  function PartialReadAt(chunk: seq<Byte>, blk: nat, base: nat, offset: nat, len: nat): Result
    requires blk > 0 && (base + EndBlk(blk, offset, len)) * blk <= |chunk|
  {
    BlockRange(blk, offset, len);
    var a, b := StartBlk(blk, offset), EndBlk(blk, offset, len);
    MulMono(base + a, base + b, blk);
    var buf := ReadBlocks(chunk, blk, base + a, b - a);
    BufLength(blk, base, a, b);
    var at := OffsetInBuf(blk, offset);
    Ok(buf[at..at + len], NO_META)
  }

  lemma BufLength(blk: nat, base: nat, a: nat, b: nat)
    requires a <= b
    ensures (base + b) * blk - (base + a) * blk == (b - a) * blk
  {
  }

  /** The bytes of the partial read are the bytes of the blob's blocks at the requested
      place. */
  lemma PartialBytes(chunk: seq<Byte>, blk: nat, base: nat, count: nat, offset: nat, len: nat, stored: seq<Byte>)
    requires blk > 0 && (base + count) * blk <= |chunk| && base * blk <= (base + count) * blk
    requires stored == ReadBlocks(chunk, blk, base, count) && HEADER + offset + len <= count * blk
    ensures (base + EndBlk(blk, offset, len)) * blk <= |chunk| && |stored| == count * blk
    ensures PartialReadAt(chunk, blk, base, offset, len)
      == Ok(stored[HEADER + offset..HEADER + offset + len], NO_META)
  {
    var a, b := StartBlk(blk, offset), EndBlk(blk, offset, len);
    PartialStaysInside(blk, count, offset, len);
    BlockRange(blk, offset, len);
    MulMono(base + b, base + count, blk);
    MulMono(base + a, base + b, blk);
    BufLength(blk, base, 0, count);
    BufLength(blk, base, a, b);
    BufLength(blk, base, 0, a);
    var buf := ReadBlocks(chunk, blk, base + a, b - a);
    var at := OffsetInBuf(blk, offset);
    Slices(chunk, base * blk, (base + count) * blk, (base + a) * blk, (base + b) * blk, at, len);
    assert (base + a) * blk + at == base * blk + HEADER + offset;
  }

  /** A slice of a slice. */
  lemma Slices(chunk: seq<Byte>, lo: nat, hi: nat, from: nat, to: nat, at: nat, len: nat)
    requires lo <= from <= to <= hi <= |chunk| && from + at + len <= to
    ensures chunk[from..to][at..at + len] == chunk[lo..hi][from + at - lo..from + at + len - lo]
  {
    SliceOfSlice(chunk, from, to, at, at + len);
    SliceOfSlice(chunk, lo, hi, from + at - lo, from + at + len - lo);
  }

  lemma SliceOfSlice(s: seq<Byte>, lo: nat, hi: nat, x: nat, y: nat)
    requires lo <= hi <= |s| && x <= y <= hi - lo
    ensures s[lo..hi][x..y] == s[lo + x..lo + y]
  {
    var a, b := s[lo..hi][x..y], s[lo + x..lo + y];
    assert |a| == |b|;
    forall i | 0 <= i < |a| ensures a[i] == b[i] {
      assert s[lo..hi][x + i] == s[lo + x + i];
    }
  }

  // -------------------------------------------------------------- get blob

  /** When the partial path is taken: it skips at least one data block. */
  predicate TakesPartial(allow: bool, blk: nat, total: nat, offset: nat, len: nat) {
    allow && len > 0 && (offset >= blk || offset + len + blk <= total - HEADER)
  }

  /** A stored blob: `count` blocks at block `base` of a chunk. */
  ghost predicate StoredAt(chunk: seq<Byte>, blk: nat, base: nat, count: nat, body: seq<Byte>) {
    && blk > 0 && (base + count) * blk <= |chunk| && base * blk <= (base + count) * blk
    && Layout(ReadBlocks(chunk, blk, base, count), body, blk)
  }

  function GetBlob(chunk: seq<Byte>, blk: nat, base: nat, count: nat, size: nat, meta: Meta, allow: bool, offset: nat,
                   len: nat): Result
    requires blk > 0 && (base + count) * blk <= |chunk| && base * blk <= (base + count) * blk
    requires HEADER + size <= |ReadBlocks(chunk, blk, base, count)|
    requires TakesPartial(allow, blk, count * blk, offset, len) ==>
      (base + EndBlk(blk, offset, len)) * blk <= |chunk|
  {
    if TakesPartial(allow, blk, count * blk, offset, len) then PartialReadAt(chunk, blk, base, offset, len)
    else FullRead(ReadBlocks(chunk, blk, base, count), size, meta, offset, len)
  }

  /** Within the blob both reads succeed with the same bytes. */
  lemma PartialIsFull(chunk: seq<Byte>, blk: nat, base: nat, count: nat, body: seq<Byte>, meta: Meta, offset: nat,
                      len: nat)
    requires StoredAt(chunk, blk, base, count, body) && offset + len <= |body| && len > 0
    ensures (base + EndBlk(blk, offset, len)) * blk <= |chunk| && EndBlk(blk, offset, len) <= count
    ensures PartialReadAt(chunk, blk, base, offset, len) == Ok(body[offset..offset + len], NO_META)
    ensures FullRead(ReadBlocks(chunk, blk, base, count), |body|, meta, offset, len)
      == Ok(body[offset..offset + len], meta)
  {
    var stored := ReadBlocks(chunk, blk, base, count);
    BufLength(blk, base, 0, count);
    PartialBytes(chunk, blk, base, count, offset, len, stored);
    PartialStaysInside(blk, count, offset, len);
    assert stored[HEADER + offset..HEADER + offset + len] == stored[HEADER..HEADER + |body|][offset..offset + len];
  }

  /** What a get with verification returns, for every request: an error exactly when the
      range does not end within the blob; otherwise the bytes asked for, up to the end of
      the blob when the length is 0, with the user key and object offset of the put. */
  lemma GetReturns(chunk: seq<Byte>, blk: nat, base: nat, count: nat, body: seq<Byte>, meta: Meta, offset: nat,
                   len: nat)
    requires StoredAt(chunk, blk, base, count, body)
    ensures var r := GetBlob(chunk, blk, base, count, |body|, meta, false, offset, len);
      && (r == InvalidArg <==> offset + len > |body|)
      && (offset + len <= |body| ==> r == Ok(if len == 0 then body[offset..] else body[offset..offset + len], meta))
  {
    if offset + len <= |body| {
      BodyAt(ReadBlocks(chunk, blk, base, count), body, offset, if len == 0 then |body| - offset else len);
    }
  }

  lemma BodyAt(stored: seq<Byte>, body: seq<Byte>, offset: nat, n: nat)
    requires HEADER + |body| <= |stored| && stored[HEADER..HEADER + |body|] == body && offset + n <= |body|
    ensures stored[HEADER + offset..HEADER + offset + n] == body[offset..offset + n]
  {
    SliceOfSlice(stored, HEADER, HEADER + |body|, offset, offset + n);
  }

  /** Put, then get: whatever blocks the put filled, a get of the whole blob returns the
      body, and a get of a range within it returns that range. */
  lemma PutThenGet(before: seq<Byte>, header: seq<Byte>, body: seq<Byte>, rest: seq<Byte>, later: seq<Byte>, blk: nat,
                   base: nat, count: nat, meta: Meta, offset: nat, len: nat)
    requires 0 < blk <= HEADER && |header| == HEADER && |body| + |rest| == RoundUp(|body|, IO_ALIGN)
    requires |before| == base * blk && |Written(header, body, rest, blk)| == count * blk
    ensures var chunk := before + Written(header, body, rest, blk) + later;
      && StoredAt(chunk, blk, base, count, body)
      && GetBlob(chunk, blk, base, count, |body|, meta, false, 0, 0) == Ok(body, meta)
      && (0 < len && offset + len <= |body| ==>
            GetBlob(chunk, blk, base, count, |body|, meta, false, offset, len) == Ok(body[offset..offset + len], meta))
  {
    var stored := Written(header, body, rest, blk);
    var chunk := before + stored + later;
    WrittenLayout(header, body, rest, blk);
    BufLength(blk, base, 0, count);
    assert chunk[base * blk..(base + count) * blk] == stored;
    GetReturns(chunk, blk, base, count, body, meta, 0, 0);
    GetReturns(chunk, blk, base, count, body, meta, offset, len);
  }

  /** The partial path is taken exactly when it leaves a data block of the blob unread,
      at its beginning or at its end. */
  lemma PartialSkipsData(allow: bool, blk: nat, count: nat, offset: nat, len: nat)
    requires blk > 0 && HEADER % blk == 0
    ensures TakesPartial(allow, blk, count * blk, offset, len) <==>
      allow && len > 0 && (StartBlk(blk, offset) > HEADER / blk || EndBlk(blk, offset, len) < count)
  {
    DivBounds(HEADER + offset, blk);
    var h := HEADER / blk;
    assert HEADER == h * blk;
    var a := StartBlk(blk, offset);
    if offset >= blk {
      assert (h + 1) * blk == h * blk + blk;
      assert (a + 1) * blk == a * blk + blk;
      MulLess(h + 1, a + 1, blk);
    }
    if a > h {
      MulMono(h + 1, a, blk);
      assert (h + 1) * blk == h * blk + blk;
    }
    if count > 0 {
      PartialStaysInside(blk, count - 1, offset, len);
      assert (count - 1) * blk == count * blk - blk;
    } else {
      assert count * blk == 0;
    }
  }

  /** Allowing the partial path leaves the answer as it is if and only if the path is not
      taken, or the range ends within the blob and the blob has neither a user key nor
      an object offset: the partial read has no header to take size, key and offset
      from. */
  lemma PartialPathVisible(chunk: seq<Byte>, blk: nat, base: nat, count: nat, body: seq<Byte>, meta: Meta, allow: bool,
                           offset: nat, len: nat)
    requires StoredAt(chunk, blk, base, count, body)
    requires TakesPartial(allow, blk, count * blk, offset, len) ==>
      (base + EndBlk(blk, offset, len)) * blk <= |chunk|
    ensures GetBlob(chunk, blk, base, count, |body|, meta, allow, offset, len)
      == GetBlob(chunk, blk, base, count, |body|, meta, false, offset, len)
      <==> !TakesPartial(allow, blk, count * blk, offset, len) || (offset + len <= |body| && meta == NO_META)
  {
    if TakesPartial(allow, blk, count * blk, offset, len) && offset + len <= |body| {
      PartialIsFull(chunk, blk, base, count, body, meta, offset, len);
    }
  }

  /** A blob of 5000 bytes on 4096-byte blocks: a read of 10 bytes at its end is refused
      in full, and answered from the filler when the partial path is allowed. */
  lemma PartialReadsPastEnd(chunk: seq<Byte>, body: seq<Byte>, meta: Meta)
    requires |body| == 5000 && |chunk| == 12288 && StoredAt(chunk, 4096, 0, 3, body)
    ensures (0 + EndBlk(4096, 5000, 10)) * 4096 <= |chunk|
    ensures GetBlob(chunk, 4096, 0, 3, 5000, meta, false, 5000, 10) == InvalidArg
    ensures GetBlob(chunk, 4096, 0, 3, 5000, meta, true, 5000, 10).Ok?
  {
    PartialStaysInside(4096, 3, 5000, 10);
  }

  /** The same blob with a user key: a read of 10 bytes within it loses the key. */
  lemma PartialLosesKey(chunk: seq<Byte>, body: seq<Byte>, meta: Meta)
    requires |body| == 5000 && |chunk| == 12288 && StoredAt(chunk, 4096, 0, 3, body) && meta == Meta([7], 0)
    ensures (0 + EndBlk(4096, 4500, 10)) * 4096 <= |chunk|
    ensures GetBlob(chunk, 4096, 0, 3, 5000, meta, false, 4500, 10) == Ok(body[4500..4510], Meta([7], 0))
    ensures GetBlob(chunk, 4096, 0, 3, 5000, meta, true, 4500, 10) == Ok(body[4500..4510], Meta([], 0))
  {
    PartialIsFull(chunk, 4096, 0, 3, body, meta, 4500, 10);
  }

  // ------------------------------------------------- 64-bit sums

  const TWO_64: nat := 0x1_0000_0000_0000_0000

  function Sum64(a: nat, b: nat): (r: nat)
    ensures r < TWO_64
  {
    (a + b) % TWO_64
  }

  lemma Sum64Value(a: nat, b: nat)
    requires a < TWO_64 && b < TWO_64
    ensures Sum64(a, b) == if a + b < TWO_64 then a + b else a + b - TWO_64
  {
  }

  /** The range check of the full read and the guard of the partial path, as they are
      computed on 64-bit values. */
  predicate InRange64(size: nat, offset: nat, len: nat) {
    Sum64(offset, len) <= size
  }

  predicate TakesPartial64(allow: bool, blk: nat, total: nat, offset: nat, len: nat) {
    allow && len > 0 && (offset >= blk || Sum64(Sum64(offset, len), blk) <= total - HEADER)
  }

  /** The computed check says whether the range ends within the blob if and only if the
      sum does not wrap round to a value within it. */
  lemma RangeCheckExact(size: nat, offset: nat, len: nat)
    requires size < TWO_64 && offset < TWO_64 && len < TWO_64
    ensures (InRange64(size, offset, len) <==> offset + len <= size) <==> !(TWO_64 <= offset + len <= TWO_64 + size)
  {
    Sum64Value(offset, len);
  }

  /** The computed guard picks the path of the exact guard if and only if the partial
      read is not allowed, or the offset is past the first block, or the sum does not
      wrap round to a value the guard admits. Offsets below one block wrap only with a
      length that no blob has. */
  lemma GuardExact(allow: bool, blk: nat, total: nat, offset: nat, len: nat)
    requires 0 < blk <= HEADER <= total && total + blk < TWO_64 && offset < TWO_64 && len < TWO_64
    ensures (TakesPartial64(allow, blk, total, offset, len) <==> TakesPartial(allow, blk, total, offset, len)) <==>
      !(allow && offset < blk && TWO_64 <= offset + len + blk && offset + len + blk - TWO_64 <= total - HEADER)
    ensures offset < blk && TWO_64 <= offset + len + blk ==> len > total - blk
  {
    Sum64Value(offset, len);
    Sum64Value(Sum64(offset, len), blk);
  }

  /** So for requests whose offset and length are below half the 64-bit range, `GetBlob`
      takes the source's path and makes the source's check. */
  lemma ModerateRequests(allow: bool, blk: nat, total: nat, size: nat, offset: nat, len: nat)
    requires 0 < blk <= HEADER <= total && total + blk < TWO_64 && size < TWO_64
    requires offset < TWO_64 / 2 - HEADER && len < TWO_64 / 2
    ensures TakesPartial64(allow, blk, total, offset, len) <==> TakesPartial(allow, blk, total, offset, len)
    ensures InRange64(size, offset, len) <==> offset + len <= size
  {
    GuardExact(allow, blk, total, offset, len);
    RangeCheckExact(size, offset, len);
  }
}
