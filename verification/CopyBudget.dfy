/** How many blocks a GC copy takes in the receiving chunk. */
module CopyBudget {
  /** A stored blob and whether the PG index still refers to it. */
  datatype Stored = Stored(blocks: nat, live: bool)

  /** A shard as it lies in a chunk: header and footer blocks it has, and its blobs. */
  datatype Shard = Shard(open: bool, headers: nat, footers: nat, blobs: seq<Stored>)

  function LiveBlocks(blobs: seq<Stored>): nat {
    if blobs == [] then 0
    else LiveBlocks(blobs[..|blobs| - 1]) + if blobs[|blobs| - 1].live then blobs[|blobs| - 1].blocks else 0
  }

  function DeadBlocks(blobs: seq<Stored>): nat {
    if blobs == [] then 0
    else DeadBlocks(blobs[..|blobs| - 1]) + if blobs[|blobs| - 1].live then 0 else blobs[|blobs| - 1].blocks
  }

  predicate HasLive(blobs: seq<Stored>) {
    exists i :: 0 <= i < |blobs| && blobs[i].live
  }

  /** Blocks the shard takes where it lies. */
  function Occupied(s: Shard): nat {
    s.headers + LiveBlocks(s.blobs) + DeadBlocks(s.blobs) + s.footers
  }

  /** Blocks of its copy. A shard without live blobs is skipped, unless it is the open
      shard at the end of the chunk, which keeps its header; only that shard gets no
      footer. */
  function CopyCost(s: Shard, openEnd: bool): nat {
    if !HasLive(s.blobs) then (if openEnd then 1 else 0)
    else 1 + LiveBlocks(s.blobs) + if openEnd then 0 else 1
  }

  predicate OpenEnd(shards: seq<Shard>, i: nat)
    requires i < |shards|
  {
    i == |shards| - 1 && shards[i].open
  }

  /** Blocks of the chunk, and of the copy, up to shard `n`. */
  function UsedTo(shards: seq<Shard>, n: nat): nat
    requires n <= |shards|
  {
    if n == 0 then 0 else UsedTo(shards, n - 1) + Occupied(shards[n - 1])
  }

  function CopiedTo(shards: seq<Shard>, n: nat): nat
    requires n <= |shards|
  {
    if n == 0 then 0 else CopiedTo(shards, n - 1) + CopyCost(shards[n - 1], OpenEnd(shards, n - 1))
  }

  // ------------------------------------------------------------------ copying

  method CopyBlobs(blobs: seq<Stored>) returns (any: bool, taken: nat)
    ensures any <==> HasLive(blobs)
    ensures taken == LiveBlocks(blobs)
  {
    any, taken := false, 0;
    var i := 0;
    while i < |blobs|
      invariant 0 <= i <= |blobs| && taken == LiveBlocks(blobs[..i])
      invariant any <==> exists j :: 0 <= j < i && blobs[j].live
    {
      assert blobs[..i + 1][..i] == blobs[..i];
      if blobs[i].live { any, taken := true, taken + blobs[i].blocks; }
      i := i + 1;
    }
    assert blobs[..i] == blobs;
  }

  lemma {:induction false} CopiedGrows(shards: seq<Shard>, i: nat, n: nat)
    requires i <= n <= |shards|
    ensures CopiedTo(shards, i) <= CopiedTo(shards, n)
  {
    if i < n { CopiedGrows(shards, i, n - 1); }
  }

  ghost predicate NoneFails(shards: seq<Shard>, failing: set<nat>) {
    forall i: nat :: i < |shards| ==> i !in failing
  }

  /** Copy the chunk's shards in order. A normal GC refuses a chunk whose last shard is
      open, and the copy ends at the first shard of `failing`, whose index query, header,
      blob or footer fails; it has then taken no more than the whole copy would. */
  method CopyValidData(shards: seq<Shard>, normal: bool, failing: set<nat>) returns (ok: bool, used: nat)
    ensures ok <==> !(normal && shards != [] && shards[|shards| - 1].open) && NoneFails(shards, failing)
    ensures ok ==> used == CopiedTo(shards, |shards|)
    ensures used <= CopiedTo(shards, |shards|)
  {
    used := 0;
    if shards == [] { return true, 0; }
    var lastOpen := shards[|shards| - 1].open;
    if lastOpen && normal { return false, 0; }
    var i := 0;
    while i < |shards|
      invariant 0 <= i <= |shards| && used == CopiedTo(shards, i)
      invariant forall j :: 0 <= j < i ==> j !in failing
    {
      if i in failing {
        CopiedGrows(shards, i, |shards|);
        return false, used;
      }
      var isLast := i == |shards| - 1;
      var any, taken := CopyBlobs(shards[i].blobs);
      if any || (lastOpen && isLast) {
        used := used + 1;
        if any {
          used := used + taken;
          if !(isLast && lastOpen) { used := used + 1; }
        }
      }
      i := i + 1;
    }
    return true, used;
  }

  // --------------------------------------------------------------- accounting

  /** Blocks the copy leaves behind: dead blobs, spare header and footer blocks, and
      everything of a skipped shard. */
  function Gained(s: Shard, openEnd: bool): nat {
    if HasLive(s.blobs) then DeadBlocks(s.blobs) + Over(s.headers, 1) + Over(s.footers, if openEnd then 0 else 1)
    else DeadBlocks(s.blobs) + LiveBlocks(s.blobs) + Over(s.headers, if openEnd then 1 else 0) + s.footers
  }

  /** Header and footer blocks the copy writes and the shard never had. */
  function Missing(s: Shard, openEnd: bool): nat {
    if HasLive(s.blobs) then Over(1, s.headers) + Over(if openEnd then 0 else 1, s.footers)
    else Over(if openEnd then 1 else 0, s.headers)
  }

  function Over(a: nat, b: nat): nat {
    if a > b then a - b else 0
  }

  function GainedTo(shards: seq<Shard>, n: nat): nat
    requires n <= |shards|
  {
    if n == 0 then 0 else GainedTo(shards, n - 1) + Gained(shards[n - 1], OpenEnd(shards, n - 1))
  }

  function MissingTo(shards: seq<Shard>, n: nat): nat
    requires n <= |shards|
  {
    if n == 0 then 0 else MissingTo(shards, n - 1) + Missing(shards[n - 1], OpenEnd(shards, n - 1))
  }

  /** Old blocks and missing ones on one side, copied and gained ones on the other. */
  lemma {:induction false} BlocksBalance(shards: seq<Shard>, n: nat)
    requires n <= |shards|
    ensures UsedTo(shards, n) + MissingTo(shards, n) == CopiedTo(shards, n) + GainedTo(shards, n)
  {
    if n > 0 {
      BlocksBalance(shards, n - 1);
      var s, openEnd := shards[n - 1], OpenEnd(shards, n - 1);
      assert Occupied(s) + Missing(s, openEnd) == CopyCost(s, openEnd) + Gained(s, openEnd);
    }
  }

  /** Every shard that is copied has the header and footer blocks its copy gets. */
  ghost predicate WellFormed(shards: seq<Shard>) {
    forall i :: 0 <= i < |shards| ==> Complete(shards[i], OpenEnd(shards, i))
  }

  /** A shard with live blobs has its header, and its footer unless it is the open one
      at the end; that one has its header even when it is empty. */
  predicate Complete(s: Shard, openEnd: bool) {
    (HasLive(s.blobs) || openEnd ==> s.headers >= 1) && (HasLive(s.blobs) && !openEnd ==> s.footers >= 1)
  }

  lemma {:induction false} NothingMissing(shards: seq<Shard>, n: nat)
    requires n <= |shards| && WellFormed(shards)
    ensures MissingTo(shards, n) == 0
  {
    if n > 0 {
      NothingMissing(shards, n - 1);
      assert Complete(shards[n - 1], OpenEnd(shards, n - 1));
    }
  }

  /** The unsigned 64-bit difference the source adds to its counters. */
  function Reclaimed(used: nat, copied: nat): nat {
    (used - copied) % 0x1_0000_0000_0000_0000
  }

  /** The copy of a well-formed chunk fits in a chunk of the same size, and the
      reclaimed count is the number of blocks gained. */
  lemma CopyFits(shards: seq<Shard>, used: nat, total: nat)
    requires WellFormed(shards) && UsedTo(shards, |shards|) <= used <= total < 0x1_0000_0000_0000_0000
    ensures CopiedTo(shards, |shards|) <= used <= total
    ensures Reclaimed(used, CopiedTo(shards, |shards|)) == used - CopiedTo(shards, |shards|)
      == used - UsedTo(shards, |shards|) + GainedTo(shards, |shards|)
  {
    BlocksBalance(shards, |shards|);
    NothingMissing(shards, |shards|);
  }

  /** In general the copy takes no more than the shards did if and only if the blocks
      gained cover the missing headers and footers. */
  lemma CopyFitsExactly(shards: seq<Shard>)
    ensures CopiedTo(shards, |shards|) <= UsedTo(shards, |shards|) <==>
      MissingTo(shards, |shards|) <= GainedTo(shards, |shards|)
  {
    BlocksBalance(shards, |shards|);
  }

  /** A sealed shard that a resync brought has a header and no footer, since the receiver
      writes only the header; its copy gets one. With no garbage in the chunk the copy
      is a block longer, and the reclaimed count wraps. */
  lemma ResyncedShardWraps()
    ensures var shards := [Shard(false, 1, 0, [Stored(3, true)])];
            UsedTo(shards, 1) == 4 && CopiedTo(shards, 1) == 5 && Reclaimed(4, 5) == 0xFFFF_FFFF_FFFF_FFFF
  {
    var a := Shard(false, 1, 0, [Stored(3, true)]);
    var shards := [a];
    assert a.blobs[0].live && a.blobs[..0] == [];
    assert LiveBlocks(a.blobs) == 3 && DeadBlocks(a.blobs) == 0;
    assert UsedTo(shards, 1) == UsedTo(shards, 0) + Occupied(a);
  }

  /** So does the copy of an open shard that is not the last one in id order; for such a
      chunk see `ShardLifecycle.OpenBeforeSealed`. */
  lemma OpenShardInMiddleWraps()
    ensures var shards := [Shard(true, 1, 0, [Stored(3, true)]), Shard(false, 1, 1, [Stored(2, true)])];
            UsedTo(shards, 2) == 8 && CopiedTo(shards, 2) == 9 && Reclaimed(8, 9) == 0xFFFF_FFFF_FFFF_FFFF
  {
    var a, b := Shard(true, 1, 0, [Stored(3, true)]), Shard(false, 1, 1, [Stored(2, true)]);
    var shards := [a, b];
    assert a.blobs[0].live && b.blobs[0].live;
    assert LiveBlocks(a.blobs) == 3 && DeadBlocks(a.blobs) == 0 && LiveBlocks(b.blobs) == 2 && DeadBlocks(b.blobs) == 0;
    assert UsedTo(shards, 1) == 4 && CopiedTo(shards, 1) == 5;
  }
}
