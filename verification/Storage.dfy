/** Entities shared by the models: chunks, slots, blob keys, block addresses,
    index entries, and chunk contents. */
module Storage {
  type Chunk = nat
  type ShardId = nat
  type BlobId = nat

  /** The bytes of one device block; nothing here looks inside. */
  type Block = nat
  type Data = seq<Block>

  /** A virtual chunk of a placement group: position `v` of its chunk array. */
  datatype Slot = Slot(pg: nat, v: nat)

  datatype Key = Key(shard: ShardId, blob: BlobId)

  /** `count` blocks of `chunk`, from block number `start`. */
  datatype Pba = Pba(chunk: Chunk, start: nat, count: nat)

  /** Value of the PG index: an address, or the tombstone left by a delete. */
  datatype Entry = Live(pba: Pba) | Tombstone

  type Index = map<Key, Entry>

  /** Chunk contents. A chunk is an append-only run of blocks; resetting its
      allocator empties it. */
  type Disk = map<Chunk, Data>

  function Content(disk: Disk, c: Chunk): Data {
    if c in disk then disk[c] else []
  }

  function Append(disk: Disk, c: Chunk, blocks: Data): Disk {
    disk[c := Content(disk, c) + blocks]
  }

  /** The address the append allocator hands out for the next `count` blocks. */
  function NextPba(disk: Disk, c: Chunk, count: nat): Pba {
    Pba(c, |Content(disk, c)|, count)
  }

  predicate InBounds(disk: Disk, p: Pba) {
    p.start + p.count <= |Content(disk, p.chunk)|
  }

  function ReadBlocks(disk: Disk, p: Pba): Data
    requires InBounds(disk, p)
  {
    Content(disk, p.chunk)[p.start..p.start + p.count]
  }

  predicate Holds(disk: Disk, p: Pba, data: Data) {
    InBounds(disk, p) && ReadBlocks(disk, p) == data
  }

  predicate IsLive(index: Index, k: Key) {
    k in index && index[k].Live?
  }

  function LiveKeys(index: Index): set<Key> {
    set k | k in index && index[k].Live?
  }

  /** Appending never disturbs an address handed out before. */
  lemma AppendKeepsHolds(disk: Disk, c: Chunk, blocks: Data, p: Pba, data: Data)
    requires Holds(disk, p, data)
    ensures Holds(Append(disk, c, blocks), p, data)
  {
    if p.chunk == c {
      assert (Content(disk, c) + blocks)[p.start..p.start + p.count]
          == Content(disk, c)[p.start..p.start + p.count];
    }
  }

  /** The blocks just appended are readable at the address the allocator chose. */
  lemma AppendHoldsNew(disk: Disk, c: Chunk, blocks: Data)
    ensures Holds(Append(disk, c, blocks), NextPba(disk, c, |blocks|), blocks)
  {
    var before := Content(disk, c);
    assert (before + blocks)[|before|..|before| + |blocks|] == blocks;
  }
}
