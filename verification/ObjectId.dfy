/** The 64-bit offset of a snapshot object: type bit, 48-bit shard sequence
    number, 15-bit batch id. */
module ObjectId {
  const LAST_OBJ_ID: bv64 := 0xFFFF_FFFF_FFFF_FFFF
  const SHARD_MASK: bv64 := 0xFFFF_FFFF_FFFF
  const BATCH_MASK: bv64 := 0x7FFF

  datatype Result<T> = Ok(value: T) | InvalidArgument

  /** The range checks, then the three fields side by side. */
  function Pack(shard: bv64, batch: bv64): Result<bv64> {
    if shard != shard & SHARD_MASK then InvalidArgument
    else if batch != batch & BATCH_MASK then InvalidArgument
    else Ok(((1 as bv64) << 63) | (shard << 15) | batch)
  }

  function Unpack(value: bv64): (bv64, bv64) {
    ((value >> 15) & SHARD_MASK, value & BATCH_MASK)
  }

  lemma FieldsSurvive(shard: bv64, batch: bv64)
    requires shard <= SHARD_MASK && batch <= BATCH_MASK
    ensures ((((1 as bv64) << 63) | (shard << 15) | batch) >> 15) & SHARD_MASK == shard
    ensures (((1 as bv64) << 63) | (shard << 15) | batch) & BATCH_MASK == batch
  {
  }

  lemma MaskIsRange(shard: bv64, batch: bv64)
    ensures shard == shard & SHARD_MASK <==> shard <= SHARD_MASK
    ensures batch == batch & BATCH_MASK <==> batch <= BATCH_MASK
  {
  }

  /** Packing succeeds exactly in range, unpacks to the same fields, and carries the
      application's type bit. */
  lemma PackRoundTrip(shard: bv64, batch: bv64)
    ensures Pack(shard, batch).Ok? <==> shard <= SHARD_MASK && batch <= BATCH_MASK
    ensures Pack(shard, batch).Ok? ==> Unpack(Pack(shard, batch).value) == (shard, batch)
    ensures Pack(shard, batch).Ok? ==> Pack(shard, batch).value >> 63 == 1
  {
    MaskIsRange(shard, batch);
    if shard <= SHARD_MASK && batch <= BATCH_MASK { FieldsSurvive(shard, batch); }
  }

  lemma Rejoined(value: bv64, shard: bv64, batch: bv64)
    requires value >> 63 == 1 && shard == (value >> 15) & SHARD_MASK && batch == value & BATCH_MASK
    ensures ((1 as bv64) << 63) | (shard << 15) | batch == value
    ensures shard == shard & SHARD_MASK && batch == batch & BATCH_MASK
  {
  }

  lemma PackOf(value: bv64, shard: bv64, batch: bv64)
    requires ((1 as bv64) << 63) | (shard << 15) | batch == value
    requires shard == shard & SHARD_MASK && batch == batch & BATCH_MASK
    ensures Pack(shard, batch) == Ok(value)
  {
  }

  /** Every value with the type bit is the packing of its own fields. */
  lemma UnpackRoundTrip(value: bv64, shard: bv64, batch: bv64)
    requires value >> 63 == 1 && Unpack(value) == (shard, batch)
    ensures Pack(shard, batch) == Ok(value)
  {
    Rejoined(value, shard, batch);
    PackOf(value, shard, batch);
  }

  /** Two ids are compared by value: equal values, equal fields. */
  lemma PackInjective(shard: bv64, batch: bv64, shard': bv64, batch': bv64)
    requires Pack(shard, batch).Ok? && Pack(shard, batch) == Pack(shard', batch')
    ensures shard == shard' && batch == batch'
  {
    PackRoundTrip(shard, batch);
    PackRoundTrip(shard', batch');
  }

  /** The end marker is the packing of the largest fields, and of no others. */
  lemma PackIsLast(shard: bv64, batch: bv64)
    requires Pack(shard, batch).Ok?
    ensures Pack(shard, batch).value == LAST_OBJ_ID <==> shard == SHARD_MASK && batch == BATCH_MASK
  {
    UnpackRoundTrip(LAST_OBJ_ID, SHARD_MASK, BATCH_MASK);
    if Pack(shard, batch).value == LAST_OBJ_ID { PackInjective(shard, batch, SHARD_MASK, BATCH_MASK); }
  }
}
