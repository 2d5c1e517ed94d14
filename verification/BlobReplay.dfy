/** Committing puts and deletes to the PG index, and replaying them over an index
    that is already ahead. */
module BlobReplay {
  import opened Storage

  /** A committed blob message. */
  datatype Msg = Put(key: Key, pba: Pba) | Del(key: Key)

  /** What `add_to_index_table` and the delete's update do to the index. INSERT never
      overwrites; UPDATE never inserts. */
  function Apply(index: Index, m: Msg): Index {
    match m
    case Put(k, p) => if k in index then index else index[k := Live(p)]
    case Del(k) => if k in index then index[k := Tombstone] else index
  }

  function ApplyAll(index: Index, log: seq<Msg>): Index {
    if log == [] then index else Apply(ApplyAll(index, log[..|log| - 1]), log[|log| - 1])
  }

  // ------------------------------------------------------------- the log

  ghost predicate PutBy(log: seq<Msg>, n: nat, k: Key) {
    exists i :: 0 <= i < n && i < |log| && log[i].Put? && log[i].key == k
  }

  ghost predicate DelBy(log: seq<Msg>, n: nat, k: Key) {
    exists i :: 0 <= i < n && i < |log| && log[i] == Del(k)
  }

  /** A key is put once, and deleted only after its put. */
  ghost predicate LogOk(log: seq<Msg>) {
    && (forall i, j :: 0 <= i < |log| && 0 <= j < |log| && log[i].Put? && log[j].Put? && log[i].key == log[j].key ==>
          i == j)
    && (forall i :: 0 <= i < |log| && log[i].Del? ==> PutBy(log, i, log[i].key))
  }

  ghost predicate AliveAt(log: seq<Msg>, n: nat, k: Key) {
    PutBy(log, n, k) && !DelBy(log, n, k)
  }

  /** Where the log put the blob. */
  ghost function LoggedPba(log: seq<Msg>, k: Key): Pba
    requires PutBy(log, |log|, k)
  {
    var i :| 0 <= i < |log| && log[i].Put? && log[i].key == k;
    log[i].pba
  }

  /** An index that a checkpoint at position `n` and any number of GCs may leave:
      live blobs are at their logged address or a GC's, dead ones are tombstones or
      already removed, and nothing else is there. */
  ghost predicate IndexAt(index: Index, log: seq<Msg>, n: nat) {
    forall k :: EntryAt(index, log, n, k)
  }

  ghost predicate EntryAt(index: Index, log: seq<Msg>, n: nat, k: Key) {
    if AliveAt(log, n, k) then k in index && index[k].Live?
    else if PutBy(log, n, k) then k in index ==> index[k] == Tombstone
    else k !in index
  }

  /** The entry of `k` while the replay stands at `j`, having started from `start`, an
      index at `n`. Before the replay catches up, a dead key the start index had lost
      may be inserted again; its delete is then still to come. */
  ghost predicate ReplayAt(start: Index, index: Index, log: seq<Msg>, n: nat, j: nat, k: Key) {
    && (AliveAt(log, n, k) && !DelBy(log, j, k) ==> k in index && k in start && index[k] == start[k])
    && (DelBy(log, j, k) && k in index ==> index[k] == Tombstone)
    && (!PutBy(log, n, k) && !PutBy(log, j, k) ==> k !in index)
    && (!PutBy(log, n, k) && AliveAt(log, j, k) && PutBy(log, |log|, k) ==>
          k in index && index[k] == Live(LoggedPba(log, k)))
  }

  lemma PutMore(log: seq<Msg>, n: nat, k: Key)
    requires n < |log|
    ensures PutBy(log, n + 1, k) <==> PutBy(log, n, k) || (log[n].Put? && log[n].key == k)
    ensures DelBy(log, n + 1, k) <==> DelBy(log, n, k) || log[n] == Del(k)
  {
    if PutBy(log, n + 1, k) && !PutBy(log, n, k) {
      var i :| 0 <= i < n + 1 && i < |log| && log[i].Put? && log[i].key == k;
    }
    if DelBy(log, n + 1, k) && !DelBy(log, n, k) {
      var i :| 0 <= i < n + 1 && i < |log| && log[i] == Del(k);
    }
  }

  lemma PutMono(log: seq<Msg>, m: nat, n: nat, k: Key)
    requires m <= n
    ensures (PutBy(log, m, k) ==> PutBy(log, n, k)) && (DelBy(log, m, k) ==> DelBy(log, n, k))
  {
    if PutBy(log, m, k) {
      var i :| 0 <= i < m && i < |log| && log[i].Put? && log[i].key == k;
    }
    if DelBy(log, m, k) {
      var i :| 0 <= i < m && i < |log| && log[i] == Del(k);
    }
  }

  lemma DelAfterPut(log: seq<Msg>, n: nat, k: Key)
    requires LogOk(log) && DelBy(log, n, k)
    ensures PutBy(log, n, k)
  {
    var i :| 0 <= i < n && i < |log| && log[i] == Del(k);
    PutMono(log, i, n, k);
  }

  lemma LoggedAt(log: seq<Msg>, i: nat)
    requires LogOk(log) && i < |log| && log[i].Put?
    ensures PutBy(log, |log|, log[i].key) && LoggedPba(log, log[i].key) == log[i].pba
  {
  }

  lemma ReplayStarts(start: Index, log: seq<Msg>, d: nat, n: nat, k: Key)
    requires LogOk(log) && d <= n && EntryAt(start, log, n, k)
    ensures ReplayAt(start, start, log, n, d, k)
  {
    PutMono(log, d, n, k);
    if DelBy(log, n, k) { DelAfterPut(log, n, k); }
  }

  lemma ReplayStep(start: Index, index: Index, log: seq<Msg>, n: nat, j: nat, k: Key)
    requires LogOk(log) && j < |log| && ReplayAt(start, index, log, n, j, k) && (n <= j || PutBy(log, n, log[j].key))
    ensures ReplayAt(start, Apply(index, log[j]), log, n, j + 1, k)
  {
    PutMore(log, j, k);
    if log[j].key == k {
      if log[j].Put? {
        LoggedAt(log, j);
        PutOnce(log, n, j);
      }
    }
  }

  /** The put at `j` is the first, and its delete is later. */
  lemma PutOnce(log: seq<Msg>, n: nat, j: nat)
    requires LogOk(log) && j < |log| && log[j].Put?
    ensures !PutBy(log, j, log[j].key) && !DelBy(log, j + 1, log[j].key)
    ensures PutBy(log, n, log[j].key) <==> j < n
  {
  }

  /** What was committed by `n` was put by `n`. */
  lemma KnownKey(log: seq<Msg>, n: nat, j: nat)
    requires LogOk(log) && j < n <= |log|
    ensures PutBy(log, n, log[j].key)
  {
    if log[j].Put? { PutOnce(log, n, j); } else { PutMono(log, j, n, log[j].key); }
  }

  lemma ApplySnoc(start: Index, log: seq<Msg>, d: nat, j: nat)
    requires d <= j < |log|
    ensures ApplyAll(start, log[d..j + 1]) == Apply(ApplyAll(start, log[d..j]), log[j])
  {
    assert log[d..j + 1][..j - d] == log[d..j];
  }

  lemma {:induction false} ReplayTo(start: Index, log: seq<Msg>, d: nat, n: nat, j: nat, k: Key)
    requires LogOk(log) && d <= n <= |log| && d <= j <= |log| && EntryAt(start, log, n, k)
    ensures ReplayAt(start, ApplyAll(start, log[d..j]), log, n, j, k)
  {
    if j == d {
      ReplayStarts(start, log, d, n, k);
    } else {
      ReplayTo(start, log, d, n, j - 1, k);
      ApplySnoc(start, log, d, j - 1);
      if j - 1 < n { KnownKey(log, n, j - 1); }
      ReplayStep(start, ApplyAll(start, log[d..j - 1]), log, n, j - 1, k);
    }
  }

  /** Replaying from position `d` over any index at `n`, `d` <= `n`, whatever GC did to
      it: exactly the blobs alive at the end are live, those the start index had keep
      their entry, and the others get their logged address. */
  lemma ReplayReads(start: Index, log: seq<Msg>, d: nat, n: nat, k: Key)
    requires LogOk(log) && d <= n <= |log| && IndexAt(start, log, n)
    ensures IsLive(ApplyAll(start, log[d..]), k) <==> AliveAt(log, |log|, k)
    ensures AliveAt(log, |log|, k) && AliveAt(log, n, k) ==> k in start && ApplyAll(start, log[d..])[k] == start[k]
    ensures AliveAt(log, |log|, k) && !AliveAt(log, n, k) ==> ApplyAll(start, log[d..])[k] == Live(LoggedPba(log, k))
  {
    assert EntryAt(start, log, n, k);
    ReplayTo(start, log, d, n, |log|, k);
    assert log[d..|log|] == log[d..];
    PutMono(log, n, |log|, k);
    if DelBy(log, |log|, k) { DelAfterPut(log, |log|, k); }
  }

  lemma EmptyIndexAt(log: seq<Msg>)
    ensures IndexAt(map[], log, 0)
  {
  }

  /** What a read of `k` returns, when `bytes` is what the device holds. */
  ghost function Read(index: Index, bytes: map<Pba, Data>, k: Key): seq<Data> {
    if IsLive(index, k) && index[k].pba in bytes then [bytes[index[k].pba]] else []
  }

  /** The same blobs read the same as after applying the whole log once, provided the
      addresses GC moved blobs to hold what the logged ones held. */
  lemma ReplayReadsSame(start: Index, log: seq<Msg>, d: nat, n: nat, bytes: map<Pba, Data>, k: Key)
    requires LogOk(log) && d <= n <= |log| && IndexAt(start, log, n)
    requires AliveAt(log, n, k) && PutBy(log, |log|, k) && IsLive(start, k) ==>
      start[k].pba in bytes && LoggedPba(log, k) in bytes && bytes[start[k].pba] == bytes[LoggedPba(log, k)]
    ensures Read(ApplyAll(start, log[d..]), bytes, k) == Read(ApplyAll(map[], log), bytes, k)
  {
    ReplayReads(start, log, d, n, k);
    EmptyIndexAt(log);
    ReplayReads(map[], log, 0, 0, k);
    assert log[0..] == log;
    assert EntryAt(start, log, n, k);
  }

  // ------------------------------------------------------------- counters

  function KeysLive(index: Index): set<Key> {
    set k | k in index && index[k].Live?
  }

  function KeysDead(index: Index): set<Key> {
    set k | k in index && index[k] == Tombstone
  }

  /** The index of a PG with its durable counters. */
  class PgIndex {
    var index: Index
    var seqNum: nat
    var active: int
    var tombstones: int
    var occupied: int

    ghost predicate Counts() reads this {
      active == |KeysLive(index)| && tombstones == |KeysDead(index)|
    }

    /** A put is committed: INSERT, then the counters unless the blob was there. A
        conflicting address is an error that changes nothing. */
    method PutCommit(k: Key, p: Pba) returns (ok: bool)
      modifies this
      ensures index == Apply(old(index), Put(k, p))
      ensures ok <==> k !in old(index) || old(index)[k] == Live(p) || old(index)[k] == Tombstone
      ensures old(Counts()) ==> Counts()
      ensures occupied == old(occupied) + if k in old(index) then 0 else p.count
      ensures seqNum == if k !in old(index) && k.blob + 1 > old(seqNum) then k.blob + 1 else old(seqNum)
    {
      if k in index { return index[k] == Live(p) || index[k] == Tombstone; }
      assert KeysLive(index[k := Live(p)]) == KeysLive(index) + {k};
      assert KeysDead(index[k := Live(p)]) == KeysDead(index);
      index := index[k := Live(p)];
      if k.blob + 1 > seqNum { seqNum := k.blob + 1; }
      active, occupied := active + 1, occupied + p.count;
      return true;
    }

    /** A delete is committed: UPDATE to the tombstone; the first one moves the counters. */
    method DelCommit(k: Key)
      modifies this
      ensures index == Apply(old(index), Del(k))
      ensures old(Counts()) ==> Counts()
      ensures active == old(active) - (if IsLive(old(index), k) then 1 else 0)
      ensures tombstones == old(tombstones) + (if IsLive(old(index), k) then 1 else 0)
      ensures seqNum == old(seqNum) && occupied == old(occupied)
    {
      if k !in index { return; }
      ghost var was := index;
      if index[k] != Tombstone {
        assert KeysLive(was[k := Tombstone]) == KeysLive(was) - {k};
        assert KeysDead(was[k := Tombstone]) == KeysDead(was) + {k};
        active, tombstones := active - 1, tombstones + 1;
      } else {
        assert was[k := Tombstone] == was;
      }
      index := index[k := Tombstone];
    }

    /** Recount after the replay, whatever the counters were. */
    method RefreshStatistics(used: seq<nat>)
      modifies this`active, this`tombstones, this`occupied
      ensures Counts() && occupied == SumOf(used)
    {
      active, tombstones := CountEntries(index);
      occupied := 0;
      var i := 0;
      while i < |used|
        invariant 0 <= i <= |used| && occupied == SumOf(used[..i])
        invariant Counts()
      {
        assert used[..i + 1][..i] == used[..i];
        occupied := occupied + used[i];
        i := i + 1;
      }
      assert used[..i] == used;
    }
  }

  function SumOf(s: seq<nat>): nat {
    if s == [] then 0 else SumOf(s[..|s| - 1]) + s[|s| - 1]
  }

  /** One pass over the index. */
  method CountEntries(index: Index) returns (active: nat, tombstones: nat)
    ensures active == |KeysLive(index)| && tombstones == |KeysDead(index)|
  {
    var todo := index.Keys;
    active, tombstones := 0, 0;
    ghost var live, dead := KeysLive(index), KeysDead(index);
    assert live * todo == live && dead * todo == dead;
    while todo != {}
      invariant todo <= index.Keys
      invariant active + |live * todo| == |live| && tombstones + |dead * todo| == |dead|
      decreases |todo|
    {
      var k :| k in todo;
      if index[k] == Tombstone {
        tombstones := tombstones + 1;
      } else {
        active := active + 1;
      }
      OneLess(live, todo, k);
      OneLess(dead, todo, k);
      todo := todo - {k};
    }
  }

  lemma OneLess(a: set<Key>, todo: set<Key>, k: Key)
    requires k in todo
    ensures |a * (todo - {k})| == |a * todo| - if k in a then 1 else 0
  {
    assert a * (todo - {k}) == a * todo - {k};
  }

  /** After the replay the counted live entries are the blobs alive in the log. */
  lemma RefreshedCountIsAlive(start: Index, log: seq<Msg>, d: nat, n: nat, alive: set<Key>)
    requires LogOk(log) && d <= n <= |log| && IndexAt(start, log, n)
    requires forall k :: k in alive <==> AliveAt(log, |log|, k)
    ensures KeysLive(ApplyAll(start, log[d..])) == alive
  {
    forall k ensures k in KeysLive(ApplyAll(start, log[d..])) <==> k in alive {
      ReplayReads(start, log, d, n, k);
    }
  }
}
