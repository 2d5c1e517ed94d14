/** Giving the chunks of a device heap to a PG, and taking them back. */
module ChunkGrants {
  import opened Storage
  import opened ChunkSelector

  datatype Option<T> = None | Some(value: T)

  // --------------------------------------------------- growing a PG's array

  /** A PG without chunks. */
  ghost function NewPg(s: Selector, pg: nat): Selector {
    s.(arr := s.arr[pg := []], num := s.num[pg := 0], blks := s.blks[pg := 0])
  }

  /** Chunk `c` leaves the heap of its device and becomes the next slot of the PG. */
  ghost function Granted(s: Selector, pg: nat, d: Dev, heap: seq<Chunk>, c: Chunk): Selector
    requires pg in s.arr && pg in s.num && pg in s.blks && c in s.info
  {
    var a := Slot(pg, |s.arr[pg]|);
    s.(heaps := s.heaps[d := heap], info := s.info[c := s.info[c].(tag := Tagged(a))],
       arr := s.arr[pg := s.arr[pg] + [c]], num := s.num[pg := s.num[pg] + 1],
       blks := s.blks[pg := s.blks[pg] + FreeBlks(s.info[c])], owner := s.owner[c := InPg(a)])
  }

  lemma NewPgOk(s: Selector, pg: nat)
    requires Ok(s) && pg !in s.arr
    ensures Ok(NewPg(s, pg)) && NumExact(NewPg(s, pg), pg) && BlkExact(NewPg(s, pg), pg)
  {
    var t := NewPg(s, pg);
    assert forall a :: IsSlot(t.arr, a) <==> IsSlot(s.arr, a);
    assert forall a :: IsSlot(s.arr, a) ==> ChunkAt(t.arr, a) == ChunkAt(s.arr, a);
    forall a | IsSlot(t.arr, a) ensures OnDev(t.dev, t.heaps, ChunkAt(t.arr, a), t.arr[a.pg][0]) {
      assert OnDev(s.dev, s.heaps, ChunkAt(s.arr, a), s.arr[a.pg][0]);
    }
  }

  /** `rest` is `heap` without one `c`. */
  ghost predicate Popped(heap: seq<Chunk>, rest: seq<Chunk>, c: Chunk) {
    NoDup(rest) && c in heap && c !in rest && |rest| == |heap| - 1 && forall x :: x in heap <==> x == c || x in rest
  }

  lemma GrantHeaps(dev: map<Chunk, Dev>, heaps: map<Dev, seq<Chunk>>, owner: map<Chunk, Owner>, d: Dev,
                   rest: seq<Chunk>, c: Chunk, a: Slot)
    requires HeapsOk(dev, heaps, owner) && d in heaps && Popped(heaps[d], rest, c)
    ensures HeapsOk(dev, heaps[d := rest], owner[c := InPg(a)])
  {
    assert owner[c] == Heap && dev[c] == d;
  }

  lemma GrantSlots(arr: Arrays, owner: map<Chunk, Owner>, pg: nat, c: Chunk)
    requires SlotsOk(arr, owner) && pg in arr && c in owner && owner[c] == Heap
    ensures SlotsOk(arr[pg := arr[pg] + [c]], owner[c := InPg(Slot(pg, |arr[pg]|))])
  {
    var a, arr' := Slot(pg, |arr[pg]|), arr[pg := arr[pg] + [c]];
    var owner' := owner[c := InPg(a)];
    forall b | IsSlot(arr', b) ensures ChunkAt(arr', b) in owner' && owner'[ChunkAt(arr', b)] == InPg(b) {
      if b != a { assert IsSlot(arr, b) && ChunkAt(arr, b) == ChunkAt(arr', b); }
    }
    forall x | x in owner' && owner'[x].InPg?
      ensures IsSlot(arr', owner'[x].slot) && ChunkAt(arr', owner'[x].slot) == x
    {
      if x != c { assert IsSlot(arr, owner[x].slot) && ChunkAt(arr, owner[x].slot) == x; }
    }
  }

  lemma GrantDevs(dev: map<Chunk, Dev>, heaps: map<Dev, seq<Chunk>>, arr: Arrays, pg: nat, d: Dev, rest: seq<Chunk>,
                  c: Chunk)
    requires DevOk(dev, heaps, arr) && pg in arr && d in heaps && c in dev && dev[c] == d
    requires arr[pg] != [] ==> arr[pg][0] in dev && dev[arr[pg][0]] == d
    ensures DevOk(dev, heaps[d := rest], arr[pg := arr[pg] + [c]])
  {
    var arr', heaps' := arr[pg := arr[pg] + [c]], heaps[d := rest];
    forall b | IsSlot(arr', b) ensures OnDev(dev, heaps', ChunkAt(arr', b), arr'[b.pg][0]) {
      if IsSlot(arr, b) { assert OnDev(dev, heaps, ChunkAt(arr, b), arr[b.pg][0]); }
    }
  }

  lemma GrantChunks(info: map<Chunk, Info>, owner: map<Chunk, Owner>, tasks: map<Slot, Task>, c: Chunk, a: Slot)
    requires ChunksOk(info, owner, tasks) && c in info && owner[c] == Heap && a !in tasks
    ensures ChunksOk(info[c := info[c].(tag := Tagged(a))], owner[c := InPg(a)], tasks)
  {
    assert ChunkOk(info, owner, tasks, c);
    forall x | x in info ensures ChunkOk(info[c := info[c].(tag := Tagged(a))], owner[c := InPg(a)], tasks, x) {
      assert ChunkOk(info, owner, tasks, x);
    }
  }

  lemma GrantOk(s: Selector, pg: nat, d: Dev, rest: seq<Chunk>, c: Chunk)
    requires Ok(s) && pg in s.arr && d in s.heaps && Popped(s.heaps[d], rest, c)
    requires s.arr[pg] != [] ==> s.arr[pg][0] in s.dev && s.dev[s.arr[pg][0]] == d
    ensures Ok(Granted(s, pg, d, rest, c))
  {
    var a := Slot(pg, |s.arr[pg]|);
    assert s.owner[c] == Heap && s.dev[c] == d;
    assert a !in s.tasks;
    GrantHeaps(s.dev, s.heaps, s.owner, d, rest, c, a);
    GrantSlots(s.arr, s.owner, pg, c);
    GrantDevs(s.dev, s.heaps, s.arr, pg, d, rest, c);
    GrantChunks(s.info, s.owner, s.tasks, c, a);
    GrantTasks(s, pg, d, rest, c);
  }

  lemma GrantTasks(s: Selector, pg: nat, d: Dev, rest: seq<Chunk>, c: Chunk)
    requires TasksOk(s.arr, s.num, s.blks, s.tasks, s.frozen) && pg in s.arr && c in s.info
    ensures var t := Granted(s, pg, d, rest, c); TasksOk(t.arr, t.num, t.blks, t.tasks, t.frozen)
  {
    var arr := Granted(s, pg, d, rest, c).arr;
    forall b | b in s.tasks ensures IsSlot(arr, b) {
      assert IsSlot(s.arr, b);
    }
  }

  lemma TotalSnoc(ws: seq<int>, x: int)
    ensures Total(ws + [x]) == Total(ws) + x
  {
    assert (ws + [x])[..|ws|] == ws;
  }

  lemma GrantExact(s: Selector, pg: nat, d: Dev, rest: seq<Chunk>, c: Chunk)
    requires Ok(s) && pg in s.arr && c in s.info && s.owner[c] == Heap && NumExact(s, pg) && BlkExact(s, pg)
    ensures NumExact(Granted(s, pg, d, rest, c), pg) && BlkExact(Granted(s, pg, d, rest, c), pg)
  {
    var t := Granted(s, pg, d, rest, c);
    assert ChunkOk(s.info, s.owner, s.tasks, c);
    GrantWeights(s, t, pg, c);
  }

  lemma GrantWeights(s: Selector, t: Selector, pg: nat, c: Chunk)
    requires SlotsOk(s.arr, s.owner) && pg in s.arr && pg in t.arr && c in s.owner && s.owner[c] == Heap
    requires c in s.info && c in t.info
    requires t.arr[pg] == s.arr[pg] + [c] && t.frozen == s.frozen && t.info == s.info[c := t.info[c]]
    requires t.info[c].state == Available && FreeBlks(t.info[c]) == FreeBlks(s.info[c])
    requires pg in t.num && pg in s.num && t.num[pg] == s.num[pg] + 1
    requires pg in t.blks && pg in s.blks && t.blks[pg] == s.blks[pg] + FreeBlks(s.info[c])
    requires NumExact(s, pg) && BlkExact(s, pg)
    ensures NumExact(t, pg) && BlkExact(t, pg)
  {
    forall v | 0 <= v < |s.arr[pg]| ensures s.arr[pg][v] != c {
      assert IsSlot(s.arr, Slot(pg, v)) && s.arr[pg][v] == ChunkAt(s.arr, Slot(pg, v));
      assert s.owner[s.arr[pg][v]] == InPg(Slot(pg, v));
    }
    var n, b := NumWeights(s.info, s.frozen, pg, s.arr[pg]), BlkWeights(s.info, s.frozen, pg, s.arr[pg]);
    assert NumWeights(t.info, t.frozen, pg, t.arr[pg]) == n + [1];
    assert BlkWeights(t.info, t.frozen, pg, t.arr[pg]) == b + [FreeBlks(s.info[c])];
    TotalSnoc(n, 1);
    TotalSnoc(b, FreeBlks(s.info[c]));
  }

  // -------------------------------------------------- how long a heap can be

  function Elems(s: seq<Chunk>): set<Chunk> {
    set x | x in s
  }

  lemma {:induction false} BoundedSet(a: set<Chunk>, n: nat)
    requires forall x :: x in a ==> x < n
    ensures |a| <= n
  {
    if n == 0 {
      assert a == {};
    } else {
      BoundedSet(a - {n - 1}, n - 1);
    }
  }

  lemma {:induction false} DistinctSize(s: seq<Chunk>)
    requires NoDup(s)
    ensures |Elems(s)| == |s|
  {
    if s == [] {
      assert Elems(s) == {};
    } else {
      var n := |s| - 1;
      DistinctSize(s[..n]);
      assert Elems(s) == Elems(s[..n]) + {s[n]};
    }
  }

  /** With 16-bit chunk ids and one reserved chunk, a heap is at most 65535 long. */
  lemma HeapFits(heap: seq<Chunk>, reserved: Chunk, limit: nat)
    requires NoDup(heap) && reserved !in heap && reserved < limit && forall c :: c in heap ==> c < limit
    ensures |heap| < limit
  {
    DistinctSize(heap);
    BoundedSet(Elems(heap) + {reserved}, limit);
  }

  lemma PopAt(heap: seq<Chunk>, i: nat)
    requires NoDup(heap) && i < |heap|
    ensures Popped(heap, heap[..i] + heap[i + 1..], heap[i])
  {
    var rest := heap[..i] + heap[i + 1..];
    forall x | x in heap ensures x == heap[i] || x in rest {
      var j :| 0 <= j < |heap| && heap[j] == x;
      if j < i { assert rest[j] == x; } else if j > i { assert rest[j - 1] == x; }
    }
  }

  /** A heap with one chunk taken out. */
  function Remove(heap: seq<Chunk>, c: Chunk): seq<Chunk> {
    if heap == [] then [] else if heap[0] == c then heap[1..] else [heap[0]] + Remove(heap[1..], c)
  }

  lemma {:induction false} RemoveAt(heap: seq<Chunk>, i: nat)
    requires NoDup(heap) && i < |heap|
    ensures Remove(heap, heap[i]) == heap[..i] + heap[i + 1..]
  {
    if i > 0 {
      RemoveAt(heap[1..], i - 1);
      assert heap[..i] == [heap[0]] + heap[1..][..i - 1];
    }
  }

  /** The PG created from `picks`, popped one after the other off the heap of `d`. */
  ghost function Grants(s: Selector, pg: nat, d: Dev, picks: seq<Chunk>): Selector
    requires d in s.heaps && forall c :: c in picks ==> c in s.info
    ensures var t := Grants(s, pg, d, picks);
      pg in t.arr && pg in t.num && pg in t.blks && t.info.Keys == s.info.Keys && d in t.heaps
  {
    if picks == [] then NewPg(s, pg)
    else
      var n := |picks| - 1;
      var t := Grants(s, pg, d, picks[..n]);
      Granted(t, pg, d, Remove(t.heaps[d], picks[n]), picks[n])
  }

  /** `picks` can be popped off `heap` in this order. */
  ghost predicate Pops(heap: seq<Chunk>, picks: seq<Chunk>) {
    NoDup(picks) && forall c :: c in picks ==> c in heap
  }

  ghost predicate GrantedTo(s: Selector, t: Selector, pg: nat, picks: seq<Chunk>) {
    t.arr == s.arr[pg := picks] && t.dev == s.dev && t.tasks == s.tasks && t.frozen == s.frozen
  }

  lemma GrantShape(s: Selector, t: Selector, pg: nat, d: Dev, front: seq<Chunk>, heap: seq<Chunk>, c: Chunk)
    requires GrantedTo(s, t, pg, front) && pg in t.num && pg in t.blks && c in t.info
    ensures GrantedTo(s, Granted(t, pg, d, heap, c), pg, front + [c])
  {
  }

  lemma {:induction false} GrantsShape(s: Selector, pg: nat, d: Dev, picks: seq<Chunk>)
    requires d in s.heaps && forall c :: c in picks ==> c in s.info
    ensures GrantedTo(s, Grants(s, pg, d, picks), pg, picks)
  {
    if picks != [] {
      var n := |picks| - 1;
      GrantsShape(s, pg, d, picks[..n]);
      var t := Grants(s, pg, d, picks[..n]);
      GrantShape(s, t, pg, d, picks[..n], Remove(t.heaps[d], picks[n]), picks[n]);
      assert picks == picks[..n] + [picks[n]];
    }
  }

  /** A PG with consistent owners and exact counters. */
  ghost predicate GoodPg(u: Selector, pg: nat) {
    Ok(u) && NumExact(u, pg) && BlkExact(u, pg)
  }

  ghost predicate StillIn(rest: seq<Chunk>, heap: seq<Chunk>, picks: seq<Chunk>) {
    forall c :: c in heap && c !in picks ==> c in rest
  }

  ghost predicate InAll(picks: seq<Chunk>, info: map<Chunk, Info>) {
    forall c :: c in picks ==> c in info
  }

  lemma GrantsSnoc(s0: Selector, pg: nat, d: Dev, picks: seq<Chunk>, c: Chunk, s: Selector)
    requires d in s0.heaps && InAll(picks, s0.info) && s == Grants(s0, pg, d, picks) && c in s.info
    ensures InAll(picks + [c], s0.info)
    ensures Grants(s0, pg, d, picks + [c]) == Granted(s, pg, d, Remove(s.heaps[d], c), c)
  {
    assert (picks + [c])[..|picks|] == picks;
  }

  /** The chunks of `picks` are on device `d`. */
  ghost predicate AllOn(dev: map<Chunk, Dev>, d: Dev, picks: seq<Chunk>) {
    forall c :: c in picks ==> c in dev && dev[c] == d
  }

  lemma PopsLast(heap: seq<Chunk>, front: seq<Chunk>, c: Chunk)
    requires Pops(heap, front + [c])
    ensures Pops(heap, front) && c in heap && c !in front
  {
    var picks := front + [c];
    assert picks[|front|] == c && forall i :: 0 <= i < |front| ==> picks[i] == front[i];
    forall x | x in front ensures x in heap && x != c {
      var i :| 0 <= i < |front| && front[i] == x;
      assert picks[i] in picks;
    }
  }

  lemma GrantLast(s: Selector, t: Selector, pg: nat, d: Dev, front: seq<Chunk>, c: Chunk, u: Selector)
    requires GoodPg(t, pg) && d in s.heaps && d in t.heaps && StillIn(t.heaps[d], s.heaps[d], front)
    requires c in s.heaps[d] && c !in front && GrantedTo(s, t, pg, front) && AllOn(s.dev, d, front)
    requires c in t.info && pg in t.num && pg in t.blks && u == Granted(t, pg, d, Remove(t.heaps[d], c), c)
    ensures GoodPg(u, pg) && d in u.heaps && StillIn(u.heaps[d], s.heaps[d], front + [c])
  {
    GrantNext(s, t, pg, d, front, c);
  }

  lemma {:induction false} GrantsGood(s: Selector, pg: nat, d: Dev, picks: seq<Chunk>)
    requires Ok(s) && pg !in s.arr && d in s.heaps && Pops(s.heaps[d], picks)
    requires InAll(picks, s.info) && AllOn(s.dev, d, picks)
    ensures GoodPg(Grants(s, pg, d, picks), pg)
    ensures StillIn(Grants(s, pg, d, picks).heaps[d], s.heaps[d], picks)
  {
    if picks == [] {
      NewPgOk(s, pg);
    } else {
      var front, c := picks[..|picks| - 1], picks[|picks| - 1];
      assert picks == front + [c];
      PopsLast(s.heaps[d], front, c);
      GrantsGood(s, pg, d, front);
      GrantsShape(s, pg, d, front);
      GrantsSnoc(s, pg, d, front, c, Grants(s, pg, d, front));
      GrantLast(s, Grants(s, pg, d, front), pg, d, front, c, Grants(s, pg, d, picks));
    }
  }

  lemma GrantsOk(s: Selector, pg: nat, d: Dev, picks: seq<Chunk>)
    requires Ok(s) && pg !in s.arr && d in s.heaps && Pops(s.heaps[d], picks)
    ensures (forall c :: c in picks ==> c in s.info) && Ok(Grants(s, pg, d, picks))
    ensures NumExact(Grants(s, pg, d, picks), pg) && BlkExact(Grants(s, pg, d, picks), pg)
    ensures forall c :: c in s.heaps[d] && c !in picks ==> c in Grants(s, pg, d, picks).heaps[d]
  {
    HeapChunks(s, d);
    GrantsGood(s, pg, d, picks);
  }

  lemma HeapChunks(s: Selector, d: Dev)
    requires Ok(s) && d in s.heaps
    ensures forall c :: c in s.heaps[d] ==> c in s.info && c in s.dev && s.dev[c] == d && s.owner[c] == Heap
  {
  }

  lemma GrantNext(s: Selector, t: Selector, pg: nat, d: Dev, front: seq<Chunk>, c: Chunk)
    requires Ok(t) && d in t.heaps && c in t.heaps[d] && pg in t.arr && t.arr[pg] == front && NumExact(t, pg)
    requires BlkExact(t, pg)
    requires t.dev == s.dev && forall x :: x in front ==> x in s.dev && s.dev[x] == d
    ensures c in t.info
    ensures var u := Granted(t, pg, d, Remove(t.heaps[d], c), c); Ok(u) && NumExact(u, pg) && BlkExact(u, pg)
    ensures forall x :: x in t.heaps[d] && x != c ==> x in Remove(t.heaps[d], c)
  {
    HeapChunks(t, d);
    var i :| 0 <= i < |t.heaps[d]| && t.heaps[d][i] == c;
    RemoveAt(t.heaps[d], i);
    PopAt(t.heaps[d], i);
    GrantOk(t, pg, d, Remove(t.heaps[d], c), c);
    GrantExact(t, pg, d, Remove(t.heaps[d], c), c);
  }

  // ------------------------------------------------------- destroying a PG

  /** Its chunks emptied, untagged, available, and back on the heap of their device. */
  ghost function Destroyed(s: Selector, pg: nat): Selector
    requires pg in s.arr && s.arr[pg] != [] && s.arr[pg][0] in s.dev && s.dev[s.arr[pg][0]] in s.heaps
  {
    var d := s.dev[s.arr[pg][0]];
    s.(info := Freed(s.info, s.arr[pg]), heaps := s.heaps[d := s.heaps[d] + s.arr[pg]], arr := s.arr - {pg},
       num := s.num - {pg}, blks := s.blks - {pg},
       owner := (map c | c in s.owner :: if c in s.arr[pg] then Heap else s.owner[c]))
  }

  function Freed(info: map<Chunk, Info>, slots: seq<Chunk>): map<Chunk, Info> {
    map c | c in info :: if c in slots then Info(info[c].total, 0, Available, NoTag) else info[c]
  }

  ghost predicate NoTaskIn(tasks: map<Slot, Task>, pg: nat) {
    forall a :: a in tasks ==> a.pg != pg
  }

  lemma InArray(arr: Arrays, owner: map<Chunk, Owner>, pg: nat, c: Chunk)
    requires SlotsOk(arr, owner) && pg in arr
    ensures c in arr[pg] <==> c in owner && owner[c].InPg? && owner[c].slot.pg == pg
  {
    if c in arr[pg] {
      var v :| 0 <= v < |arr[pg]| && arr[pg][v] == c;
      assert ChunkAt(arr, Slot(pg, v)) == c;
    }
  }

  lemma ArrayNoDup(arr: Arrays, owner: map<Chunk, Owner>, pg: nat)
    requires SlotsOk(arr, owner) && pg in arr
    ensures NoDup(arr[pg])
  {
    forall i, j | 0 <= i < |arr[pg]| && 0 <= j < |arr[pg]| && arr[pg][i] == arr[pg][j] ensures i == j {
      assert ChunkAt(arr, Slot(pg, i)) == ChunkAt(arr, Slot(pg, j));
      SlotOwner(arr, owner, Slot(pg, i), Slot(pg, j));
    }
  }

  lemma DestroyHeaps(s: Selector, pg: nat)
    requires HeapsOk(s.dev, s.heaps, s.owner) && SlotsOk(s.arr, s.owner) && DevOk(s.dev, s.heaps, s.arr)
    requires pg in s.arr && s.arr[pg] != [] && s.arr[pg][0] in s.dev && s.dev[s.arr[pg][0]] in s.heaps
    ensures HeapsOk(s.dev, Destroyed(s, pg).heaps, Destroyed(s, pg).owner)
  {
    var t, d := Destroyed(s, pg), s.dev[s.arr[pg][0]];
    ArrayNoDup(s.arr, s.owner, pg);
    forall c ensures c in s.arr[pg] ==> c in s.owner && s.owner[c].InPg? && c in s.dev && s.dev[c] == d {
      InArray(s.arr, s.owner, pg, c);
      if c in s.arr[pg] {
        var v :| 0 <= v < |s.arr[pg]| && s.arr[pg][v] == c;
        assert OnDev(s.dev, s.heaps, ChunkAt(s.arr, Slot(pg, v)), s.arr[pg][0]);
      }
    }
    JoinNoDup(s.heaps[d], s.arr[pg]);
  }

  lemma JoinNoDup(a: seq<Chunk>, b: seq<Chunk>)
    requires NoDup(a) && NoDup(b) && forall c :: c in b ==> c !in a
    ensures NoDup(a + b)
  {
    assert forall j :: 0 <= j < |a + b| ==> (a + b)[j] in if j < |a| then a else b;
  }

  lemma DestroySlots(arr: Arrays, owner: map<Chunk, Owner>, pg: nat, owner': map<Chunk, Owner>)
    requires SlotsOk(arr, owner) && pg in arr
    requires owner' == map c | c in owner :: if c in arr[pg] then Heap else owner[c]
    ensures SlotsOk(arr - {pg}, owner')
  {
    forall a | IsSlot(arr - {pg}, a)
      ensures ChunkAt(arr - {pg}, a) in owner' && owner'[ChunkAt(arr - {pg}, a)] == InPg(a)
    {
      assert IsSlot(arr, a) && ChunkAt(arr, a) == ChunkAt(arr - {pg}, a);
      InArray(arr, owner, pg, ChunkAt(arr, a));
    }
    forall c | c in owner' && owner'[c].InPg?
      ensures IsSlot(arr - {pg}, owner'[c].slot) && ChunkAt(arr - {pg}, owner'[c].slot) == c
    {
      InArray(arr, owner, pg, c);
      assert ChunkAt(arr, owner[c].slot) == c;
    }
  }

  lemma DestroyChunks(s: Selector, pg: nat)
    requires ChunksOk(s.info, s.owner, s.tasks) && SlotsOk(s.arr, s.owner) && NoTaskIn(s.tasks, pg)
    requires pg in s.arr && s.arr[pg] != [] && s.arr[pg][0] in s.dev && s.dev[s.arr[pg][0]] in s.heaps
    ensures ChunksOk(Destroyed(s, pg).info, Destroyed(s, pg).owner, s.tasks)
  {
    var t := Destroyed(s, pg);
    forall c | c in t.info ensures ChunkOk(t.info, t.owner, s.tasks, c) {
      assert ChunkOk(s.info, s.owner, s.tasks, c);
      InArray(s.arr, s.owner, pg, c);
      if c !in s.arr[pg] && s.owner[c].InPg? && s.owner[c].slot in s.tasks && s.tasks[s.owner[c].slot].Switched? {
        InArray(s.arr, s.owner, pg, s.tasks[s.owner[c].slot].from);
      }
    }
  }

  lemma DestroyDevs(dev: map<Chunk, Dev>, heaps: map<Dev, seq<Chunk>>, arr: Arrays, pg: nat, d: Dev, heap: seq<Chunk>)
    requires DevOk(dev, heaps, arr)
    ensures DevOk(dev, heaps[d := heap], arr - {pg})
  {
    forall a | IsSlot(arr - {pg}, a)
      ensures OnDev(dev, heaps[d := heap], ChunkAt(arr - {pg}, a), (arr - {pg})[a.pg][0])
    {
      assert OnDev(dev, heaps, ChunkAt(arr, a), arr[a.pg][0]);
    }
  }

  /** A PG none of whose chunks is under GC can be destroyed, and its chunks are fit
      for the next PG. */
  lemma DestroyedOk(s: Selector, pg: nat)
    requires Ok(s) && pg in s.arr && s.arr[pg] != [] && NoTaskIn(s.tasks, pg)
    ensures s.arr[pg][0] in s.dev && s.dev[s.arr[pg][0]] in s.heaps && Ok(Destroyed(s, pg))
  {
    assert OnDev(s.dev, s.heaps, ChunkAt(s.arr, Slot(pg, 0)), s.arr[pg][0]);
    var t, d := Destroyed(s, pg), s.dev[s.arr[pg][0]];
    DestroyHeaps(s, pg);
    DestroySlots(s.arr, s.owner, pg, t.owner);
    DestroyChunks(s, pg);
    DestroyDevs(s.dev, s.heaps, s.arr, pg, d, s.heaps[d] + s.arr[pg]);
    DestroyTasks(s, pg);
  }

  lemma DestroyTasks(s: Selector, pg: nat)
    requires TasksOk(s.arr, s.num, s.blks, s.tasks, s.frozen) && NoTaskIn(s.tasks, pg)
    ensures TasksOk(s.arr - {pg}, s.num - {pg}, s.blks - {pg}, s.tasks, s.frozen)
  {
    var arr := s.arr - {pg};
    forall a | a in s.tasks ensures IsSlot(arr, a) {
      assert IsSlot(s.arr, a);
    }
  }

  /** What the methods rely on: slots hold known chunks and PGs have counters. */
  ghost predicate Shape(info: map<Chunk, Info>, arr: Arrays, num: map<nat, int>, blks: map<nat, int>) {
    forall pg :: pg in arr ==> pg in num && pg in blks && forall c :: c in arr[pg] ==> c in info
  }

  lemma OkHasShape(s: Selector)
    requires Ok(s)
    ensures Shape(s.info, s.arr, s.num, s.blks)
  {
    forall pg, c | pg in s.arr && c in s.arr[pg] ensures c in s.info {
      InArray(s.arr, s.owner, pg, c);
    }
  }
}
