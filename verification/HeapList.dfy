/** The free list: circular, sorted by address, starting at `base`, with no two free blocks adjacent. */
module HeapList {
  import opened HeapBlocks

  // list is the free list from base on; blocks holds every block, free or live, by address.
  datatype Heap = Heap(list: seq<nat>, blocks: map<nat, nat>, live: set<nat>, owned: set<nat>)

  ghost predicate Sorted(list: seq<nat>) {
    forall i, j :: 0 <= i < j < |list| ==> list[i] < list[j]
  }

  predicate IsFree(h: Heap, a: nat) {
    a in h.blocks && a !in h.live
  }

  // No two free blocks touch.
  ghost predicate Coalesced(h: Heap) {
    forall a, b :: IsFree(h, a) && IsFree(h, b) ==> !Touch(h.blocks, a, b)
  }

  predicate Touch(blocks: map<nat, nat>, a: nat, b: nat)
    requires a in blocks
  {
    a + blocks[a] == b
  }

  ghost predicate Listed(base: nat, h: Heap) {
    && |h.list| > 0 && h.list[0] == base && Sorted(h.list)
    && (forall i :: 0 < i < |h.list| ==> IsFree(h, h.list[i]))
    && (forall a :: IsFree(h, a) ==> a in h.list)
  }

  ghost predicate Good(base: nat, h: Heap) {
    && h.live <= h.blocks.Keys && (forall a :: a in h.blocks ==> base < a)
    && Tiles(h.blocks, h.owned) && Listed(base, h) && Coalesced(h)
  }

  // ----- sequences -----

  function Put(list: seq<nat>, i: nat, x: nat): seq<nat>
    requires i < |list|
  {
    list[..i + 1] + [x] + list[i + 1..]
  }

  function Drop(list: seq<nat>, i: nat): seq<nat>
    requires i < |list|
  {
    list[..i] + list[i + 1..]
  }

  lemma PutSorted(list: seq<nat>, i: nat, x: nat)
    requires Sorted(list) && i < |list| && list[i] < x && (i + 1 < |list| ==> x < list[i + 1])
    ensures Sorted(Put(list, i, x)) && forall a :: a in Put(list, i, x) <==> a in list || a == x
  {
    assert list == list[..i + 1] + list[i + 1..];
  }

  lemma DropSorted(list: seq<nat>, i: nat)
    requires Sorted(list) && i < |list|
    ensures Sorted(Drop(list, i)) && forall a :: a in Drop(list, i) <==> a in list && a != list[i]
  {
    assert list == list[..i] + [list[i]] + list[i + 1..];
    forall a | a in Drop(list, i) ensures a != list[i] {
      if a in list[..i] {
        var j :| 0 <= j < i && list[j] == a;
      } else {
        var j :| 0 <= j < |list| - i - 1 && list[i + 1..][j] == a;
        assert list[i + 1 + j] == a;
      }
    }
  }

  // `list[i]` is the last entry below `x`.
  ghost predicate Before(list: seq<nat>, i: nat, x: nat) {
    i < |list| && list[i] < x && (i + 1 < |list| ==> x < list[i + 1])
  }

  // ----- links -----

  predicate LinkAt(ptr: map<nat, nat>, list: seq<nat>, i: nat)
    requires i < |list|
  {
    list[i] in ptr && ptr[list[i]] == if i + 1 < |list| then list[i + 1] else list[0]
  }

  ghost predicate Linked(ptr: map<nat, nat>, list: seq<nat>) {
    forall i :: 0 <= i < |list| ==> LinkAt(ptr, list, i)
  }

  lemma PutLinked(ptr: map<nat, nat>, list: seq<nat>, i: nat, x: nat)
    requires Linked(ptr, list) && Sorted(list) && Before(list, i, x)
    ensures list[i] in ptr && Linked(ptr[x := ptr[list[i]]][list[i] := x], Put(list, i, x))
  {
    assert LinkAt(ptr, list, i);
    var ptr', list' := ptr[x := ptr[list[i]]][list[i] := x], Put(list, i, x);
    forall k | 0 <= k < |list'| ensures LinkAt(ptr', list', k) {
      if k < i {
        assert LinkAt(ptr, list, k);
      } else if k > i + 1 {
        assert LinkAt(ptr, list, k - 1);
      }
    }
  }

  // Unlinking the entry after `list[i]`.
  lemma DropLinked(ptr: map<nat, nat>, list: seq<nat>, i: nat)
    requires Linked(ptr, list) && Sorted(list) && i + 1 < |list|
    ensures list[i + 1] in ptr && Linked(ptr[list[i] := ptr[list[i + 1]]], Drop(list, i + 1))
  {
    assert LinkAt(ptr, list, i + 1);
    var ptr', list' := ptr[list[i] := ptr[list[i + 1]]], Drop(list, i + 1);
    forall k | 0 <= k < |list'| ensures LinkAt(ptr', list', k) {
      if k < i {
        assert LinkAt(ptr, list, k);
      } else if k > i {
        assert LinkAt(ptr, list, k + 1);
      }
    }
  }

  // Writes outside the list leave it linked.
  lemma LinkedFrame(ptr: map<nat, nat>, list: seq<nat>, x: nat, v: nat)
    requires Linked(ptr, list) && x !in list
    ensures Linked(ptr[x := v], list)
  {
    var ptr' := ptr[x := v];
    forall k | 0 <= k < |list| ensures LinkAt(ptr', list, k) { assert LinkAt(ptr, list, k); }
  }

  // ----- free -----

  // The block after live block `b`, if free, joins it.
  function JoinNext(h: Heap, i: nat, b: nat): Heap
    requires i < |h.list| && b in h.blocks
  {
    if i + 1 < |h.list| && Touch(h.blocks, b, h.list[i + 1]) && h.list[i + 1] in h.blocks
    then h.(list := Drop(h.list, i + 1), blocks := Join(h.blocks, b)) else h
  }

  // Live block `b` joins the free block before it, or becomes a free block of its own.
  function JoinPrev(h: Heap, i: nat, b: nat): Heap
    requires i < |h.list| && b in h.blocks
  {
    if i > 0 && h.list[i] in h.blocks && Touch(h.blocks, h.list[i], b)
    then h.(blocks := Join(h.blocks, h.list[i]), live := h.live - {b})
    else h.(list := Put(h.list, i, b), live := h.live - {b})
  }

  // The only free block that can start where `b` ends is the next one in the list.
  lemma OnlyNext(base: nat, h: Heap, i: nat, b: nat, c: nat)
    requires Good(base, h) && b in h.live && Before(h.list, i, b) && IsFree(h, c) && Touch(h.blocks, b, c)
    ensures i + 1 < |h.list| && c == h.list[i + 1]
  {
    var j :| 0 <= j < |h.list| && h.list[j] == c;
    assert i < j && IsFree(h, h.list[i + 1]) && Clear(b, h.blocks[b], h.list[i + 1], h.blocks[h.list[i + 1]]);
  }

  // The only free block that can end where `b` starts is the previous one.
  lemma OnlyPrev(base: nat, h: Heap, i: nat, b: nat, c: nat)
    requires Good(base, h) && b in h.live && Before(h.list, i, b) && IsFree(h, c) && Touch(h.blocks, c, b)
    ensures i > 0 && c == h.list[i]
  {
    var j :| 0 <= j < |h.list| && h.list[j] == c;
    assert 0 < j <= i;
    assert IsFree(h, h.list[i]);
    assert (c != h.list[i] ==> Clear(c, h.blocks[c], h.list[i], h.blocks[h.list[i]]));
  }

  lemma JoinNextGood(base: nat, h: Heap, i: nat, b: nat)
    requires Good(base, h) && b in h.live && Before(h.list, i, b)
    ensures var h' := JoinNext(h, i, b);
      Good(base, h') && Before(h'.list, i, b) && h'.live == h.live && h'.owned == h.owned &&
      forall c :: IsFree(h', c) ==> !Touch(h'.blocks, b, c)
  {
    var h' := JoinNext(h, i, b);
    if h' == h {
      forall c | IsFree(h, c) ensures !Touch(h.blocks, b, c) {
        if Touch(h.blocks, b, c) { OnlyNext(base, h, i, b, c); }
      }
    } else {
      JoinTiles(h.blocks, h.owned, b);
      DropSorted(h.list, i + 1);
      JoinNextListed(base, h, i, b);
      JoinNextApart(base, h, i, b);
    }
  }

  lemma JoinNextListed(base: nat, h: Heap, i: nat, b: nat)
    requires Good(base, h) && b in h.live && Before(h.list, i, b)
    requires i + 1 < |h.list| && h.list[i + 1] in h.blocks && Touch(h.blocks, b, h.list[i + 1])
    requires forall a :: a in Drop(h.list, i + 1) <==> a in h.list && a != h.list[i + 1]
    requires Sorted(Drop(h.list, i + 1))
    ensures Listed(base, JoinNext(h, i, b)) && Before(Drop(h.list, i + 1), i, b)
  {
    var h' := JoinNext(h, i, b);
    forall k | 0 < k < |h'.list| ensures IsFree(h', h'.list[k]) {
      assert h'.list[k] in Drop(h.list, i + 1);
      assert h'.list[0] < h'.list[k];
    }
    forall a | IsFree(h', a) ensures a in h'.list { assert IsFree(h, a); }
  }

  lemma JoinNextApart(base: nat, h: Heap, i: nat, b: nat)
    requires Good(base, h) && b in h.live && Before(h.list, i, b)
    requires i + 1 < |h.list| && h.list[i + 1] in h.blocks && Touch(h.blocks, b, h.list[i + 1])
    ensures var h' := JoinNext(h, i, b); Coalesced(h') && forall c :: IsFree(h', c) ==> !Touch(h'.blocks, b, c)
  {
    var h', n := JoinNext(h, i, b), h.list[i + 1];
    forall a, c | IsFree(h', a) && IsFree(h', c) ensures !Touch(h'.blocks, a, c) {
      assert IsFree(h, a) && IsFree(h, c) && !Touch(h.blocks, a, c);
    }
    forall c | IsFree(h', c) ensures !Touch(h'.blocks, b, c) {
      assert IsFree(h, n) && IsFree(h, c) && !Touch(h.blocks, n, c);
    }
  }

  lemma JoinPrevGood(base: nat, h: Heap, i: nat, b: nat)
    requires Good(base, h) && b in h.live && Before(h.list, i, b) && forall c :: IsFree(h, c) ==> !Touch(h.blocks, b, c)
    ensures Good(base, JoinPrev(h, i, b))
  {
    if i > 0 && h.list[i] in h.blocks && Touch(h.blocks, h.list[i], b) {
      MergedPrev(base, h, i, b);
    } else {
      NewFree(base, h, i, b);
    }
  }

  lemma MergedPrev(base: nat, h: Heap, i: nat, b: nat)
    requires Good(base, h) && b in h.live && Before(h.list, i, b) && forall c :: IsFree(h, c) ==> !Touch(h.blocks, b, c)
    requires i > 0 && h.list[i] in h.blocks && Touch(h.blocks, h.list[i], b)
    ensures Good(base, h.(blocks := Join(h.blocks, h.list[i]), live := h.live - {b}))
  {
    var p := h.list[i];
    var h' := h.(blocks := Join(h.blocks, p), live := h.live - {b});
    JoinTiles(h.blocks, h.owned, p);
    forall a ensures IsFree(h', a) <==> IsFree(h, a) { }
    forall a, c | IsFree(h', a) && IsFree(h', c) ensures !Touch(h'.blocks, a, c) {
      assert IsFree(h, a) && IsFree(h, c) && !Touch(h.blocks, a, c) && !Touch(h.blocks, b, c);
    }
  }

  lemma NewFree(base: nat, h: Heap, i: nat, b: nat)
    requires Good(base, h) && b in h.live && Before(h.list, i, b) && forall c :: IsFree(h, c) ==> !Touch(h.blocks, b, c)
    requires !(i > 0 && h.list[i] in h.blocks && Touch(h.blocks, h.list[i], b))
    ensures Good(base, h.(list := Put(h.list, i, b), live := h.live - {b}))
  {
    var h' := h.(list := Put(h.list, i, b), live := h.live - {b});
    PutSorted(h.list, i, b);
    NewFreeListed(base, h, i, b);
    forall a, c | IsFree(h', a) && IsFree(h', c) ensures !Touch(h'.blocks, a, c) {
      if c == b && a != b && Touch(h.blocks, a, b) { OnlyPrev(base, h, i, b, a); }
      assert a != b ==> IsFree(h, a);
      assert c != b ==> IsFree(h, c);
    }
  }

  lemma NewFreeListed(base: nat, h: Heap, i: nat, b: nat)
    requires Good(base, h) && b in h.live && Before(h.list, i, b) && Sorted(Put(h.list, i, b))
    requires forall a :: a in Put(h.list, i, b) <==> a in h.list || a == b
    ensures Listed(base, h.(list := Put(h.list, i, b), live := h.live - {b}))
  {
    var h' := h.(list := Put(h.list, i, b), live := h.live - {b});
    forall k | 0 < k < |h'.list| ensures IsFree(h', h'.list[k]) {
      assert h'.list[k] in h'.list;
      assert h'.list[0] < h'.list[k];
    }
    forall a | IsFree(h', a) ensures a in h'.list { assert a != b ==> IsFree(h, a); }
  }

  // ----- malloc -----

  // The whole of the free block `list[j]` is given out.
  function TakeWhole(h: Heap, j: nat): Heap
    requires j < |h.list|
  {
    h.(list := Drop(h.list, j), live := h.live + {h.list[j]})
  }

  // The last `n` units of it are.
  function TakeTail(h: Heap, j: nat, n: nat): Heap
    requires j < |h.list| && h.list[j] in h.blocks && 0 < n < h.blocks[h.list[j]]
  {
    h.(blocks := Cut(h.blocks, h.list[j], n), live := h.live + {h.list[j] + h.blocks[h.list[j]] - n})
  }

  // sbrk returns `n` units at `a`, as a live block.
  function Grow(h: Heap, a: nat, n: nat): Heap {
    h.(blocks := h.blocks[a := n], live := h.live + {a}, owned := h.owned + Units(a, n))
  }

  lemma TakeWholeGood(base: nat, h: Heap, j: nat)
    requires Good(base, h) && 0 < j < |h.list|
    ensures Good(base, TakeWhole(h, j))
  {
    var h' := TakeWhole(h, j);
    DropSorted(h.list, j);
    forall k | 0 < k < |h'.list| ensures IsFree(h', h'.list[k]) {
      assert h'.list[k] in h'.list;
      assert h'.list[0] < h'.list[k];
    }
    forall a | IsFree(h', a) ensures a in h'.list { assert IsFree(h, a); }
    forall a, c | IsFree(h', a) && IsFree(h', c) ensures !Touch(h'.blocks, a, c) {
      assert IsFree(h, a) && IsFree(h, c) && !Touch(h.blocks, a, c);
    }
  }

  lemma TakeTailGood(base: nat, h: Heap, j: nat, n: nat)
    requires Good(base, h) && 0 < j < |h.list| && h.list[j] in h.blocks && 0 < n < h.blocks[h.list[j]]
    ensures h.list[j] + h.blocks[h.list[j]] - n !in h.blocks && Good(base, TakeTail(h, j, n))
  {
    var h', p := TakeTail(h, j, n), h.list[j];
    CutTiles(h.blocks, h.owned, p, n);
    assert IsFree(h, p);
    forall a ensures IsFree(h', a) <==> IsFree(h, a) { }
    forall a, c | IsFree(h', a) && IsFree(h', c) ensures !Touch(h'.blocks, a, c) {
      assert IsFree(h, a) && IsFree(h, c) && !Touch(h.blocks, a, c);
    }
  }

  lemma GrowGood(base: nat, h: Heap, a: nat, n: nat)
    requires Good(base, h) && n > 0 && base < a && forall u :: u in h.owned ==> u < a
    ensures a !in h.blocks && Good(base, Grow(h, a, n))
  {
    var h' := Grow(h, a, n);
    AddTiles(h.blocks, h.owned, a, n);
    forall c ensures IsFree(h', c) <==> IsFree(h, c) { }
    forall b, c | IsFree(h', b) && IsFree(h', c) ensures !Touch(h'.blocks, b, c) {
      assert IsFree(h, b) && IsFree(h, c) && !Touch(h.blocks, b, c);
    }
  }

  // ----- what the operations leave alone -----

  // Live blocks of both heaps have the same size.
  ghost predicate SameLive(h: Heap, h': Heap) {
    forall a :: a in h.live && a in h'.live && a in h.blocks ==> a in h'.blocks && h'.blocks[a] == h.blocks[a]
  }

  // Block `q`, of `n` units, has been given out, and no other.
  ghost predicate Given(h: Heap, h': Heap, q: nat, n: nat) {
    && q !in h.live && h'.live == h.live + {q} && q in h'.blocks && h'.blocks[q] == n
    && SameLive(h, h') && h'.owned == h.owned
  }

  lemma TakeWholeGiven(base: nat, h: Heap, j: nat)
    requires Good(base, h) && 0 < j < |h.list|
    ensures IsFree(h, h.list[j]) && Given(h, TakeWhole(h, j), h.list[j], h.blocks[h.list[j]])
  {
  }

  lemma TakeTailGiven(base: nat, h: Heap, j: nat, n: nat)
    requires Good(base, h) && 0 < j < |h.list| && h.list[j] in h.blocks && 0 < n < h.blocks[h.list[j]]
    requires h.list[j] + h.blocks[h.list[j]] - n !in h.blocks
    ensures Given(h, TakeTail(h, j, n), h.list[j] + h.blocks[h.list[j]] - n, n)
  {
    assert IsFree(h, h.list[j]);
  }

  // Some free block holds the `n` units at `b`.
  ghost predicate FreeHolds(h: Heap, b: nat, n: nat) {
    exists a :: IsFree(h, a) && Covers(h.blocks, a, b, n)
  }

  predicate Covers(blocks: map<nat, nat>, a: nat, b: nat, n: nat)
    requires a in blocks
  {
    a <= b && b + n <= a + blocks[a]
  }

  lemma NextKeepsLive(base: nat, h: Heap, i: nat, b: nat)
    requires Good(base, h) && b in h.live && Before(h.list, i, b)
    ensures var h1 := JoinNext(h, i, b);
      && b in h1.blocks && h.blocks[b] <= h1.blocks[b]
      && (forall a :: a in h.live && a != b ==> a in h1.blocks && h1.blocks[a] == h.blocks[a])
  {
    JoinNextGood(base, h, i, b);
  }

  lemma PrevFrees(base: nat, h: Heap, i: nat, b: nat)
    requires Good(base, h) && b in h.live && Before(h.list, i, b)
    ensures var h2 := JoinPrev(h, i, b);
      && h2.live == h.live - {b} && h2.owned == h.owned && FreeHolds(h2, b, h.blocks[b])
      && (forall a :: a in h.live && a != b ==> a in h2.blocks && h2.blocks[a] == h.blocks[a])
  {
    var h2 := JoinPrev(h, i, b);
    if i > 0 && h.list[i] in h.blocks && Touch(h.blocks, h.list[i], b) {
      assert IsFree(h, h.list[i]);
      assert IsFree(h2, h.list[i]) && Covers(h2.blocks, h.list[i], b, h.blocks[b]);
    } else {
      assert IsFree(h2, b) && Covers(h2.blocks, b, b, h.blocks[b]);
    }
  }

  lemma JoinsKeepLive(base: nat, h: Heap, i: nat, b: nat)
    requires Good(base, h) && b in h.live && Before(h.list, i, b)
    ensures var h1 := JoinNext(h, i, b); Before(h1.list, i, b) ==> var h2 := JoinPrev(h1, i, b);
      SameLive(h, h2) && h2.live == h.live - {b} && h2.owned == h.owned && FreeHolds(h2, b, h.blocks[b])
  {
    var h1 := JoinNext(h, i, b);
    JoinNextGood(base, h, i, b);
    NextKeepsLive(base, h, i, b);
    PrevFrees(base, h1, i, b);
    HoldsLess(JoinPrev(h1, i, b), b, h1.blocks[b], h.blocks[b]);
  }

  lemma HoldsLess(h: Heap, b: nat, n: nat, m: nat)
    requires FreeHolds(h, b, n) && m <= n
    ensures FreeHolds(h, b, m)
  {
    var a :| IsFree(h, a) && Covers(h.blocks, a, b, n);
    assert Covers(h.blocks, a, b, m);
  }
}
