/** umalloc.c: free, morecore and malloc on headers linked through memory. */
module Umalloc {
  import opened Common
  import opened HeapBlocks
  import opened HeapList

  class Allocator {
    const base: nat                 // address of the static header, below the heap
    var ptr: map<nat, nat>          // s.ptr of the header at an address
    var size: map<nat, nat>         // s.size
    var freep: nat                  // 0 before the first call
    ghost var h: Heap

    // The list is set up and sound, wherever freep points.
    ghost predicate Ready() reads this {
      base > 0 && Good(base, h) && Linked(ptr, h.list) && freep in h.list && Sizes(base, size, h)
    }

    ghost predicate Valid() reads this {
      && base > 0 && (freep == 0 ==> h == Heap([], map[], {}, {}))
      && (freep != 0 ==> Ready())
    }

    constructor (base: nat)
      requires base > 0
      ensures Valid() && freep == 0
    {
      this.base := base;
      ptr, size, freep, h := map[], map[], 0, Heap([], map[], {}, {});
    }

    // ----- free -----

    // The search of free: it ends, at the last list entry below `bp`.
    method FindPlace(bp: nat) returns (p: nat, ghost i: nat)
      requires Ready() && bp in h.live
      ensures Before(h.list, i, bp) && p == h.list[i]
      ensures p in h.list && p < bp && forall a :: a in h.list && a < bp ==> a <= p
    {
      ghost var t, k := PlaceOf(base, h, bp), |h.list|;
      p := freep;
      i := IndexOf(h.list, freep);
      StopsAt(base, h, ptr, i, bp);
      while !(bp > p && bp < ptr[p])
        invariant i < k && p == h.list[i] && p in ptr && ptr[p] == h.list[Succ(k, i)]
        invariant Stops(p, ptr[p], bp) <==> Before(h.list, i, bp)
        decreases Steps(k, i, t)
      {
        if p >= ptr[p] && (bp > p || bp < ptr[p]) {
          break;
        }
        p := ptr[p];
        i := Succ(k, i);
        StopsAt(base, h, ptr, i, bp);
      }
      LastBelow(h.list, i, bp);
    }

    // bp takes in the block after it, if that is free.
    method TakeNext(bp: nat, p: nat, ghost i: nat)
      requires Ready() && bp in h.live && Before(h.list, i, bp) && p == h.list[i]
      modifies `ptr, `size, `h
      ensures h == JoinNext(old(h), i, bp) && Sizes(base, size, h)
      ensures bp in ptr && p in ptr && Linked(ptr[p := ptr[bp]], h.list)
    {
      NextLinks(base, h, ptr, i, bp);
      NextSizes(base, h, size, i, bp);
      assert LinkAt(ptr, h.list, i);
      var next := ptr[p];
      if bp + size[bp] == next {
        size := size[bp := size[bp] + size[next]];
        ptr := ptr[bp := ptr[next]];
      } else {
        ptr := ptr[bp := next];
      }
      h := JoinNext(h, i, bp);
    }

    // The block before takes in bp, if it is free, or else bp is linked in.
    method TakePrev(bp: nat, p: nat, ghost i: nat)
      requires Good(base, h) && Sizes(base, size, h) && bp in h.live && Before(h.list, i, bp) && p == h.list[i]
      requires bp in ptr && p in ptr && Linked(ptr[p := ptr[bp]], h.list)
      modifies `ptr, `size, `h
      ensures h == JoinPrev(old(h), i, bp) && Sizes(base, size, h) && Linked(ptr, h.list)
    {
      PrevLinks(base, h, ptr, i, bp);
      PrevSizes(base, h, size, i, bp);
      if p + size[p] == bp {
        size := size[p := size[p] + size[bp]];
        ptr := ptr[p := ptr[bp]];
      } else {
        ptr := ptr[p := bp];
      }
      h := JoinPrev(h, i, bp);
    }

    /**
     free: the block's units go back to the free list, joined with what they touch,
     and no other block given out is affected.
     */
    method Free(ap: nat)
      requires Ready() && ap > 0 && ap - 1 in h.live
      modifies this
      ensures Ready() && h.live == old(h).live - {ap - 1} && h.owned == old(h).owned && SameLive(old(h), h)
      ensures FreeHolds(h, ap - 1, old(h).blocks[ap - 1])
    {
      var bp := ap - 1;
      var p;
      ghost var i;
      p, i := FindPlace(bp);
      JoinNextGood(base, h, i, bp);
      JoinsKeepLive(base, h, i, bp);
      JoinPrevGood(base, JoinNext(h, i, bp), i, bp);
      TakeNext(bp, p, i);
      PrevKeepsPlace(h, i, bp);
      TakePrev(bp, p, i);
      freep := p;
    }

    // ----- malloc -----

    // sbrk answers with `grant`; memory it gives lies above what it gave before.
    ghost predicate Fresh(grant: Option<nat>) reads this {
      grant.Some? ==> base < grant.value && forall u :: u in h.owned ==> u < grant.value
    }

    /** morecore: at least 4096 units are obtained and freed, or sbrk refused and nothing changed. */
    method MoreCore(nunits: nat, grant: Option<nat>) returns (ok: bool)
      requires Ready() && Fresh(grant)
      modifies this
      ensures Ready() && ok == grant.Some?
      ensures !ok ==> h == old(h) && freep == old(freep)
      ensures ok ==> h.live == old(h).live && SameLive(old(h), h)
      ensures ok ==>
        h.owned == old(h).owned + Units(grant.value, CoreSize(nunits)) && FreeHolds(h, grant.value, CoreSize(nunits))
    {
      var nu := nunits;
      if nu < 4096 {
        nu := 4096;
      }
      if grant.None? {
        return false;
      }
      var hp := grant.value;
      GrowGood(base, h, hp, nu);
      size := size[hp := nu];
      h := Grow(h, hp, nu);
      Free(hp + 1);
      ok := true;
    }

    // p, found large enough, is cut or unlinked.
    method TakeAt(prevp: nat, p: nat, nunits: nat) returns (q: nat)
      requires Ready() && prevp in h.list && p in h.list && prevp in ptr && ptr[prevp] == p && 0 < nunits && p in size
      requires size[p] >= nunits
      modifies this
      ensures Ready() && freep == prevp && Given(old(h), h, q, nunits)
    {
      ghost var i := PrevIndex(base, h, ptr, size, prevp, p);
      SizeAt(base, h, size, i + 1);
      if size[p] == nunits {
        TakeExact(prevp, p, i);
        q := p;
      } else {
        q := TakeCut(prevp, p, nunits, i + 1);
      }
      freep := prevp;
    }

    method TakeExact(prevp: nat, p: nat, ghost i: nat)
      requires Ready() && i + 1 < |h.list| && h.list[i] == prevp && h.list[i + 1] == p
      modifies `ptr, `h
      ensures p in old(h).blocks && Given(old(h), h, p, old(h).blocks[p]) && prevp in h.list
      ensures Good(base, h) && Linked(ptr, h.list) && Sizes(base, size, h)
    {
      TakeWholeGood(base, h, i + 1);
      TakeWholeGiven(base, h, i + 1);
      DropLinked(ptr, h.list, i);
      DropSorted(h.list, i + 1);
      ptr := ptr[prevp := ptr[p]];
      h := TakeWhole(h, i + 1);
    }

    method TakeCut(prevp: nat, p: nat, nunits: nat, ghost j: nat) returns (q: nat)
      requires Ready() && 0 < j < |h.list| && h.list[j] == p && 0 < nunits && p in size && nunits < size[p]
      requires prevp in h.list
      modifies `size, `h
      ensures Given(old(h), h, q, nunits) && prevp in h.list
      ensures Good(base, h) && Linked(ptr, h.list) && Sizes(base, size, h)
    {
      assert IsFree(h, h.list[j]);
      TakeTailGood(base, h, j, nunits);
      TakeTailGiven(base, h, j, nunits);
      size := size[p := size[p] - nunits];
      q := p + size[p];
      size := size[q := nunits];
      h := TakeTail(h, j, nunits);
    }

    // The part of malloc before its loop.
    method Start()
      requires Valid()
      modifies this
      ensures Ready() && h.live == old(h).live && h.blocks == old(h).blocks && h.owned == old(h).owned
      ensures old(freep) != 0 ==> h == old(h)
    {
      if freep == 0 {
        freep := base;
        ptr := ptr[base := base];
        size := size[base := 0];
        h := Heap([base], map[], {}, {});
        assert Tiles(h.blocks, h.owned) by { assert forall u: nat :: !In(h.blocks, u); }
      }
    }

    /**
     malloc: a block of the size asked for, apart from all others; memory is
     requested at most once, and only when no free block is large enough.
     */
    method Malloc(nbytes: nat, grant: Option<nat>) returns (r: nat, ghost calls: nat)
      requires Valid() && Fresh(grant) && HeaderUnits(nbytes) < 0x800_0000
      modifies this
      ensures Valid() && Answered(old(h), h, r, HeaderUnits(nbytes), calls, grant)
      ensures r != 0 ==> 16 * (h.blocks[r - 1] - 2) < nbytes <= 16 * (h.blocks[r - 1] - 1)
    {
      r, calls := MallocUnits(HeaderUnits(nbytes), grant);
    }

    method MallocUnits(nunits: nat, grant: Option<nat>) returns (r: nat, ghost calls: nat)
      requires Valid() && Fresh(grant) && nunits > 0
      modifies this
      ensures Valid() && Answered(old(h), h, r, nunits, calls, grant)
    {
      Start();
      ghost var h1 := h;
      r, calls := Search(nunits, grant);
      AnsweredFrom(old(h), h1, h, r, nunits, calls, grant);
    }

    // malloc's loop.
    method Search(nunits: nat, grant: Option<nat>) returns (r: nat, ghost calls: nat)
      requires Ready() && Fresh(grant) && nunits > 0
      modifies this
      ensures Ready() && Answered(old(h), h, r, nunits, calls, grant)
    {
      ghost var f: nat := IndexOf(h.list, freep);
      ghost var b: nat := Succ(|h.list|, f);
      calls := 0;
      NextEntry(ptr, h.list, f);
      var prevp := freep;
      var p := ptr[prevp];
      while true
        invariant Ready() && Searching(old(h), h, size, freep, p, f, b, nunits, calls, grant)
        invariant prevp in h.list && prevp in ptr && ptr[prevp] == p
        decreases 1 - calls, Steps(|h.list|, b, f)
      {
        SizeAt(base, h, size, b);
        if size[p] >= nunits {
          r := Give(prevp, p, nunits, grant, old(h), f, b, calls);
          return;
        }
        if p == freep {
          var ok;
          ok, f := Refill(nunits, grant, old(h), f, b, calls);
          calls := 1;
          if !ok {
            return 0, calls;
          }
          p := freep;
          b := f;
        } else {
          SearchNext(base, old(h), h, size, freep, p, f, b, nunits, calls, grant);
        }
        NextEntry(ptr, h.list, b);
        prevp := p;
        p := ptr[p];
        b := Succ(|h.list|, b);
      }
    }

    // The block found is given out.
    method Give(prevp: nat, p: nat, nunits: nat, grant: Option<nat>, ghost h0: Heap, ghost f: nat, ghost b: nat,
                ghost calls: nat) returns (r: nat)
      requires Ready() && Searching(h0, h, size, freep, p, f, b, nunits, calls, grant)
      requires prevp in h.list && prevp in ptr && ptr[prevp] == p && 0 < nunits && p in size && size[p] >= nunits
      modifies this
      ensures Ready() && Answered(h0, h, r, nunits, calls, grant)
    {
      var q := TakeAt(prevp, p, nunits);
      r := q + 1;
    }

    // Back at freep: morecore, and the search starts over after the new freep.
    method Refill(nunits: nat, grant: Option<nat>, ghost h0: Heap, ghost f: nat, ghost b: nat, ghost calls: nat)
      returns (ok: bool, ghost f': nat)
      requires Ready() && Searching(h0, h, size, freep, freep, f, b, nunits, calls, grant) && freep in size
      requires size[freep] < nunits
      requires h == h0 ==> Fresh(grant)
      modifies this
      ensures Ready() && ok == grant.Some? && calls == 0 && forall a :: IsFree(h0, a) ==> h0.blocks[a] < nunits
      ensures !ok ==> h == h0
      ensures ok ==> f' < |h.list| && h.list[f'] == freep
      ensures ok ==> Searching(h0, h, size, freep, h.list[Succ(|h.list|, f')], f', Succ(|h.list|, f'), nunits, 1, grant)
    {
      AllSmall(base, h, size, f, b, nunits);
      f' := f;
      ok := MoreCore(nunits, grant);
      if ok {
        RoomFound(h, grant.value, nunits);
        f' := IndexOf(h.list, freep);
      }
    }
  }

  // malloc's answer `r`, after `calls` calls of morecore.
  ghost predicate Answered(h0: Heap, h: Heap, r: nat, n: nat, calls: nat, grant: Option<nat>) {
    && calls <= 1 && SameLive(h0, h)
    && (r != 0 ==> r - 1 !in h0.live && h.live == h0.live + {r - 1} && r - 1 in h.blocks && h.blocks[r - 1] == n)
    && (r == 0 ==> h.live == h0.live && calls == 1 && grant.None?)
    && (h.owned == if calls == 1 && grant.Some? then h0.owned + Units(grant.value, CoreSize(n)) else h0.owned)
    && (calls == 1 ==> forall a :: IsFree(h0, a) ==> h0.blocks[a] < n)
  }

  lemma AnsweredFrom(h0: Heap, h1: Heap, h: Heap, r: nat, n: nat, calls: nat, grant: Option<nat>)
    requires Answered(h1, h, r, n, calls, grant) && h1.live == h0.live && h1.blocks == h0.blocks && h1.owned == h0.owned
    ensures Answered(h0, h, r, n, calls, grant)
  {
    assert forall a :: IsFree(h0, a) ==> IsFree(h1, a);
  }

  lemma SearchNext(base: nat, h0: Heap, h: Heap, size: map<nat, nat>, freep: nat, p: nat, f: nat, b: nat, n: nat,
                   calls: nat, grant: Option<nat>)
    requires Good(base, h) && Searching(h0, h, size, freep, p, f, b, n, calls, grant) && p != freep && p in size
    requires size[p] < n
    ensures var b' := Succ(|h.list|, b);
      Searching(h0, h, size, freep, h.list[b'], f, b', n, calls, grant) &&
      Steps(|h.list|, b', f) < Steps(|h.list|, b, f)
  {
    ScanNext(base, h, size, f, b, n);
  }

  // malloc's loop at list entry `b`, after `calls` calls of morecore.
  ghost predicate Searching(h0: Heap, h: Heap, size: map<nat, nat>, freep: nat, p: nat, f: nat, b: nat, n: nat,
                            calls: nat, grant: Option<nat>) {
    && f < |h.list| && b < |h.list| && h.list[f] == freep && h.list[b] == p && Scanned(h, size, f, b, n)
    && calls <= 1 && SameLive(h0, h) && h.live == h0.live
    && (calls == 0 ==> h == h0)
    && (calls == 1 ==> grant.Some? && h.owned == h0.owned + Units(grant.value, CoreSize(n)) && HasRoom(h, n))
    && (calls == 1 ==> forall a :: IsFree(h0, a) ==> h0.blocks[a] < n)
  }

  // The units asked for, header included.
  function HeaderUnits(nbytes: nat): (n: nat)
    ensures 16 * (n - 2) < nbytes <= 16 * (n - 1)
  {
    (nbytes + 15) / 16 + 1
  }

  function CoreSize(nunits: nat): (n: nat)
    ensures n >= 4096 && n >= nunits && (n == 4096 || n == nunits)
  {
    if nunits < 4096 then 4096 else nunits
  }

  // The entries malloc has passed, from the one after freep on, are too small.
  ghost predicate Scanned(h: Heap, size: map<nat, nat>, f: nat, b: nat, n: nat)
    requires f < |h.list| && b < |h.list|
  {
    forall x :: 0 <= x < |h.list| && Steps(|h.list|, x, f) > Steps(|h.list|, b, f) ==>
      h.list[x] in size && size[h.list[x]] < n
  }

  ghost predicate HasRoom(h: Heap, n: nat) {
    exists a :: IsFree(h, a) && h.blocks[a] >= n
  }

  lemma RoomFound(h: Heap, b: nat, n: nat)
    requires FreeHolds(h, b, CoreSize(n))
    ensures HasRoom(h, n)
  {
    var a :| IsFree(h, a) && Covers(h.blocks, a, b, CoreSize(n));
    assert h.blocks[a] >= n;
  }

  lemma NextEntry(ptr: map<nat, nat>, list: seq<nat>, b: nat)
    requires Linked(ptr, list) && b < |list|
    ensures list[b] in ptr && ptr[list[b]] == list[Succ(|list|, b)] && list[b] in list
  {
    assert LinkAt(ptr, list, b);
  }

  lemma SizeAt(base: nat, h: Heap, size: map<nat, nat>, b: nat)
    requires Good(base, h) && Sizes(base, size, h) && b < |h.list|
    ensures h.list[b] in size && (b > 0 ==> IsFree(h, h.list[b]) && size[h.list[b]] == h.blocks[h.list[b]])
  {
  }

  lemma ScanNext(base: nat, h: Heap, size: map<nat, nat>, f: nat, b: nat, n: nat)
    requires Good(base, h) && f < |h.list| && b < |h.list| && b != f && Scanned(h, size, f, b, n) && h.list[b] in size
    requires size[h.list[b]] < n
    ensures Steps(|h.list|, Succ(|h.list|, b), f) < Steps(|h.list|, b, f) && Scanned(h, size, f, Succ(|h.list|, b), n)
  {
    var k := |h.list|;
    forall x | 0 <= x < k && Steps(k, x, f) > Steps(k, Succ(k, b), f) ensures h.list[x] in size && size[h.list[x]] < n {
      if x != b { assert Steps(k, x, f) != Steps(k, b, f); }
    }
  }

  // Back at freep with every entry too small, no free block is large enough.
  lemma AllSmall(base: nat, h: Heap, size: map<nat, nat>, f: nat, b: nat, n: nat)
    requires Good(base, h) && Sizes(base, size, h) && f < |h.list| && b < |h.list| && h.list[b] == h.list[f]
    requires Scanned(h, size, f, b, n)
    requires h.list[b] in size && size[h.list[b]] < n
    ensures !HasRoom(h, n) && forall a :: IsFree(h, a) ==> h.blocks[a] < n
  {
    assert b == f;
    forall a | IsFree(h, a) ensures h.blocks[a] < n {
      var x: nat :| x < |h.list| && h.list[x] == a;
      assert x != f ==> Steps(|h.list|, x, f) > 0;
    }
  }

  // The predecessor of a free block in the list.
  ghost function PrevIndex(base: nat, h: Heap, ptr: map<nat, nat>, size: map<nat, nat>, prevp: nat, p: nat): (i: nat)
    requires Good(base, h) && Linked(ptr, h.list) && Sizes(base, size, h) && prevp in h.list && p in h.list && p in size
    requires size[p] > 0
    requires prevp in ptr && ptr[prevp] == p
    ensures i + 1 < |h.list| && h.list[i] == prevp && h.list[i + 1] == p
  {
    var i := IndexOf(h.list, prevp);
    assert LinkAt(ptr, h.list, i);
    i
  }

  ghost predicate Sizes(base: nat, size: map<nat, nat>, h: Heap) {
    base in size && size[base] == 0 && forall a :: a in h.blocks ==> a in size && size[a] == h.blocks[a]
  }

  // Positions around a circle of `k`.
  function Succ(k: nat, i: nat): nat
    requires i < k
  {
    if i + 1 < k then i + 1 else 0
  }

  function Steps(k: nat, i: nat, t: nat): nat
    requires i < k && t < k
  {
    if i <= t then t - i else t - i + k
  }

  ghost function IndexOf(list: seq<nat>, x: nat): (i: nat)
    requires x in list
    ensures i < |list| && list[i] == x
  {
    var i: nat :| i < |list| && list[i] == x;
    i
  }

  // free's search stops at `p` with successor `n`.
  predicate Stops(p: nat, n: nat, bp: nat) {
    (bp > p && bp < n) || (p >= n && (bp > p || bp < n))
  }

  lemma StopsAt(base: nat, h: Heap, ptr: map<nat, nat>, i: nat, bp: nat)
    requires Good(base, h) && Linked(ptr, h.list) && bp in h.live && i < |h.list|
    ensures h.list[i] in ptr && ptr[h.list[i]] == h.list[Succ(|h.list|, i)]
    ensures Stops(h.list[i], ptr[h.list[i]], bp) <==> Before(h.list, i, bp)
  {
    assert LinkAt(ptr, h.list, i);
    LiveNotListed(base, h, bp);
    assert base < bp && (i > 0 ==> h.list[0] < h.list[i]) && (i + 1 < |h.list| ==> h.list[i] < h.list[i + 1]);
  }

  lemma LastBelow(list: seq<nat>, i: nat, x: nat)
    requires Sorted(list) && Before(list, i, x)
    ensures forall a :: a in list && a < x ==> a <= list[i]
  {
  }

  ghost function PlaceOf(base: nat, h: Heap, bp: nat): (i: nat)
    requires Good(base, h) && bp in h.live
    ensures Before(h.list, i, bp)
  {
    PlaceExists(h.list, bp);
    LiveNotListed(base, h, bp);
    var i: nat :| i < |h.list| && h.list[i] < bp && (i + 1 < |h.list| ==> bp <= h.list[i + 1]);
    i
  }

  lemma {:induction false} PlaceExists(list: seq<nat>, x: nat)
    requires |list| > 0 && list[0] < x
    ensures exists i: nat :: i < |list| && list[i] < x && (i + 1 < |list| ==> x <= list[i + 1])
  {
    if |list| == 1 || x <= list[1] {
      assert list[0] < x;
    } else {
      PlaceExists(list[1..], x);
      var i: nat :| i < |list[1..]| && list[1..][i] < x && (i + 1 < |list[1..]| ==> x <= list[1..][i + 1]);
      assert list[i + 1] < x;
    }
  }

  lemma LiveNotListed(base: nat, h: Heap, b: nat)
    requires Good(base, h) && b in h.live
    ensures b !in h.list
  {
    forall k | 0 <= k < |h.list| ensures h.list[k] != b { assert k > 0 ==> IsFree(h, h.list[k]); }
  }

  // ----- the two joins, in memory -----

  lemma NextLinks(base: nat, h: Heap, ptr: map<nat, nat>, i: nat, b: nat)
    requires Good(base, h) && Linked(ptr, h.list) && b in h.live && Before(h.list, i, b)
    ensures h.list[i] in ptr && var next := ptr[h.list[i]];
      && (b + h.blocks[b] == next ==>
            next in ptr && Linked(ptr[b := ptr[next]][h.list[i] := ptr[next]], JoinNext(h, i, b).list))
      && (b + h.blocks[b] != next ==> Linked(ptr[b := next][h.list[i] := next], JoinNext(h, i, b).list))
  {
    assert LinkAt(ptr, h.list, i);
    var p, next := h.list[i], ptr[h.list[i]];
    LiveNotListed(base, h, b);
    if b + h.blocks[b] == next {
      Adjacent(base, h, i, b, next);
      DropLinked(ptr, h.list, i);
      DropSorted(h.list, i + 1);
      LinkedFrame(ptr[p := ptr[next]], Drop(h.list, i + 1), b, ptr[next]);
      assert ptr[b := ptr[next]][p := ptr[next]] == ptr[p := ptr[next]][b := ptr[next]];
    } else {
      LinkedFrame(ptr, h.list, b, next);
      assert ptr[b := next][p := next] == ptr[b := next];
    }
  }

  lemma NextSizes(base: nat, h: Heap, size: map<nat, nat>, i: nat, b: nat)
    requires Good(base, h) && Sizes(base, size, h) && b in h.live && Before(h.list, i, b)
    ensures var next := if i + 1 < |h.list| then h.list[i + 1] else h.list[0];
      && (b + h.blocks[b] == next ==> next in size && Sizes(base, size[b := size[b] + size[next]], JoinNext(h, i, b)))
      && (b + h.blocks[b] != next ==> Sizes(base, size, JoinNext(h, i, b)))
  {
    var next := if i + 1 < |h.list| then h.list[i + 1] else h.list[0];
    if b + h.blocks[b] == next { Adjacent(base, h, i, b, next); }
  }

  lemma PrevLinks(base: nat, h: Heap, ptr: map<nat, nat>, i: nat, b: nat)
    requires Good(base, h) && b in h.live && Before(h.list, i, b) && b in ptr
    requires Linked(ptr[h.list[i] := ptr[b]], h.list)
    ensures Linked(ptr[h.list[i] := b], Put(h.list, i, b))
  {
    var p := h.list[i];
    PutLinked(ptr[p := ptr[b]], h.list, i, b);
    assert ptr[p := ptr[b]][b := ptr[b]][p := b] == ptr[p := b];
  }

  lemma PrevSizes(base: nat, h: Heap, size: map<nat, nat>, i: nat, b: nat)
    requires Good(base, h) && Sizes(base, size, h) && b in h.live && Before(h.list, i, b)
    ensures h.list[i] in size
    ensures var p := h.list[i];
      && (p + size[p] == b <==> i > 0 && p in h.blocks && Touch(h.blocks, p, b))
      && (p + size[p] == b ==> Sizes(base, size[p := size[p] + size[b]], JoinPrev(h, i, b)))
      && (p + size[p] != b ==> Sizes(base, size, JoinPrev(h, i, b)))
  {
    assert i > 0 ==> IsFree(h, h.list[i]);
  }

  lemma PrevKeepsPlace(h: Heap, i: nat, b: nat)
    requires Before(h.list, i, b) && b in h.blocks
    ensures h.list[i] in JoinPrev(h, i, b).list
  {
    assert Put(h.list, i, b)[i] == h.list[i];
  }

  // Where a live block ends at its successor in the list, that successor is a free block, not the base.
  lemma Adjacent(base: nat, h: Heap, i: nat, b: nat, next: nat)
    requires Good(base, h) && b in h.live && Before(h.list, i, b) && b + h.blocks[b] == next
    requires next == if i + 1 < |h.list| then h.list[i + 1] else h.list[0]
    ensures i + 1 < |h.list| && next in h.blocks
    ensures JoinNext(h, i, b) == h.(list := Drop(h.list, i + 1), blocks := Join(h.blocks, b))
  {
    assert base < b;
    assert IsFree(h, h.list[i + 1]);
  }
}
