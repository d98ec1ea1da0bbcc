/**
 Physical pages and kalloc.c's free list, which runs through the first word of
 each free page.  Page numbers are physical addresses divided by PGSIZE.
 */
module VmMemory {
  import opened Common

  const PGSIZE: nat := 4096
  const WORDS: nat := 512

  type Page = p: seq<nat> | |p| == WORDS witness seq(WORDS, _ => 0)

  function Filled(w: nat): Page {
    seq(WORDS, _ => w)
  }

  // Every byte 1, as kfree leaves a page; every byte 5, as kalloc does.
  const ONES: nat := 0x0101_0101_0101_0101
  const FIVES: nat := 0x0505_0505_0505_0505

  lemma ElemsCons(x: nat, s: seq<nat>)
    ensures Elems([x] + s) == Elems(s) + {x}
  {
  }

  // `r` is the first page of a list running through `free`, 0 its end.
  ghost predicate Chain(pages: map<nat, Page>, r: nat, free: seq<nat>)
    decreases |free|
  {
    if free == [] then r == 0
    else (
      && r == free[0] && r != 0 && r in pages && pages[r][0] % PGSIZE == 0
      && Chain(pages, pages[r][0] / PGSIZE, free[1..]))
  }

  lemma {:induction false} ChainFrame(pages: map<nat, Page>, pages': map<nat, Page>, r: nat, free: seq<nat>)
    requires Chain(pages, r, free)
    requires forall p :: p in free ==> p in pages' && (p in pages ==> pages'[p] == pages[p])
    ensures Chain(pages', r, free)
    decreases |free|
  {
    if free != [] {
      assert free[0] in free;
      forall p | p in free[1..] ensures p in free { }
      ChainFrame(pages, pages', pages[r][0] / PGSIZE, free[1..]);
    }
  }

  class Memory {
    const first: nat             // first page after the kernel, PGROUNDUP(end) / PGSIZE
    const limit: nat             // PHYSTOP / PGSIZE
    var pages: map<nat, Page>
    var freelist: nat
    ghost var free: seq<nat>

    predicate Managed(p: nat) {
      first <= p < limit
    }

    ghost predicate Valid()
      reads this
    {
      && 0 < first
      && (forall p: nat :: Managed(p) ==> p in pages)
      && Distinct(free) && (forall p :: p in free ==> Managed(p))
      && Chain(pages, freelist, free)
    }

    // Pages outside `except` hold what they held.
    ghost predicate Same(was: map<nat, Page>, except: set<nat>)
      reads this
    {
      pages.Keys == was.Keys && forall p :: p in was && p !in except ==> pages[p] == was[p]
    }

    // Writes to pages that are not free leave the free list alone.
    method SetPages(pages': map<nat, Page>)
      requires Valid() && pages'.Keys == pages.Keys && forall p :: p in free ==> pages'[p] == pages[p]
      modifies this`pages
      ensures Valid() && pages == pages'
    {
      ChainFrame(pages, pages', freelist, free);
      pages := pages';
    }

    // 0 if no page is free; otherwise a page that no longer is.
    method Kalloc() returns (p: nat)
      requires Valid()
      modifies this
      ensures Valid()
      ensures p == 0 <==> old(free) == []
      ensures p == 0 ==> pages == old(pages) && free == old(free)
      ensures p != 0 ==> Managed(p) && free == old(free)[1..] && p == old(free)[0] && p !in free
      ensures p != 0 ==> pages == old(pages)[p := Filled(FIVES)]
    {
      p := freelist;
      if p != 0 {
        freelist := pages[p][0] / PGSIZE;
        assert p == free[0];
        free := free[1..];
        ChainFrame(pages, pages[p := Filled(FIVES)], freelist, free);
        pages := pages[p := Filled(FIVES)];
      }
    }

    // Returns false where the kernel panics.
    method Kfree(pa: nat) returns (ok: bool)
      requires Valid() && pa / PGSIZE !in free
      modifies this
      ensures Valid()
      ensures ok <==> pa % PGSIZE == 0 && Managed(pa / PGSIZE)
      ensures ok ==> free == [pa / PGSIZE] + old(free) && Same(old(pages), {pa / PGSIZE})
      ensures !ok ==> pages == old(pages) && free == old(free)
    {
      var p := pa / PGSIZE;
      if pa % PGSIZE != 0 || p < first || p >= limit {
        return false;
      }
      ghost var before, list, was := pages, freelist, free;
      pages := pages[p := Filled(ONES)[0 := freelist * PGSIZE]];
      ChainFrame(before, pages, list, was);
      freelist := p;
      free := [p] + free;
      assert free[1..] == was;
      ok := true;
    }

    /** freerange: every whole page between the two addresses ends up free, none twice. */
    method FreeRange(start: nat, end: nat)
      requires Valid() && first * PGSIZE <= start && end <= limit * PGSIZE
      requires forall p :: p in free ==> (p + 1) * PGSIZE <= start || end <= p * PGSIZE
      modifies this
      ensures Valid()
      ensures forall p: nat :: p in free <==> p in old(free) || (start <= p * PGSIZE && (p + 1) * PGSIZE <= end)
    {
      var p := (start + PGSIZE - 1) / PGSIZE * PGSIZE;
      while p + PGSIZE <= end
        invariant Valid() && start <= p && p % PGSIZE == 0
        invariant forall q: nat :: q in free <==>
          q in old(free) || (start <= q * PGSIZE && q * PGSIZE < p && (q + 1) * PGSIZE <= end)
      {
        var ok := Kfree(p);
        p := p + PGSIZE;
      }
    }
  }
}
