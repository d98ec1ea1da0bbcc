/**
 vm.c's uvmunmap and walkaddr, and the step that uvmalloc and uvmcopy repeat: one
 page allocated, filled and mapped, with every page accounted for if that fails.
 */
module VmUser {
  import opened Common
  import opened VmMemory
  import opened VmTree
  import opened VmSpace

  const PTE_R: nat := 2
  const PTE_U: nat := 16

  // The pages behind `n` leaf entries from virtual page `v` on.
  function RangePages(flat: seq<nat>, v: nat, n: nat): set<nat>
    requires v + n <= |flat|
  {
    set u: nat | v <= u < v + n :: PtePage(flat[u])
  }

  // Valid leaf entries for `n` virtual pages from `v` on, whose pages lie between `first` and `limit`, are
  // neither free nor tables, and are all different.
  ghost predicate OwnRange(first: nat, limit: nat, t: Table, free: seq<nat>, v: nat, n: nat) {
    && v + n <= |t.flat|
    && (forall u :: v <= u < v + n ==> OwnLeaf(first, limit, t, free, t.flat[u]))
    && (forall u, u' :: v <= u < u' < v + n ==> PtePage(t.flat[u]) != PtePage(t.flat[u']))
  }

  ghost predicate OwnLeaf(first: nat, limit: nat, t: Table, free: seq<nat>, w: nat) {
    && ValidPte(w) && PteFlags(w) != 1
    && first <= PtePage(w) < limit && PtePage(w) !in free && PtePage(w) !in t.tbl
  }

  ghost predicate MappedRange(flat: seq<nat>, v: nat, n: nat) {
    v + n <= |flat| && forall u :: v <= u < v + n ==> ValidPte(flat[u]) && PteFlags(flat[u]) != 1
  }

  // User memory: `n` mapped pages from virtual page `v` on, belonging to this address space alone.
  ghost predicate UserRange(m: Memory, t: Table, v: nat, n: nat)
    reads m
  {
    OwnRange(m.first, m.limit, t, m.free, v, n)
  }

  // Pages outside the table and outside `touched` hold what they held.
  ghost predicate Untouched(pages: map<nat, Page>, pages': map<nat, Page>, t: Table, touched: set<nat>) {
    pages'.Keys == pages.Keys && forall p :: p in pages && p !in t.tbl && p !in touched ==> pages'[p] == pages[p]
  }

  // One round of uvmunmap; false where the kernel panics.
  method UnmapOne(m: Memory, root: nat, a: nat, doFree: bool, ghost t: Table) returns (ok: bool, ghost t': Table)
    requires Space(m, t) && t.root == root && a < MAXVA
    requires doFree && ValidPte(t.flat[a / PGSIZE]) ==> OwnLeaf(m.first, m.limit, t, m.free, t.flat[a / PGSIZE])
    modifies m
    ensures ok <==> ValidPte(t.flat[a / PGSIZE]) && PteFlags(t.flat[a / PGSIZE]) != 1
    ensures ok ==> t' == t.(flat := t.flat[a / PGSIZE := 0]) && Space(m, t')
    ensures ok ==> m.free == if doFree then [PtePage(t.flat[a / PGSIZE])] + old(m.free) else old(m.free)
    ensures ok ==> Untouched(old(m.pages), m.pages, t, if doFree then {PtePage(t.flat[a / PGSIZE])} else {})
  {
    var pt, idx;
    pt, idx, t' := Walk(m, root, a, false, t);
    if pt == 0 {
      return false, t';
    }
    var pte := m.pages[pt][idx];
    if !ValidPte(pte) || PteFlags(pte) == 1 {
      return false, t';
    }
    if doFree {
      FreeLeafPage(m, PtePage(pte), t);
    }
    t' := WriteLeaf(m, pt, a / PGSIZE, 0, t);
    ok := true;
  }

  // kfree of a page that is no table.
  method FreeLeafPage(m: Memory, p: nat, ghost t: Table)
    requires Space(m, t) && m.Managed(p) && p !in m.free && p !in t.tbl
    modifies m
    ensures Space(m, t) && m.free == [p] + old(m.free) && Untouched(old(m.pages), m.pages, t, {p})
    ensures forall q :: q in t.tbl ==> m.pages[q] == old(m.pages[q])
  {
    ghost var pages := m.pages;
    var ok := m.Kfree(p * PGSIZE);
    FrameTable(pages, m.pages, t);
  }

  // `flat` with `n` entries from virtual page `v` on emptied.
  function ClearRange(flat: seq<nat>, v: nat, n: nat): seq<nat> {
    seq<nat>(|flat|, u requires 0 <= u < |flat| => if v <= u < v + n then 0 else flat[u])
  }

  lemma ClearNext(flat: seq<nat>, v: nat, n: nat)
    requires v + n < |flat|
    ensures ClearRange(flat, v, n)[v + n := 0] == ClearRange(flat, v, n + 1)
  {
  }

  lemma PagesNext(flat: seq<nat>, v: nat, n: nat)
    requires v + n < |flat|
    ensures RangePages(flat, v, n + 1) == RangePages(flat, v, n) + {PtePage(flat[v + n])}
  {
  }

  // uvmunmap's progress: `i` of the range's pages are unmapped, and freed if that was asked.
  ghost predicate Unmapped(t: Table, t': Table, v: nat, i: nat, doFree: bool, p0: map<nat, Page>, f0: seq<nat>,
                           p1: map<nat, Page>, f1: seq<nat>) {
    && v + i <= |t.flat| && t' == t.(flat := ClearRange(t.flat, v, i))
    && Elems(f1) == (if doFree then Elems(f0) + RangePages(t.flat, v, i) else Elems(f0))
    && Untouched(p0, p1, t, if doFree then RangePages(t.flat, v, i) else {})
  }

  lemma UnmappedNext(t: Table, v: nat, i: nat, doFree: bool, p0: map<nat, Page>, f0: seq<nat>, t1: Table,
                     p1: map<nat, Page>, f1: seq<nat>, t2: Table, p2: map<nat, Page>, f2: seq<nat>)
    requires Unmapped(t, t1, v, i, doFree, p0, f0, p1, f1) && v + i < |t.flat| && t2 == t1.(flat := t1.flat[v + i := 0])
    requires f2 == if doFree then [PtePage(t.flat[v + i])] + f1 else f1
    requires Untouched(p1, p2, t1, if doFree then {PtePage(t.flat[v + i])} else {})
    ensures Unmapped(t, t2, v, i + 1, doFree, p0, f0, p2, f2)
  {
    ClearNext(t.flat, v, i);
    PagesNext(t.flat, v, i);
    ElemsCons(PtePage(t.flat[v + i]), f1);
  }

  /**
   uvmunmap: with every page of the range mapped, exactly the range is unmapped, its
   pages return to the free list if asked, and the panics are unreachable.
   */
  method UvmUnmap(m: Memory, root: nat, va: nat, npages: nat, doFree: bool, ghost t: Table)
    returns (ok: bool, ghost t': Table)
    requires Space(m, t) && t.root == root && va % PGSIZE == 0 && va + npages * PGSIZE <= MAXVA
    requires MappedRange(t.flat, va / PGSIZE, npages)
    requires doFree ==> UserRange(m, t, va / PGSIZE, npages)
    modifies m
    ensures ok && Space(m, t')
    ensures Unmapped(t, t', va / PGSIZE, npages, doFree, old(m.pages), old(m.free), m.pages, m.free)
  {
    ghost var p0, f0, v, i := m.pages, m.free, va / PGSIZE, 0;
    t' := t;
    assert t.flat == ClearRange(t.flat, v, 0) && RangePages(t.flat, v, 0) == {};
    var a := va;
    var end := va + npages * PGSIZE;
    while a < end
      invariant a == va + i * PGSIZE && i <= npages && Space(m, t')
      invariant Unmapped(t, t', v, i, doFree, p0, f0, m.pages, m.free)
    {
      PageAfter(va, i);
      ok, t' := UnmapRound(m, root, a, doFree, t', t, v, i, npages, p0, f0);
      i := i + 1;
      a := a + PGSIZE;
    }
    ok := true;
  }

  // One round, `i` pages into the range.
  method UnmapRound(m: Memory, root: nat, a: nat, doFree: bool, ghost t1: Table, ghost t: Table, ghost v: nat,
                    ghost i: nat, ghost n: nat, ghost p0: map<nat, Page>, ghost f0: seq<nat>)
    returns (ok: bool, ghost t': Table)
    requires Space(m, t1) && t1.root == root && a < MAXVA && a / PGSIZE == v + i && i < n
    requires Unmapped(t, t1, v, i, doFree, p0, f0, m.pages, m.free) && MappedRange(t.flat, v, n)
    requires doFree ==> OwnRange(m.first, m.limit, t, f0, v, n)
    modifies m
    ensures ok && Space(m, t') && Unmapped(t, t', v, i + 1, doFree, p0, f0, m.pages, m.free)
  {
    ghost var p1, f1 := m.pages, m.free;
    if doFree { StillOwn(m.first, m.limit, t, t1, v, i, n, f0, f1); }
    ok, t' := UnmapOne(m, root, a, doFree, t1);
    UnmappedNext(t, v, i, doFree, p0, f0, t1, p1, f1, t', m.pages, m.free);
  }

  // Freeing the first `i` pages of the range leaves the next one the address space's own.
  lemma StillOwn(first: nat, limit: nat, t: Table, t1: Table, v: nat, i: nat, n: nat, f0: seq<nat>, f1: seq<nat>)
    requires OwnRange(first, limit, t, f0, v, n) && i < n && t1 == t.(flat := ClearRange(t.flat, v, i))
    requires Elems(f1) == Elems(f0) + RangePages(t.flat, v, i)
    ensures OwnLeaf(first, limit, t1, f1, t1.flat[v + i])
  {
    var p := PtePage(t.flat[v + i]);
    assert OwnLeaf(first, limit, t, f0, t.flat[v + i]);
    assert p !in RangePages(t.flat, v, i);
    assert p !in Elems(f1);
  }

  // The physical address of the page behind a virtual address that is mapped, with PTE_U, and 0 for any other.
  function UserAddr(flat: seq<nat>, va: nat): nat {
    if va / 4096 < |flat| && flat[va / 4096] % 2 == 1 && flat[va / 4096] / 16 % 2 == 1 then
      flat[va / 4096] / 1024 * 4096
    else 0
  }

  /** walkaddr: the page behind a user address, 0 unless it is mapped for the user. */
  method WalkAddr(m: Memory, root: nat, va: nat, ghost t: Table) returns (pa: nat)
    requires Space(m, t) && t.root == root
    modifies m
    ensures Space(m, t) && m.pages == old(m.pages) && m.free == old(m.free)
    ensures pa == if va < 0x40_0000_0000 then UserAddr(t.flat, va) else 0
  {
    if va >= MAXVA {
      return 0;
    }
    var pt, idx;
    ghost var same;
    pt, idx, same := Walk(m, root, va, false, t);
    if pt == 0 {
      return 0;
    }
    var pte := m.pages[pt][idx];
    if !ValidPte(pte) || pte / PTE_U % 2 == 0 {
      return 0;
    }
    pa := PtePage(pte) * PGSIZE;
  }

  // ----- growing -----

  // From free list `f0` and table `t0`: the table has only grown, every page is on the free list, in
  // the table or among `held`, and only pages that were free or tables have been written.
  ghost predicate Accounted(p0: map<nat, Page>, f0: seq<nat>, t0: Table, p1: map<nat, Page>, f1: seq<nat>, t1: Table,
                            held: set<nat>) {
    && t1.root == t0.root && t0.tbl.Keys <= t1.tbl.Keys
    && Elems(f1) + t1.tbl.Keys + held == Elems(f0) + t0.tbl.Keys
    && held !! Elems(f1) && held !! t1.tbl.Keys
    && Untouched(p0, p1, t1, Elems(f0))
  }

  lemma AccountMapped(p0: map<nat, Page>, f0: seq<nat>, t: Table, pm: map<nat, Page>, fm: seq<nat>,
                      p1: map<nat, Page>, f1: seq<nat>, t1: Table, mem: nat)
    requires f0 == [mem] + fm && mem !in fm && mem !in t.tbl && pm.Keys == p0.Keys
    requires forall q :: q in p0 && q != mem ==> pm[q] == p0[q]
    requires Kept(pm, fm, t, p1, f1, t1)
    ensures mem !in f1 && mem !in t1.tbl && Accounted(p0, f0, t, p1, f1, t1, {mem})
  {
    ElemsCons(mem, fm);
    assert mem !in Elems(f1) + t1.tbl.Keys;
  }

  lemma AccountFreed(p0: map<nat, Page>, f0: seq<nat>, t: Table, p1: map<nat, Page>, f1: seq<nat>, t1: Table,
                     p2: map<nat, Page>, mem: nat)
    requires Accounted(p0, f0, t, p1, f1, t1, {mem}) && Untouched(p1, p2, t1, {mem}) && mem in f0
    ensures Accounted(p0, f0, t, p2, [mem] + f1, t1, {})
  {
    ElemsCons(mem, f1);
  }

  // kalloc a page, fill it, and map it at `a`; on failure nothing stays allocated but tables.
  method AllocOne(m: Memory, root: nat, a: nat, fill: Page, perm: nat, ghost t: Table) returns (p: nat, ghost t': Table)
    requires Space(m, t) && t.root == root && a % PGSIZE == 0 && a < MAXVA && 1 < perm < 1024
    requires !ValidPte(t.flat[a / PGSIZE])
    modifies m
    ensures Space(m, t')
    ensures p != 0 ==> m.Managed(p) && t'.flat == t.flat[a / PGSIZE := MakePte(p, perm)] && m.pages[p] == fill
    ensures p != 0 ==> Accounted(old(m.pages), old(m.free), t, m.pages, m.free, t', {p})
    ensures p == 0 ==> t'.flat == t.flat && Accounted(old(m.pages), old(m.free), t, m.pages, m.free, t', {})
  {
    t' := t;
    ghost var p0, f0 := m.pages, m.free;
    p := m.Kalloc();
    if p == 0 {
      return;
    }
    FrameTable(p0, m.pages, t);
    ghost var p1 := m.pages;
    m.SetPages(m.pages[p := fill]);
    FrameTable(p1, m.pages, t);
    p, t' := MapFilled(m, root, a, p, perm, t, p0, f0);
  }

  // The tail of AllocOne: mappages, and kfree if it fails.
  method MapFilled(m: Memory, root: nat, a: nat, mem: nat, perm: nat, ghost t: Table, ghost p0: map<nat, Page>,
                   ghost f0: seq<nat>)
    returns (p: nat, ghost t': Table)
    requires Space(m, t) && t.root == root && a % PGSIZE == 0 && a < MAXVA && 1 < perm < 1024
    requires !ValidPte(t.flat[a / PGSIZE])
    requires mem != 0 && m.Managed(mem) && mem !in m.free && mem !in t.tbl && f0 == [mem] + m.free
    requires m.pages.Keys == p0.Keys && forall q :: q in p0 && q != mem ==> m.pages[q] == p0[q]
    modifies m
    ensures Space(m, t') && (p == 0 || p == mem)
    ensures p != 0 ==> t'.flat == t.flat[a / PGSIZE := MakePte(p, perm)] && m.pages[p] == old(m.pages[mem])
    ensures p != 0 ==> Accounted(p0, f0, t, m.pages, m.free, t', {p})
    ensures p == 0 ==> t'.flat == t.flat && Accounted(p0, f0, t, m.pages, m.free, t', {})
  {
    ghost var pm, fm := m.pages, m.free;
    var ok;
    ok, t' := MapPage(m, root, a, mem, perm, t);
    AccountMapped(p0, f0, t, pm, fm, m.pages, m.free, t', mem);
    if ok {
      p := mem;
    } else {
      p := 0;
      FreeHeld(m, mem, t', p0, f0, t);
    }
  }

  method FreeHeld(m: Memory, mem: nat, ghost t1: Table, ghost p0: map<nat, Page>, ghost f0: seq<nat>, ghost t: Table)
    requires Space(m, t1) && m.Managed(mem) && mem in f0 && mem !in m.free && mem !in t1.tbl
    requires Accounted(p0, f0, t, m.pages, m.free, t1, {mem})
    modifies m
    ensures Space(m, t1) && Accounted(p0, f0, t, m.pages, m.free, t1, {})
  {
    ghost var p1, f1 := m.pages, m.free;
    FreeLeafPage(m, mem, t1);
    AccountFreed(p0, f0, t, p1, f1, t1, m.pages, mem);
  }

  // mappages for a single page that is not mapped yet.
  method MapPage(m: Memory, root: nat, a: nat, mem: nat, perm: nat, ghost t: Table) returns (ok: bool, ghost t': Table)
    requires Space(m, t) && t.root == root && a % PGSIZE == 0 && a < MAXVA && perm < 1024
    requires !ValidPte(t.flat[a / PGSIZE])
    modifies m
    ensures Space(m, t') && Kept(old(m.pages), old(m.free), t, m.pages, m.free, t')
    ensures t'.flat == if ok then t.flat[a / PGSIZE := MakePte(mem, perm)] else t.flat
  {
    var res;
    ghost var done;
    res, done, t' := MapPages(m, root, a, PGSIZE, mem * PGSIZE, perm, t);
    ok := res == Mapped;
  }
}
