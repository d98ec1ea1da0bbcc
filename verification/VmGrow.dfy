/**
 vm.c's uvmalloc and uvmdealloc.  uvmalloc either adds exactly the wanted pages to
 an address space, on fresh page frames, or leaves its mappings as they were with
 every page frame back on the free list or in the page table's tree.
 */
module VmGrow {
  import opened Common
  import opened VmMemory
  import opened VmTree
  import opened VmSpace
  import opened VmUser

  // What a new page is to hold, and the permissions it is mapped with.
  datatype UserPage = UserPage(perm: nat, data: Page)

  // A leaf entry that maps what `want` describes.
  ghost predicate MapsTo(pages: map<nat, Page>, w: nat, want: UserPage) {
    && want.perm < 1024 && w == MakePte(PtePage(w), want.perm) && ValidPte(w)
    && PtePage(w) in pages && pages[PtePage(w)] == want.data
  }

  ghost predicate PagesDiffer(flat: seq<nat>, v: nat, n: nat) {
    v + n <= |flat| && forall u, u' :: v <= u < u' < v + n ==> PtePage(flat[u]) != PtePage(flat[u'])
  }

  // `t` with `i` new pages from virtual page `v` on, each on a page frame of its own taken from `f0`.
  ghost predicate Grown(p0: map<nat, Page>, f0: seq<nat>, t: Table, p1: map<nat, Page>, f1: seq<nat>, t1: Table,
                        v: nat, i: nat, want: seq<UserPage>) {
    && v + i <= |t.flat| && |t1.flat| == |t.flat| && i <= |want|
    && (forall u :: 0 <= u < |t.flat| && !(v <= u < v + i) ==> t1.flat[u] == t.flat[u])
    && (forall u :: v <= u < v + i ==> MapsTo(p1, t1.flat[u], want[u - v]))
    && PagesDiffer(t1.flat, v, i)
    && Accounted(p0, f0, t, p1, f1, t1, RangePages(t1.flat, v, i))
  }

  lemma GrownStart(p0: map<nat, Page>, f0: seq<nat>, t: Table, v: nat, want: seq<UserPage>)
    requires v <= |t.flat|
    ensures Grown(p0, f0, t, p0, f0, t, v, 0, want)
  {
    assert RangePages(t.flat, v, 0) == {};
  }

  // Accounts compose, and pages already held are not written.
  lemma AccountedTrans(p0: map<nat, Page>, f0: seq<nat>, t: Table, p1: map<nat, Page>, f1: seq<nat>, t1: Table,
                       held: set<nat>, p2: map<nat, Page>, f2: seq<nat>, t2: Table, more: set<nat>)
    requires Accounted(p0, f0, t, p1, f1, t1, held) && Accounted(p1, f1, t1, p2, f2, t2, more)
    ensures Accounted(p0, f0, t, p2, f2, t2, held + more) && more !! held && more <= Elems(f1)
    ensures forall p :: p in held && p in p1 ==> p in p2 && p2[p] == p1[p]
  {
    forall p | p in p0 && p !in t2.tbl && p !in Elems(f0) ensures p in p2 && p2[p] == p0[p] {
      assert p !in Elems(f1) + t1.tbl.Keys + held;
    }
    forall p | p in held && p in p1 ensures p in p2 && p2[p] == p1[p] {
      assert p !in Elems(f2) + t2.tbl.Keys + more;
    }
    assert Elems(f2) + t2.tbl.Keys + (held + more) == Elems(f0) + t.tbl.Keys;
  }

  lemma HeldKept(p1: map<nat, Page>, p2: map<nat, Page>, flat: seq<nat>, v: nat, i: nat, want: seq<UserPage>)
    requires v + i <= |flat| && i <= |want| && forall u :: v <= u < v + i ==> MapsTo(p1, flat[u], want[u - v])
    requires forall p :: p in RangePages(flat, v, i) && p in p1 ==> p in p2 && p2[p] == p1[p]
    ensures forall u :: v <= u < v + i ==> MapsTo(p2, flat[u], want[u - v])
  {
    forall u | v <= u < v + i ensures MapsTo(p2, flat[u], want[u - v]) {
      assert PtePage(flat[u]) in RangePages(flat, v, i);
    }
  }

  // A failed allocation may have grown the tree, but the new pages stand.
  lemma GrownStays(p0: map<nat, Page>, f0: seq<nat>, t: Table, p1: map<nat, Page>, f1: seq<nat>, t1: Table,
                   p2: map<nat, Page>, f2: seq<nat>, t2: Table, v: nat, i: nat, want: seq<UserPage>)
    requires Grown(p0, f0, t, p1, f1, t1, v, i, want) && Accounted(p1, f1, t1, p2, f2, t2, {}) && t2.flat == t1.flat
    ensures Grown(p0, f0, t, p2, f2, t2, v, i, want)
  {
    var held := RangePages(t1.flat, v, i);
    AccountedTrans(p0, f0, t, p1, f1, t1, held, p2, f2, t2, {});
    assert held + {} == held;
    HeldKept(p1, p2, t1.flat, v, i, want);
  }

  lemma SamePages(flat1: seq<nat>, flat2: seq<nat>, v: nat, i: nat)
    requires v + i <= |flat1| && v + i <= |flat2| && forall u :: v <= u < v + i ==> flat2[u] == flat1[u]
    ensures RangePages(flat2, v, i) == RangePages(flat1, v, i)
  {
    forall p | p in RangePages(flat1, v, i) ensures p in RangePages(flat2, v, i) {
      var u: nat :| v <= u < v + i && p == PtePage(flat1[u]);
      assert p == PtePage(flat2[u]);
    }
    forall p | p in RangePages(flat2, v, i) ensures p in RangePages(flat1, v, i) {
      var u: nat :| v <= u < v + i && p == PtePage(flat2[u]);
      assert p == PtePage(flat1[u]);
    }
  }

  lemma PagesGrow(flat1: seq<nat>, flat2: seq<nat>, v: nat, i: nat, p: nat, perm: nat)
    requires v + i < |flat1| && perm < 1024 && flat2 == flat1[v + i := MakePte(p, perm)]
    requires PagesDiffer(flat1, v, i) && p !in RangePages(flat1, v, i)
    ensures RangePages(flat2, v, i + 1) == RangePages(flat1, v, i) + {p} && PagesDiffer(flat2, v, i + 1)
  {
    PteRoundTrip(p, perm);
    SamePages(flat1, flat2, v, i);
    PagesNext(flat2, v, i);
    forall u | v <= u < v + i ensures PtePage(flat2[u]) != p {
      assert PtePage(flat1[u]) in RangePages(flat1, v, i);
    }
  }

  lemma GrownNext(p0: map<nat, Page>, f0: seq<nat>, t: Table, p1: map<nat, Page>, f1: seq<nat>, t1: Table,
                  p2: map<nat, Page>, f2: seq<nat>, t2: Table, v: nat, i: nat, want: seq<UserPage>, p: nat)
    requires Grown(p0, f0, t, p1, f1, t1, v, i, want) && Accounted(p1, f1, t1, p2, f2, t2, {p})
    requires i < |want| && v + i < |t.flat| && want[i].perm < 1024
    requires t2.flat == t1.flat[v + i := MakePte(p, want[i].perm)]
    requires p in p2 && p2[p] == want[i].data
    ensures Grown(p0, f0, t, p2, f2, t2, v, i + 1, want)
  {
    var held := RangePages(t1.flat, v, i);
    AccountedTrans(p0, f0, t, p1, f1, t1, held, p2, f2, t2, {p});
    PagesGrow(t1.flat, t2.flat, v, i, p, want[i].perm);
    HeldKept(p1, p2, t1.flat, v, i, want);
    PteRoundTrip(p, want[i].perm);
    forall u | v <= u < v + i + 1 ensures MapsTo(p2, t2.flat[u], want[u - v]) {
      if u < v + i { assert t2.flat[u] == t1.flat[u]; }
    }
  }

  // The new pages are the address space's own, so uvmunmap may free them.
  lemma GrownIsOwn(first: nat, limit: nat, p0: map<nat, Page>, f0: seq<nat>, t: Table, p1: map<nat, Page>,
                   f1: seq<nat>, t1: Table, v: nat, i: nat, want: seq<UserPage>)
    requires Grown(p0, f0, t, p1, f1, t1, v, i, want) && forall p :: p in f0 ==> first <= p < limit
    requires forall k :: 0 <= k < |want| ==> 1 < want[k].perm < 1024
    ensures OwnRange(first, limit, t1, f1, v, i) && MappedRange(t1.flat, v, i)
  {
    forall u | v <= u < v + i ensures OwnLeaf(first, limit, t1, f1, t1.flat[u]) {
      var w := t1.flat[u];
      assert MapsTo(p1, w, want[u - v]) && PtePage(w) in RangePages(t1.flat, v, i);
      PteRoundTrip(PtePage(w), want[u - v].perm);
      assert PtePage(w) in Elems(f0) + t.tbl.Keys;
    }
    forall u | v <= u < v + i ensures ValidPte(t1.flat[u]) && PteFlags(t1.flat[u]) != 1 {
      assert OwnLeaf(first, limit, t1, f1, t1.flat[u]);
    }
  }

  // The same translations: valid entries agree, and no entry is valid in one only.
  ghost predicate SameMappings(flat: seq<nat>, flat': seq<nat>) {
    |flat'| == |flat| && forall u :: 0 <= u < |flat| ==>
      flat'[u] == flat[u] || (!ValidPte(flat[u]) && !ValidPte(flat'[u]))
  }

  ghost predicate Vacant(flat: seq<nat>, v: nat, n: nat) {
    v + n <= |flat| && forall u :: v <= u < v + n ==> !ValidPte(flat[u])
  }

  lemma UndoneAccount(p0: map<nat, Page>, f0: seq<nat>, t: Table, p1: map<nat, Page>, f1: seq<nat>, t1: Table,
                      p2: map<nat, Page>, f2: seq<nat>, t2: Table, v: nat, i: nat, want: seq<UserPage>)
    requires Grown(p0, f0, t, p1, f1, t1, v, i, want) && Unmapped(t1, t2, v, i, true, p1, f1, p2, f2)
    requires Vacant(t.flat, v, i)
    ensures Accounted(p0, f0, t, p2, f2, t2, {}) && SameMappings(t.flat, t2.flat)
  {
    var held := RangePages(t1.flat, v, i);
    assert held <= Elems(f0) by {
      forall p | p in held ensures p in Elems(f0) { assert p in Elems(f0) + t.tbl.Keys; }
    }
    assert Elems(f2) + t2.tbl.Keys + {} == Elems(f0) + t.tbl.Keys;
    forall p | p in p0 && p !in t2.tbl && p !in Elems(f0) ensures p in p2 && p2[p] == p0[p] { }
  }

  // uvmunmap of pages just added: back to the mappings of `t`, nothing lost.
  method Undo(m: Memory, root: nat, va: nat, n: nat, ghost t1: Table, ghost p0: map<nat, Page>, ghost f0: seq<nat>,
              ghost t: Table, ghost want: seq<UserPage>) returns (ok: bool, ghost t': Table)
    requires Space(m, t1) && t1.root == root && va % PGSIZE == 0 && va + n * PGSIZE <= MAXVA
    requires Grown(p0, f0, t, m.pages, m.free, t1, va / PGSIZE, n, want) && Vacant(t.flat, va / PGSIZE, n)
    requires forall k :: 0 <= k < |want| ==> 1 < want[k].perm < 1024
    requires forall p :: p in f0 ==> m.Managed(p)
    modifies m
    ensures ok && Space(m, t') && Accounted(p0, f0, t, m.pages, m.free, t', {}) && SameMappings(t.flat, t'.flat)
  {
    ghost var p1, f1 := m.pages, m.free;
    GrownIsOwn(m.first, m.limit, p0, f0, t, p1, f1, t1, va / PGSIZE, n, want);
    ok, t' := UvmUnmap(m, root, va, n, true, t1);
    UndoneAccount(p0, f0, t, p1, f1, t1, m.pages, m.free, t', va / PGSIZE, n, want);
  }

  // ----- uvmdealloc and uvmalloc -----

  // PGROUNDUP(sz) / PGSIZE
  function PageCount(sz: nat): nat {
    (sz + PGSIZE - 1) / PGSIZE
  }

  /** uvmdealloc: the pages beyond the new size, and no others, are unmapped and freed. */
  method UvmDealloc(m: Memory, root: nat, oldsz: nat, newsz: nat, ghost t: Table) returns (r: nat, ghost t': Table)
    requires Space(m, t) && t.root == root && oldsz <= MAXVA
    requires newsz < oldsz ==> UserRange(m, t, PageCount(newsz), PageCount(oldsz) - PageCount(newsz))
    modifies m
    ensures Space(m, t') && r == if newsz < oldsz then newsz else oldsz
    ensures newsz < oldsz ==>
      Unmapped(t, t', PageCount(newsz), PageCount(oldsz) - PageCount(newsz), true,
               old(m.pages), old(m.free), m.pages, m.free)
    ensures newsz >= oldsz ==> t' == t && m.pages == old(m.pages) && m.free == old(m.free)
  {
    t' := t;
    if newsz >= oldsz {
      return oldsz, t';
    }
    RoundUp(newsz, oldsz);
    var start, end := PageCount(newsz) * PGSIZE, PageCount(oldsz) * PGSIZE;
    if start < end {
      var ok;
      ok, t' := UvmUnmap(m, root, start, (end - start) / PGSIZE, true, t);
    } else {
      assert ClearRange(t.flat, PageCount(newsz), 0) == t.flat && RangePages(t.flat, PageCount(newsz), 0) == {};
    }
    r := newsz;
  }

  lemma RoundUp(x: nat, y: nat)
    requires x <= y <= MAXVA
    ensures PageCount(x) <= PageCount(y) && PageCount(y) * PGSIZE <= MAXVA
  {
  }

  lemma Aligned(va: nat, n: nat)
    requires va % PGSIZE == 0
    ensures PageCount(va + n * PGSIZE) == va / PGSIZE + n == (va + n * PGSIZE) / PGSIZE
    ensures (va + n * PGSIZE) % PGSIZE == 0
  {
    assert va == (va / PGSIZE) * PGSIZE;
  }

  lemma UnmapNone(t: Table, v: nat, p: map<nat, Page>, f: seq<nat>)
    requires v <= |t.flat|
    ensures Unmapped(t, t, v, 0, true, p, f, p, f)
  {
    assert ClearRange(t.flat, v, 0) == t.flat && RangePages(t.flat, v, 0) == {};
  }

  // The loop over page addresses from page `v` runs once for each page below `sz`.
  lemma RoundsLeft(v: nat, i: nat, n: nat, sz: nat)
    requires PageCount(sz) == v + n && i <= n
    ensures v * PGSIZE + i * PGSIZE < sz <==> i < n
    ensures v * PGSIZE % PGSIZE == 0 && v * PGSIZE / PGSIZE == v
    ensures (v * PGSIZE + i * PGSIZE) % PGSIZE == 0 && (v * PGSIZE + i * PGSIZE) / PGSIZE == v + i
    ensures i * PGSIZE / PGSIZE == i
  {
  }

  // uvmdealloc over whole pages is uvmunmap.
  method DeallocPages(m: Memory, root: nat, va: nat, n: nat, ghost t: Table) returns (ghost t': Table)
    requires Space(m, t) && t.root == root && va % PGSIZE == 0 && va + n * PGSIZE <= MAXVA
    requires UserRange(m, t, va / PGSIZE, n)
    modifies m
    ensures Space(m, t') && Unmapped(t, t', va / PGSIZE, n, true, old(m.pages), old(m.free), m.pages, m.free)
  {
    Aligned(va, 0);
    Aligned(va, n);
    UnmapNone(t, va / PGSIZE, m.pages, m.free);
    var r;
    r, t' := UvmDealloc(m, root, va + n * PGSIZE, va, t);
  }

  // uvmalloc's way back: uvmdealloc from `n` pages above `va` down to `va`.
  method UndoAlloc(m: Memory, root: nat, va: nat, n: nat, ghost t1: Table, ghost p0: map<nat, Page>,
                   ghost f0: seq<nat>, ghost t: Table, ghost want: seq<UserPage>) returns (ghost t': Table)
    requires Space(m, t1) && t1.root == root && va % PGSIZE == 0 && va + n * PGSIZE <= MAXVA
    requires Grown(p0, f0, t, m.pages, m.free, t1, va / PGSIZE, n, want) && Vacant(t.flat, va / PGSIZE, n)
    requires forall k :: 0 <= k < |want| ==> 1 < want[k].perm < 1024
    requires forall p :: p in f0 ==> m.Managed(p)
    modifies m
    ensures Space(m, t') && Accounted(p0, f0, t, m.pages, m.free, t', {}) && SameMappings(t.flat, t'.flat)
  {
    ghost var p1, f1, v := m.pages, m.free, va / PGSIZE;
    GrownIsOwn(m.first, m.limit, p0, f0, t, p1, f1, t1, v, n, want);
    t' := DeallocPages(m, root, va, n, t1);
    UndoneAccount(p0, f0, t, p1, f1, t1, m.pages, m.free, t', v, n, want);
  }

  // One round of uvmalloc and uvmcopy: a fresh page, filled and mapped.
  method GrowOne(m: Memory, root: nat, a: nat, fill: Page, perm: nat, ghost t1: Table, ghost p0: map<nat, Page>,
                 ghost f0: seq<nat>, ghost t: Table, ghost v: nat, ghost i: nat, ghost want: seq<UserPage>)
    returns (ok: bool, ghost t': Table)
    requires Space(m, t1) && t1.root == root && a % PGSIZE == 0 && a < MAXVA && 1 < perm < 1024 && a / PGSIZE == v + i
    requires Grown(p0, f0, t, m.pages, m.free, t1, v, i, want) && Vacant(t.flat, v, |want|)
    requires i < |want| && want[i] == UserPage(perm, fill)
    modifies m
    ensures Space(m, t') && (ok ==> Grown(p0, f0, t, m.pages, m.free, t', v, i + 1, want))
    ensures !ok ==> Grown(p0, f0, t, m.pages, m.free, t', v, i, want)
  {
    ghost var p1, f1 := m.pages, m.free;
    assert t1.flat[v + i] == t.flat[v + i];
    var p;
    p, t' := AllocOne(m, root, a, fill, perm, t1);
    ok := p != 0;
    if ok {
      GrownNext(p0, f0, t, p1, f1, t1, m.pages, m.free, t', v, i, want, p);
    } else {
      GrownStays(p0, f0, t, p1, f1, t1, m.pages, m.free, t', v, i, want);
    }
  }

  // PTE_R|PTE_U|xperm, where xperm is any of PTE_W and PTE_X.
  function AllocPerm(xperm: nat): nat {
    PTE_R + PTE_U + xperm
  }

  /**
   uvmalloc: either the range holds fresh zeroed pages and nothing else is mapped
   differently, or it failed, the mappings are as before and no page is lost.
   */
  method UvmAlloc(m: Memory, root: nat, oldsz: nat, newsz: nat, xperm: nat, ghost t: Table)
    returns (r: nat, ghost ok: bool, ghost t': Table)
    requires Space(m, t) && t.root == root && xperm in {0, 4, 8, 12} && newsz <= MAXVA
    requires oldsz <= newsz ==> Vacant(t.flat, PageCount(oldsz), PageCount(newsz) - PageCount(oldsz))
    modifies m
    ensures Space(m, t')
    ensures newsz < oldsz ==> ok && r == oldsz && t' == t && m.pages == old(m.pages) && m.free == old(m.free)
    ensures oldsz <= newsz && ok ==> r == newsz
    ensures oldsz <= newsz && ok ==> var n := PageCount(newsz) - PageCount(oldsz);
      Grown(old(m.pages), old(m.free), t, m.pages, m.free, t', PageCount(oldsz), n, ZeroPages(AllocPerm(xperm), n))
    ensures oldsz <= newsz && ok ==> UserMapped(m.pages, t'.flat, oldsz, newsz, xperm)
    ensures !ok ==>
      r == 0 && SameMappings(t.flat, t'.flat) && Accounted(old(m.pages), old(m.free), t, m.pages, m.free, t', {})
  {
    t' := t;
    if newsz < oldsz {
      return oldsz, true, t';
    }
    RoundUp(oldsz, newsz);
    ghost var v, n, p0, f0 := PageCount(oldsz), PageCount(newsz) - PageCount(oldsz), m.pages, m.free;
    var done;
    done, t' := AllocLoop(m, root, PageCount(oldsz) * PGSIZE, newsz, AllocPerm(xperm), t, v, n);
    r, ok := if done then newsz else 0, done;
    if ok {
      GrownMapped(m.first, m.limit, p0, f0, t, m.pages, m.free, t', oldsz, newsz, xperm);
    }
  }

  // Every page that ends above `oldsz` rounded up and begins below `newsz` is zero and readable for the user, and
  // writable and executable as `xperm` says; walkaddr translates its addresses.
  ghost predicate UserMapped(pages: map<nat, Page>, flat: seq<nat>, oldsz: nat, newsz: nat, xperm: nat) {
    && (forall u :: 0 <= u < |flat| && oldsz <= 4096 * u < newsz ==>
          ZeroLeaf(pages, flat[u]) && LeafBits(flat[u], xperm))
    && (forall va: nat :: (oldsz + 4095) / 4096 * 4096 <= va < newsz ==> UserAddr(flat, va) > 0)
  }

  ghost predicate ZeroLeaf(pages: map<nat, Page>, w: nat) {
    w / 1024 in pages && forall k :: 0 <= k < 512 ==> pages[w / 1024][k] == 0
  }

  // PTE_V, PTE_R and PTE_U are set, PTE_W and PTE_X as in `xperm`.
  predicate LeafBits(w: nat, xperm: nat) {
    && w % 2 == 1 && w / 2 % 2 == 1 && w / 16 % 2 == 1
    && w / 4 % 2 == xperm / 4 % 2 && w / 8 % 2 == xperm / 8 % 2
  }

  lemma AllocBits(p: nat, xperm: nat)
    requires xperm in {0, 4, 8, 12}
    ensures LeafBits(MakePte(p, AllocPerm(xperm)), xperm)
  {
    PermBits(xperm);
    LeafBitsAt(p, AllocPerm(xperm) + 1, xperm);
  }

  lemma PermBits(xperm: nat)
    requires xperm in {0, 4, 8, 12}
    ensures LeafBits(AllocPerm(xperm) + 1, xperm) && AllocPerm(xperm) % 2 == 0
  {
  }

  lemma LeafBitsAt(p: nat, f: nat, xperm: nat)
    requires LeafBits(f, xperm)
    ensures LeafBits(1024 * p + f, xperm)
  {
    FlagBit(p, f, 1, 512);
    FlagBit(p, f, 2, 256);
    FlagBit(p, f, 4, 128);
    FlagBit(p, f, 8, 64);
    FlagBit(p, f, 16, 32);
  }

  lemma GrownMapped(first: nat, limit: nat, p0: map<nat, Page>, f0: seq<nat>, t: Table, p1: map<nat, Page>,
                    f1: seq<nat>, t1: Table, oldsz: nat, newsz: nat, xperm: nat)
    requires 0 < first && oldsz <= newsz <= MAXVA && xperm in {0, 4, 8, 12} && |t.flat| == VPNS
    requires PageCount(oldsz) <= PageCount(newsz) && forall p :: p in f0 ==> first <= p < limit
    requires var n := PageCount(newsz) - PageCount(oldsz);
      Grown(p0, f0, t, p1, f1, t1, PageCount(oldsz), n, ZeroPages(AllocPerm(xperm), n))
    ensures UserMapped(p1, t1.flat, oldsz, newsz, xperm)
  {
    var v, n := PageCount(oldsz), PageCount(newsz) - PageCount(oldsz);
    GrownIsOwn(first, limit, p0, f0, t, p1, f1, t1, v, n, ZeroPages(AllocPerm(xperm), n));
    forall u | v <= u < v + n
      ensures ZeroLeaf(p1, t1.flat[u]) && LeafBits(t1.flat[u], xperm) && t1.flat[u] / 1024 > 0
    {
      assert MapsTo(p1, t1.flat[u], ZeroPages(AllocPerm(xperm), n)[u - v]);
      AllocBits(PtePage(t1.flat[u]), xperm);
      assert OwnLeaf(first, limit, t1, f1, t1.flat[u]);
    }
    forall va: nat | (oldsz + 4095) / 4096 * 4096 <= va < newsz ensures UserAddr(t1.flat, va) > 0 {
      assert v <= va / 4096 < v + n;
    }
  }

  function ZeroPages(perm: nat, n: nat): seq<UserPage> {
    seq(n, _ => UserPage(perm, Filled(0)))
  }

  method AllocLoop(m: Memory, root: nat, start: nat, newsz: nat, perm: nat, ghost t: Table, ghost v: nat, ghost n: nat)
    returns (ok: bool, ghost t': Table)
    requires Space(m, t) && t.root == root && 1 < perm < 1024 && start == v * PGSIZE && newsz <= MAXVA
    requires PageCount(newsz) == v + n && Vacant(t.flat, v, n)
    modifies m
    ensures Space(m, t')
    ensures ok ==> Grown(old(m.pages), old(m.free), t, m.pages, m.free, t', v, n, ZeroPages(perm, n))
    ensures !ok ==> SameMappings(t.flat, t'.flat) && Accounted(old(m.pages), old(m.free), t, m.pages, m.free, t', {})
  {
    ghost var p0, f0, i := m.pages, m.free, 0;
    ghost var want := ZeroPages(perm, n);
    t' := t;
    GrownStart(p0, f0, t, v, want);
    var a := start;
    while a < newsz
      invariant a == start + i * PGSIZE && i <= n
      invariant Space(m, t') && Grown(p0, f0, t, m.pages, m.free, t', v, i, want)
    {
      RoundsLeft(v, i, n, newsz);
      ok, t' := GrowOne(m, root, a, Filled(0), perm, t', p0, f0, t, v, i, want);
      if !ok {
        t' := UndoAlloc(m, root, start, (a - start) / PGSIZE, t', p0, f0, t, want);
        return;
      }
      i := i + 1;
      a := a + PGSIZE;
    }
    RoundsLeft(v, i, n, newsz);
    ok := true;
  }
}
