/**
 vm.c's walk and mappages.  A Table pairs a tree in memory with the flat map it
 stands for; contracts speak about the flat map and about where pages went: onto
 the free list or into the tree.
 */
module VmSpace {
  import opened Common
  import opened VmMemory
  import opened VmTree

  const MAXVA: nat := 0x40_0000_0000   // 2^38

  // A page table: its root, the path of each of its pages, and the leaf entry of each virtual page.
  datatype Table = Table(root: nat, tbl: map<nat, Path>, flat: seq<nat>)

  // The tree in memory is well formed and translates as `flat` says.
  ghost predicate Refines(pages: map<nat, Page>, t: Table) {
    && Tree(pages, t.root, t.tbl) && |t.flat| == VPNS
    && forall v {:trigger Leaf(pages, t.root, v)} :: 0 <= v < VPNS ==> t.flat[v] == Leaf(pages, t.root, v)
  }

  // The allocator is sound, and the table's pages are its own.
  ghost predicate Space(m: Memory, t: Table)
    reads m
  {
    && m.Valid() && Refines(m.pages, t)
    && forall p :: p in t.tbl ==> m.Managed(p) && p !in m.free
  }

  // The tree may have taken pages from the free list to grow; no page is lost, and none
  // outside the tree has been written.
  ghost predicate Kept(pages: map<nat, Page>, free: seq<nat>, t: Table, pages': map<nat, Page>, free': seq<nat>,
                       t': Table) {
    && t'.root == t.root
    && (forall p :: p in t.tbl ==> p in t'.tbl && t'.tbl[p] == t.tbl[p])
    && Elems(free') + t'.tbl.Keys == Elems(free) + t.tbl.Keys
    && pages'.Keys == pages.Keys && (forall p :: p in pages && p !in t'.tbl ==> pages'[p] == pages[p])
  }

  lemma KeptTrans(p0: map<nat, Page>, f0: seq<nat>, t0: Table, p1: map<nat, Page>, f1: seq<nat>, t1: Table,
                  p2: map<nat, Page>, f2: seq<nat>, t2: Table)
    requires Kept(p0, f0, t0, p1, f1, t1) && Kept(p1, f1, t1, p2, f2, t2)
    ensures Kept(p0, f0, t0, p2, f2, t2)
  {
  }

  lemma FrameTable(pages: map<nat, Page>, pages': map<nat, Page>, t: Table)
    requires Refines(pages, t) && forall p :: p in t.tbl ==> p in pages' && pages'[p] == pages[p]
    ensures Refines(pages', t)
  {
    FrameLeaves(pages, pages', t.root, t.tbl);
    forall v | 0 <= v < VPNS ensures t.flat[v] == Leaf(pages', t.root, v) {
      assert Leaf(pages', t.root, v) == Leaf(pages, t.root, v);
    }
  }

  // ----- walk -----

  lemma LinkRefines(pages: map<nat, Page>, pages': map<nat, Page>, t: Table, pt: nat, i: nat, n: nat)
    requires Refines(pages, t) && Linked(pages, pages', t.tbl, pt, i, n) && !t.tbl[pt].Low? && !ValidPte(pages[pt][i])
    ensures Refines(pages', t.(tbl := t.tbl[n := Child(t.tbl[pt], i)]))
    ensures Node(pages', t.root, Child(t.tbl[pt], i)) == n
  {
    LinkKeepsTree(pages, pages', t.root, t.tbl, pt, i, n);
    LinkKeepsLeaves(pages, pages', t.root, t.tbl, pt, i, n);
    ChildNode(pages, t.root, t.tbl, pt, i);
    NodeLinked(pages, pages', t.root, t.tbl, pt, i, n, Child(t.tbl[pt], i));
    forall v | 0 <= v < VPNS ensures t.flat[v] == Leaf(pages', t.root, v) {
      assert Leaf(pages', t.root, v) == Leaf(pages, t.root, v);
    }
  }

  lemma LinkKept(pages: map<nat, Page>, pages': map<nat, Page>, free: seq<nat>, free': seq<nat>, t: Table, pt: nat,
                 n: nat, q: Path)
    requires free == [n] + free' && pages'.Keys == pages.Keys && pt in t.tbl && n !in t.tbl
    requires forall p :: p in pages && p != pt && p != n ==> pages'[p] == pages[p]
    ensures Kept(pages, free, t, pages', free', t.(tbl := t.tbl[n := q]))
  {
  }

  // The page `n` just allocated is cleared and linked in.
  method LinkTable(m: Memory, pt: nat, i: nat, n: nat, ghost t: Table, ghost p0: map<nat, Page>, ghost f0: seq<nat>)
    returns (ghost t': Table)
    requires m.Valid() && Refines(p0, t) && m.pages.Keys == p0.Keys && f0 == [n] + m.free && n != 0 && m.Managed(n)
    requires forall p :: p in p0 && p != n ==> m.pages[p] == p0[p]
    requires forall p :: p in t.tbl ==> m.Managed(p) && p !in f0
    requires pt in t.tbl && !t.tbl[pt].Low? && i < WORDS && !ValidPte(p0[pt][i]) && n !in m.free
    modifies m
    ensures t' == t.(tbl := t.tbl[n := Child(t.tbl[pt], i)]) && Space(m, t') && Kept(p0, f0, t, m.pages, m.free, t')
    ensures n == Node(m.pages, t.root, Child(t.tbl[pt], i)) && m.free == old(m.free)
  {
    m.SetPages(m.pages[n := Filled(0)][pt := m.pages[pt][i := MakePte(n, 0)]]);
    LinkRefines(p0, m.pages, t, pt, i, n);
    LinkKept(p0, m.pages, f0, m.free, t, pt, n, Child(t.tbl[pt], i));
    t' := t.(tbl := t.tbl[n := Child(t.tbl[pt], i)]);
  }

  // kalloc, clear, and link a table page into an empty entry.
  method NewTable(m: Memory, pt: nat, i: nat, ghost t: Table) returns (n: nat, ghost t': Table)
    requires Space(m, t) && pt in t.tbl && !t.tbl[pt].Low? && i < WORDS && !ValidPte(m.pages[pt][i])
    modifies m
    ensures Space(m, t') && t'.flat == t.flat && Kept(old(m.pages), old(m.free), t, m.pages, m.free, t')
    ensures n == Node(m.pages, t.root, Child(t.tbl[pt], i))
    ensures (n != 0 ==> n in t'.tbl && t'.tbl[n] == Child(t.tbl[pt], i))
    ensures n == 0 ==> m.free == []
  {
    t' := t;
    ChildNode(m.pages, t.root, t.tbl, pt, i);
    ghost var pages, free := m.pages, m.free;
    n := m.Kalloc();
    if n != 0 {
      t' := LinkTable(m, pt, i, n, t, pages, free);
    }
  }

  // One level of walk: the table an entry points to, created if absent and wanted.
  method WalkStep(m: Memory, pt: nat, i: nat, alloc: bool, ghost t: Table) returns (c: nat, ghost t': Table)
    requires Space(m, t) && pt in t.tbl && !t.tbl[pt].Low? && i < WORDS
    modifies m
    ensures Space(m, t') && t'.flat == t.flat && Kept(old(m.pages), old(m.free), t, m.pages, m.free, t')
    ensures c == Node(m.pages, t.root, Child(t.tbl[pt], i))
    ensures (c != 0 ==> c in t'.tbl && t'.tbl[c] == Child(t.tbl[pt], i))
    ensures c == 0 && alloc ==> m.free == []
    ensures !alloc ==> m.pages == old(m.pages) && m.free == old(m.free) && t' == t
  {
    t' := t;
    ChildNode(m.pages, t.root, t.tbl, pt, i);
    var pte := m.pages[pt][i];
    if ValidPte(pte) {
      c := PtePage(pte);
    } else if !alloc {
      c := 0;
    } else {
      c, t' := NewTable(m, pt, i, t);
    }
  }

  // PX(level, va)
  function Px(level: nat, va: nat): nat
    requires level <= 2
  {
    var v := va / PGSIZE;
    if level == 2 then I2(v) else if level == 1 then I1(v) else I0(v)
  }

  // The table that walk has reached before looking at `level`.
  function WalkPath(va: nat, level: nat): Path
    requires level <= 2
  {
    if level == 2 then Top else if level == 1 then Mid(Px(2, va)) else Low(Px(2, va), Px(1, va))
  }

  // One round of walk's loop, started from table `t0` in memory `p0` with free list `f0`.
  method WalkLevel(m: Memory, va: nat, level: nat, pt: nat, alloc: bool, ghost t: Table,
                   ghost p0: map<nat, Page>, ghost f0: seq<nat>, ghost t0: Table) returns (c: nat, ghost t': Table)
    requires 1 <= level <= 2 && Space(m, t) && Kept(p0, f0, t0, m.pages, m.free, t)
    requires pt in t.tbl && t.tbl[pt] == WalkPath(va, level)
    modifies m
    ensures Space(m, t') && t'.flat == t.flat && Kept(p0, f0, t0, m.pages, m.free, t')
    ensures c != 0 ==> c in t'.tbl && t'.tbl[c] == WalkPath(va, level - 1)
    ensures c == 0 ==> Node(m.pages, t.root, TablePath(va / PGSIZE)) == 0
    ensures c == 0 && alloc ==> m.free == []
    ensures !alloc ==> m.pages == old(m.pages) && m.free == old(m.free) && t' == t
  {
    ghost var pages, free := m.pages, m.free;
    c, t' := WalkStep(m, pt, Px(level, va), alloc, t);
    KeptTrans(p0, f0, t0, pages, free, t, m.pages, m.free, t');
  }

  /**
   walk: the leaf table and index for `va`.  Tables may be created on the way, but
   no translation changes; with `alloc` it fails only when no page is left.
   */
  method Walk(m: Memory, root: nat, va: nat, alloc: bool, ghost t: Table) returns (pt: nat, idx: nat, ghost t': Table)
    requires Space(m, t) && t.root == root && va < MAXVA
    modifies m
    ensures Space(m, t') && t'.flat == t.flat && Kept(old(m.pages), old(m.free), t, m.pages, m.free, t')
    ensures pt == Node(m.pages, root, TablePath(va / PGSIZE)) && idx == I0(va / PGSIZE)
    ensures pt != 0 ==> pt in t'.tbl && t'.tbl[pt] == TablePath(va / PGSIZE) && t.flat[va / PGSIZE] == m.pages[pt][idx]
    ensures pt == 0 ==> t.flat[va / PGSIZE] == 0
    ensures pt == 0 && alloc ==> m.free == []
    ensures !alloc ==> m.pages == old(m.pages) && m.free == old(m.free) && t' == t
  {
    pt, t', idx := root, t, Px(0, va);
    ghost var p0, f0 := m.pages, m.free;
    assert Node(m.pages, root, Top) == root;
    var level := 2;
    while level > 0
      invariant 0 <= level <= 2 && Space(m, t') && t'.flat == t.flat && Kept(p0, f0, t, m.pages, m.free, t')
      invariant pt in t'.tbl && t'.tbl[pt] == WalkPath(va, level)
      invariant !alloc ==> m.pages == old(m.pages) && m.free == old(m.free) && t' == t
    {
      pt, t' := WalkLevel(m, va, level, pt, alloc, t', p0, f0, t);
      if pt == 0 {
        assert t'.flat[va / PGSIZE] == Leaf(m.pages, root, va / PGSIZE);
        return;
      }
      level := level - 1;
    }
    assert t'.flat[va / PGSIZE] == Leaf(m.pages, root, va / PGSIZE);
  }

  // ----- mappages -----

  datatype MapResult = Mapped | NoMemory | Panic

  lemma PutRefines(pages: map<nat, Page>, t: Table, pt: nat, v: nat, w: nat)
    requires Refines(pages, t) && v < VPNS && pt != 0 && pt == Node(pages, t.root, TablePath(v))
    ensures pt in t.tbl && Refines(pages[pt := pages[pt][I0(v) := w]], t.(flat := t.flat[v := w]))
  {
    var pages' := pages[pt := pages[pt][I0(v) := w]];
    PutLeaf(pages, t.root, t.tbl, v, w);
    forall u | 0 <= u < VPNS ensures t.flat[v := w][u] == Leaf(pages', t.root, u) {
      assert t.flat[u] == Leaf(pages, t.root, u);
    }
  }

  // *pte = w, for the leaf entry of virtual page `v`.
  method WriteLeaf(m: Memory, pt: nat, v: nat, w: nat, ghost t: Table) returns (ghost t': Table)
    requires Space(m, t) && v < VPNS && pt != 0 && pt == Node(m.pages, t.root, TablePath(v))
    modifies m`pages
    ensures t' == t.(flat := t.flat[v := w]) && Space(m, t') && Kept(old(m.pages), m.free, t, m.pages, m.free, t')
  {
    PutRefines(m.pages, t, pt, v, w);
    m.SetPages(m.pages[pt := m.pages[pt][I0(v) := w]]);
    t' := t.(flat := t.flat[v := w]);
  }

  // One round of mappages: the page at `a` is mapped to `p`.
  method MapOne(m: Memory, root: nat, a: nat, p: nat, perm: nat, ghost t: Table)
    returns (res: MapResult, ghost t': Table)
    requires Space(m, t) && t.root == root && a < MAXVA && perm < 1024
    modifies m
    ensures Space(m, t') && Kept(old(m.pages), old(m.free), t, m.pages, m.free, t')
    ensures res == Mapped ==> t'.flat == t.flat[a / PGSIZE := MakePte(p, perm)]
    ensures res != Mapped ==> t'.flat == t.flat
    ensures res == NoMemory ==> m.free == []
    ensures res == Panic <==> ValidPte(t.flat[a / PGSIZE])
  {
    ghost var pages, free := m.pages, m.free;
    var pt, idx;
    pt, idx, t' := Walk(m, root, a, true, t);
    ghost var pages1, free1, t1 := m.pages, m.free, t';
    if pt == 0 {
      return NoMemory, t';
    }
    if ValidPte(m.pages[pt][idx]) {
      return Panic, t';
    }
    t' := WriteLeaf(m, pt, a / PGSIZE, MakePte(p, perm), t');
    KeptTrans(pages, free, t, pages1, free1, t1, m.pages, m.free, t');
    res := Mapped;
  }

  // `flat` with `n` virtual pages from `v` on leading to consecutive pages from `p`.
  function MapRange(flat: seq<nat>, v: nat, n: nat, p: nat, perm: nat): seq<nat>
    requires perm < 1024
  {
    seq<nat>(|flat|, u requires 0 <= u < |flat| => MapEntry(flat, v, n, p, perm, u))
  }

  function MapEntry(flat: seq<nat>, v: nat, n: nat, p: nat, perm: nat, u: nat): nat
    requires perm < 1024 && u < |flat|
  {
    if v <= u < v + n then MakePte(p + (u - v), perm) else flat[u]
  }

  lemma MapRangeNext(flat: seq<nat>, v: nat, n: nat, p: nat, perm: nat)
    requires perm < 1024 && v + n < |flat|
    ensures MapRange(flat, v, n, p, perm)[v + n := MakePte(p + n, perm)] == MapRange(flat, v, n + 1, p, perm)
  {
  }

  // mappages's progress: `n` pages of the range from virtual page `v` on lead to consecutive pages from `p`.
  ghost predicate MappedSome(t: Table, t': Table, v: nat, n: nat, p: nat, perm: nat, p0: map<nat, Page>, f0: seq<nat>,
                             p1: map<nat, Page>, f1: seq<nat>) {
    perm < 1024 && t'.flat == MapRange(t.flat, v, n, p, perm) && Kept(p0, f0, t, p1, f1, t')
  }

  lemma MappedNone(t: Table, v: nat, p: nat, perm: nat, p0: map<nat, Page>, f0: seq<nat>)
    requires perm < 1024
    ensures MappedSome(t, t, v, 0, p, perm, p0, f0, p0, f0)
  {
    assert t.flat == MapRange(t.flat, v, 0, p, perm);
  }

  // The next page of the range is not touched yet.
  lemma MappedAt(t: Table, t1: Table, v: nat, n: nat, p: nat, perm: nat, p0: map<nat, Page>, f0: seq<nat>,
                 p1: map<nat, Page>, f1: seq<nat>)
    requires MappedSome(t, t1, v, n, p, perm, p0, f0, p1, f1) && v + n < |t.flat|
    ensures |t1.flat| == |t.flat| && t1.flat[v + n] == t.flat[v + n]
  {
  }

  lemma MappedNext(t: Table, t1: Table, v: nat, n: nat, p: nat, perm: nat, p0: map<nat, Page>, f0: seq<nat>,
                   p1: map<nat, Page>, f1: seq<nat>, t2: Table, p2: map<nat, Page>, f2: seq<nat>, ok: bool)
    requires MappedSome(t, t1, v, n, p, perm, p0, f0, p1, f1) && Kept(p1, f1, t1, p2, f2, t2) && v + n < |t1.flat|
    requires t2.flat == if ok then t1.flat[v + n := MakePte(p + n, perm)] else t1.flat
    ensures MappedSome(t, t2, v, if ok then n + 1 else n, p, perm, p0, f0, p2, f2)
  {
    MapRangeNext(t.flat, v, n, p, perm);
    KeptTrans(p0, f0, t, p1, f1, t1, p2, f2, t2);
  }

  lemma PageAfter(va: nat, n: nat)
    ensures (va + n * PGSIZE) / PGSIZE == va / PGSIZE + n
  {
  }

  /**
   mappages: on success exactly the range is mapped, on lack of memory exactly the
   first `done` pages of it, and every other translation is unchanged; the panic
   means misuse or that page `done` of the range was mapped before.
   */
  method MapPages(m: Memory, root: nat, va: nat, size: nat, pa: nat, perm: nat, ghost t: Table)
    returns (res: MapResult, ghost done: nat, ghost t': Table)
    requires Space(m, t) && t.root == root && perm < 1024 && va + size <= MAXVA
    modifies m
    ensures Space(m, t')
    ensures MappedSome(t, t', va / PGSIZE, done, pa / PGSIZE, perm, old(m.pages), old(m.free), m.pages, m.free)
    ensures res == Mapped ==> done == size / PGSIZE
    ensures res == NoMemory ==> done < size / PGSIZE && m.free == []
    ensures var misuse := va % PGSIZE != 0 || size % PGSIZE != 0 || size == 0;
      res == Panic <==> misuse || (done < size / PGSIZE && ValidPte(t.flat[va / PGSIZE + done]))
  {
    done, t' := 0, t;
    MappedNone(t, va / PGSIZE, pa / PGSIZE, perm, m.pages, m.free);
    if va % PGSIZE != 0 || size % PGSIZE != 0 || size == 0 {
      return Panic, done, t';
    }
    ghost var p0, f0 := m.pages, m.free;
    var a, pa', last := va, pa, va + size - PGSIZE;
    while true
      invariant a == va + done * PGSIZE && pa' == pa + done * PGSIZE && a <= last
      invariant Space(m, t') && MappedSome(t, t', va / PGSIZE, done, pa / PGSIZE, perm, p0, f0, m.pages, m.free)
      decreases last - a
    {
      PageAfter(va, done);
      PageAfter(pa, done);
      res, t' := MapRound(m, root, a, pa' / PGSIZE, perm, t', p0, f0, t, va / PGSIZE, done, pa / PGSIZE);
      if res != Mapped {
        return;
      }
      done := done + 1;
      if a == last {
        break;
      }
      a := a + PGSIZE;
      pa' := pa' + PGSIZE;
    }
  }

  // One round of mappages, `done` pages into the range that starts at virtual page `v` and page frame `q`.
  method MapRound(m: Memory, root: nat, a: nat, p: nat, perm: nat, ghost t1: Table, ghost p0: map<nat, Page>,
                  ghost f0: seq<nat>, ghost t: Table, ghost v: nat, ghost done: nat, ghost q: nat)
    returns (res: MapResult, ghost t': Table)
    requires Space(m, t1) && t1.root == root && a < MAXVA && perm < 1024 && a / PGSIZE == v + done && p == q + done
    requires MappedSome(t, t1, v, done, q, perm, p0, f0, m.pages, m.free) && |t.flat| == VPNS
    modifies m
    ensures Space(m, t') && t'.root == root
    ensures MappedSome(t, t', v, if res == Mapped then done + 1 else done, q, perm, p0, f0, m.pages, m.free)
    ensures res == NoMemory ==> m.free == []
    ensures res == Panic <==> ValidPte(t.flat[v + done])
  {
    ghost var p1, f1 := m.pages, m.free;
    MappedAt(t, t1, v, done, q, perm, p0, f0, p1, f1);
    res, t' := MapOne(m, root, a, p, perm, t1);
    MappedNext(t, t1, v, done, q, perm, p0, f0, p1, f1, t', m.pages, m.free, res == Mapped);
  }
}
