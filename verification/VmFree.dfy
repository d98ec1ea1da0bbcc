/**
 vm.c's freewalk and uvmfree, and the page tables proc.c builds and tears down:
 what a page table took from the allocator it gives back, to the last page.
 */
module VmFree {
  import opened Common
  import opened VmMemory
  import opened VmTree
  import opened VmSpace
  import opened VmUser
  import opened VmGrow

  // ----- subtrees -----

  // Path `r` is strictly below `q`.
  predicate Below(r: Path, q: Path) {
    (q.Top? && !r.Top?) || (q.Mid? && r.Low? && r.i == q.i)
  }

  // Which entry of the table at `q` leads to `r`.
  function Branch(r: Path, q: Path): nat
    requires Below(r, q)
  {
    if q.Top? then r.i else r.j
  }

  ghost function Subtree(tbl: map<nat, Path>, q: Path): set<nat> {
    set p | p in tbl && (tbl[p] == q || Below(tbl[p], q))
  }

  // The pages below `q` through entries before `i`.
  ghost function Before(tbl: map<nat, Path>, q: Path, i: nat): set<nat> {
    set p | p in tbl && Below(tbl[p], q) && Branch(tbl[p], q) < i
  }

  lemma BeforeNext(tbl: map<nat, Path>, q: Path, i: nat)
    requires !q.Low?
    ensures Before(tbl, q, i + 1) == Before(tbl, q, i) + Subtree(tbl, Child(q, i))
    ensures Before(tbl, q, i) !! Subtree(tbl, Child(q, i))
  {
  }

  // An entry that is not valid has nothing below it.
  lemma NothingBelow(pages: map<nat, Page>, root: nat, tbl: map<nat, Path>, t: nat, i: nat)
    requires Tree(pages, root, tbl) && t in tbl && i < WORDS && !ValidPte(pages[t][i])
    ensures Before(tbl, tbl[t], i + 1) == Before(tbl, tbl[t], i)
  {
    if !tbl[t].Low? {
      ChildNode(pages, root, tbl, t, i);
      var c := Child(tbl[t], i);
      forall p | p in tbl ensures tbl[p] != c && !Below(tbl[p], c) {
        assert Node(pages, root, tbl[p]) == p;
      }
      BeforeNext(tbl, tbl[t], i);
      assert Subtree(tbl, c) == {};
    }
  }

  lemma WholeSubtree(pages: map<nat, Page>, root: nat, tbl: map<nat, Path>, t: nat)
    requires Tree(pages, root, tbl) && t in tbl
    ensures Subtree(tbl, tbl[t]) == Before(tbl, tbl[t], WORDS) + {t} && t !in Before(tbl, tbl[t], WORDS)
  {
    forall p | p in tbl && tbl[p] == tbl[t] ensures p == t {
      assert Node(pages, root, tbl[p]) == p;
    }
  }

  // ----- freewalk -----

  // The walk starts from tree `tbl` in memory `was`; no leaf entry is valid.
  ghost predicate Bare(was: map<nat, Page>, root: nat, tbl: map<nat, Path>) {
    Tree(was, root, tbl) && forall p, i :: p in tbl && tbl[p].Low? && 0 <= i < WORDS ==> !ValidPte(was[p][i])
  }

  // The pages of `part` are still allocated and hold what they held.
  ghost predicate Intact(pages: map<nat, Page>, free: seq<nat>, was: map<nat, Page>, part: set<nat>) {
    forall p :: p in part ==> p !in free && p in was && p in pages && pages[p] == was[p]
  }

  ghost predicate SameBut(pages: map<nat, Page>, pages': map<nat, Page>, except: set<nat>) {
    pages'.Keys == pages.Keys && forall p :: p in pages && p !in except ==> pages'[p] == pages[p]
  }

  // Progress at table `t`, `i` entries done, since memory `p0` with free list `f0`.
  ghost predicate Walked(pages: map<nat, Page>, free: seq<nat>, was: map<nat, Page>, tbl: map<nat, Path>, t: nat,
                         i: nat, p0: map<nat, Page>, f0: seq<nat>) {
    && t in tbl && t in was && t in pages && t !in free && i <= WORDS
    && Elems(free) == Elems(f0) + Before(tbl, tbl[t], i)
    && SameBut(p0, pages, Subtree(tbl, tbl[t]))
    && Intact(pages, free, was, Subtree(tbl, tbl[t]) - Before(tbl, tbl[t], i) - {t})
    && forall k :: i <= k < WORDS ==> pages[t][k] == was[t][k]
  }

  // In a bare tree a valid entry leads to a table.
  lemma EntryKind(was: map<nat, Page>, root: nat, tbl: map<nat, Path>, t: nat, i: nat)
    requires Bare(was, root, tbl) && t in tbl && i < WORDS && ValidPte(was[t][i])
    ensures !tbl[t].Low? && Rwx(was[t][i]) == 0
    ensures PtePage(was[t][i]) in tbl && tbl[PtePage(was[t][i])] == Child(tbl[t], i)
  {
    ChildNode(was, root, tbl, t, i);
    var w := was[t][i];
    assert Interior(w);
    assert w == 1024 * (w / 1024) + 1;
    FlagBits(w / 1024, 1);
  }

  lemma SubtreeLeft(tbl: map<nat, Path>, t: nat, i: nat)
    requires t in tbl && !tbl[t].Low?
    ensures Subtree(tbl, Child(tbl[t], i)) <= Subtree(tbl, tbl[t]) - Before(tbl, tbl[t], i) - {t}
  {
  }

  // After the child behind entry `i` is freed and the entry cleared.
  lemma WalkedNext(pages1: map<nat, Page>, free1: seq<nat>, pages2: map<nat, Page>, free2: seq<nat>,
                   was: map<nat, Page>, tbl: map<nat, Path>, t: nat, i: nat, p0: map<nat, Page>, f0: seq<nat>)
    requires Walked(pages1, free1, was, tbl, t, i, p0, f0) && i < WORDS && !tbl[t].Low?
    requires Elems(free2) == Elems(free1) + Subtree(tbl, Child(tbl[t], i))
    requires SameBut(pages1, pages2, Subtree(tbl, Child(tbl[t], i)))
    ensures t in pages2 && t !in free2
    ensures Walked(pages2[t := pages2[t][i := 0]], free2, was, tbl, t, i + 1, p0, f0)
  {
    BeforeNext(tbl, tbl[t], i);
    SubtreeLeft(tbl, t, i);
    assert t !in Elems(free2);
    var q := Subtree(tbl, tbl[t]);
    var pages3 := pages2[t := pages2[t][i := 0]];
    forall p | p in q - Before(tbl, tbl[t], i + 1) - {t}
      ensures p !in free2 && p in was && p in pages3 && pages3[p] == was[p] {
      assert p in q - Before(tbl, tbl[t], i) - {t} && p !in Elems(free2);
    }
  }

  /**
   freewalk: from a tree without leaf mappings it frees exactly the tables at or
   below `t`, each once, and touches no other page; the panic is unreachable.
   */
  method FreeWalk(m: Memory, t: nat, ghost was: map<nat, Page>, ghost root: nat, ghost tbl: map<nat, Path>)
    returns (ok: bool)
    requires m.Valid() && Bare(was, root, tbl) && t in tbl && Intact(m.pages, m.free, was, Subtree(tbl, tbl[t]))
    requires forall p :: p in tbl ==> m.Managed(p)
    modifies m
    ensures ok && m.Valid() && Elems(m.free) == Elems(old(m.free)) + Subtree(tbl, tbl[t])
    ensures SameBut(old(m.pages), m.pages, Subtree(tbl, tbl[t]))
    decreases Height(tbl[t]), 1
  {
    ghost var p0, f0 := m.pages, m.free;
    assert Before(tbl, tbl[t], 0) == {};
    var i := 0;
    while i < WORDS
      invariant m.Valid() && i <= WORDS && Walked(m.pages, m.free, was, tbl, t, i, p0, f0)
    {
      ok := FreeEntry(m, t, i, was, root, tbl, p0, f0);
      i := i + 1;
    }
    ok := FreeTable(m, t, was, root, tbl, p0, f0);
  }

  // The last step: the table itself goes.
  method FreeTable(m: Memory, t: nat, ghost was: map<nat, Page>, ghost root: nat, ghost tbl: map<nat, Path>,
                   ghost p0: map<nat, Page>, ghost f0: seq<nat>) returns (ok: bool)
    requires m.Valid() && Bare(was, root, tbl) && Walked(m.pages, m.free, was, tbl, t, WORDS, p0, f0) && m.Managed(t)
    modifies m
    ensures ok && m.Valid() && Elems(m.free) == Elems(f0) + Subtree(tbl, tbl[t])
    ensures SameBut(p0, m.pages, Subtree(tbl, tbl[t]))
  {
    ghost var p1, f1 := m.pages, m.free;
    ok := m.Kfree(t * PGSIZE);
    WalkedAll(p1, f1, m.pages, was, root, tbl, t, p0, f0);
  }

  lemma WalkedAll(p1: map<nat, Page>, f1: seq<nat>, p2: map<nat, Page>, was: map<nat, Page>, root: nat,
                  tbl: map<nat, Path>, t: nat, p0: map<nat, Page>, f0: seq<nat>)
    requires Bare(was, root, tbl) && Walked(p1, f1, was, tbl, t, WORDS, p0, f0) && SameBut(p1, p2, {t})
    ensures Elems([t] + f1) == Elems(f0) + Subtree(tbl, tbl[t]) && SameBut(p0, p2, Subtree(tbl, tbl[t]))
  {
    WholeSubtree(was, root, tbl, t);
    ElemsCons(t, f1);
  }

  function Height(q: Path): nat {
    if q.Top? then 2 else if q.Mid? then 1 else 0
  }

  // One round of freewalk's loop; false where the kernel panics.
  method FreeEntry(m: Memory, t: nat, i: nat, ghost was: map<nat, Page>, ghost root: nat, ghost tbl: map<nat, Path>,
                   ghost p0: map<nat, Page>, ghost f0: seq<nat>) returns (ok: bool)
    requires m.Valid() && Bare(was, root, tbl) && i < WORDS && Walked(m.pages, m.free, was, tbl, t, i, p0, f0)
    requires forall p :: p in tbl ==> m.Managed(p)
    modifies m
    ensures ok && m.Valid() && Walked(m.pages, m.free, was, tbl, t, i + 1, p0, f0)
    decreases Height(tbl[t]), 0
  {
    var pte := m.pages[t][i];
    ok := true;
    if ValidPte(pte) && Rwx(pte) == 0 {
      EntryKind(was, root, tbl, t, i);
      SubtreeLeft(tbl, t, i);
      ghost var p1, f1 := m.pages, m.free;
      ok := FreeWalk(m, PtePage(pte), was, root, tbl);
      WalkedNext(p1, f1, m.pages, m.free, was, tbl, t, i, p0, f0);
      m.SetPages(m.pages[t := m.pages[t][i := 0]]);
    } else if ValidPte(pte) {
      ok := false;
      EntryKind(was, root, tbl, t, i);
    } else {
      NothingBelow(was, root, tbl, t, i);
    }
  }

  // ----- uvmfree -----

  lemma Compose(i: nat, j: nat, k: nat)
    requires i < WORDS && j < WORDS && k < WORDS
    ensures var v := 512 * (512 * i + j) + k; v < VPNS && I2(v) == i && I1(v) == j && I0(v) == k
  {
    var v := 512 * (512 * i + j) + k;
    assert v / 512 == 512 * i + j;
    assert v / 0x4_0000 == v / 512 / 512;
  }

  // With no valid translation left, no leaf table holds a valid entry.
  lemma BareTree(pages: map<nat, Page>, t: Table)
    requires Refines(pages, t) && Vacant(t.flat, 0, VPNS)
    ensures Bare(pages, t.root, t.tbl)
  {
    forall p, k | p in t.tbl && t.tbl[p].Low? && 0 <= k < WORDS ensures !ValidPte(pages[p][k]) {
      var v := 512 * (512 * t.tbl[p].i + t.tbl[p].j) + k;
      Compose(t.tbl[p].i, t.tbl[p].j, k);
      assert t.flat[v] == Leaf(pages, t.root, v);
    }
  }

  lemma WholeTree(t: Table)
    ensures Subtree(t.tbl, Top) == t.tbl.Keys
  {
  }

  // The table's pages, and the page frames of `n` user pages from virtual page 0.
  ghost function Holdings(t: Table, n: nat): set<nat>
    requires n <= |t.flat|
  {
    t.tbl.Keys + RangePages(t.flat, 0, n)
  }

  // freewalk from the root.
  method FreeTables(m: Memory, root: nat, ghost t: Table)
    requires Space(m, t) && t.root == root && Vacant(t.flat, 0, VPNS)
    modifies m
    ensures m.Valid() && Elems(m.free) == Elems(old(m.free)) + t.tbl.Keys && SameBut(old(m.pages), m.pages, t.tbl.Keys)
  {
    BareTree(m.pages, t);
    WholeTree(t);
    assert Node(m.pages, root, Top) == root;
    var ok := FreeWalk(m, root, m.pages, root, t.tbl);
  }

  /**
   uvmfree: the whole address space, user pages and tables, is back on the free list, and
   no other page is touched.
   */
  method UvmFree(m: Memory, root: nat, sz: nat, ghost t: Table)
    requires Space(m, t) && t.root == root && sz <= MAXVA
    requires UserRange(m, t, 0, PageCount(sz)) && Vacant(t.flat, PageCount(sz), VPNS - PageCount(sz))
    modifies m
    ensures m.Valid() && Elems(m.free) == Elems(old(m.free)) + Holdings(t, PageCount(sz))
    ensures SameBut(old(m.pages), m.pages, Holdings(t, PageCount(sz)))
  {
    ghost var t1 := t;
    ghost var p0, f0 := m.pages, m.free;
    if sz > 0 {
      var ok;
      RoundUp(0, sz);
      ok, t1 := UvmUnmap(m, root, 0, PageCount(sz), true, t);
    } else {
      UnmapNone(t, 0, m.pages, m.free);
    }
    FreeTables(m, root, t1);
  }

  // ----- process page tables -----

  const TRAMPOLINE: nat := MAXVA - PGSIZE
  const TRAPFRAME: nat := TRAMPOLINE - PGSIZE

  function NoFlat(): seq<nat> {
    seq<nat>(VPNS, _ => 0)
  }

  lemma EmptyTable(pages: map<nat, Page>, root: nat)
    requires root != 0 && root in pages && pages[root] == Filled(0)
    ensures Refines(pages, Table(root, map[root := Top], NoFlat()))
  {
    forall q | IsPath(q) ensures Node(pages, root, q) == if q.Top? then root else 0 {
      if q.Mid? || q.Low? {
        assert Entry(pages, root, q.i) == 0;
      }
    }
    forall v: nat | v < VPNS ensures Leaf(pages, root, v) == 0 { }
  }

  /** uvmcreate: an empty address space on one page, or 0 when there is none. */
  method UvmCreate(m: Memory) returns (root: nat, ghost t: Table)
    requires m.Valid()
    modifies m
    ensures root == 0 <==> old(m.free) == []
    ensures root == 0 ==> m.Valid() && m.pages == old(m.pages) && m.free == old(m.free)
    ensures root != 0 ==> Space(m, t) && t == Table(root, map[root := Top], NoFlat())
    ensures root != 0 ==> [root] + m.free == old(m.free) && SameBut(old(m.pages), m.pages, {root})
  {
    root := m.Kalloc();
    t := Table(root, map[root := Top], NoFlat());
    if root != 0 {
      m.SetPages(m.pages[root := Filled(0)]);
      EmptyTable(m.pages, root);
    }
  }

  // A table built out of free list `f0`: its pages and the free list are what `f0` was.
  ghost predicate BuiltFrom(p0: map<nat, Page>, f0: seq<nat>, p: map<nat, Page>, f: seq<nat>, t: Table) {
    Elems(f) + t.tbl.Keys == Elems(f0) && SameBut(p0, p, Elems(f0))
  }

  lemma StillBuilt(p0: map<nat, Page>, f0: seq<nat>, p: map<nat, Page>, f: seq<nat>, t: Table, p1: map<nat, Page>,
                   f1: seq<nat>, t1: Table)
    requires BuiltFrom(p0, f0, p, f, t) && Kept(p, f, t, p1, f1, t1)
    ensures BuiltFrom(p0, f0, p1, f1, t1)
  {
  }

  // uvmfree of a table without user memory.
  method Abandon(m: Memory, root: nat, ghost t: Table, ghost p0: map<nat, Page>, ghost f0: seq<nat>)
    requires Space(m, t) && t.root == root && Vacant(t.flat, 0, VPNS) && BuiltFrom(p0, f0, m.pages, m.free, t)
    modifies m
    ensures m.Valid() && Elems(m.free) == Elems(f0) && SameBut(p0, m.pages, Elems(f0))
  {
    assert RangePages(t.flat, 0, 0) == {};
    UvmFree(m, root, 0, t);
  }

  const TRAMPOLINE_PERM: nat := 10   // PTE_R | PTE_X
  const TRAPFRAME_PERM: nat := 6     // PTE_R | PTE_W

  // The address space of a process without user memory.
  function ProcFlat(trampoline: nat, trapframe: nat): seq<nat> {
    TrampolineFlat(trampoline)[TRAPFRAME / PGSIZE := MakePte(trapframe, TRAPFRAME_PERM)]
  }

  function TrampolineFlat(trampoline: nat): seq<nat> {
    NoFlat()[TRAMPOLINE / PGSIZE := MakePte(trampoline, TRAMPOLINE_PERM)]
  }

  /**
   proc_pagetable: a table that maps exactly the trampoline and the trapframe, or 0
   with every page it had taken back on the free list.
   */
  method ProcPagetable(m: Memory, trampoline: nat, trapframe: nat) returns (root: nat, ghost t: Table)
    requires m.Valid()
    modifies m
    ensures Finished(m, root, t, trampoline, trapframe, old(m.pages), old(m.free))
    ensures root != 0 ==> TwoEntries(t.flat, trampoline, trapframe)
  {
    ghost var p0, f0 := m.pages, m.free;
    root, t := UvmCreate(m);
    if root != 0 {
      ElemsCons(root, m.free);
      root, t := MapTrampoline(m, root, trampoline, trapframe, t, p0, f0);
    }
    ProcFlatEntries(trampoline, trapframe);
  }

  // The top page below MAXVA is the trampoline, valid, readable and executable; the page below it is the trapframe,
  // valid,
  // readable and writable; neither is the user's, and nothing else is mapped.
  ghost predicate TwoEntries(flat: seq<nat>, trampoline: nat, trapframe: nat) {
    && |flat| == 0x800_0000 && flat[0x3ff_ffff] == 1024 * trampoline + 11 && flat[0x3ff_fffe] == 1024 * trapframe + 7
    && forall u :: 0 <= u < |flat| && u != 0x3ff_ffff && u != 0x3ff_fffe ==> flat[u] == 0
  }

  lemma ProcFlatEntries(trampoline: nat, trapframe: nat)
    ensures TwoEntries(ProcFlat(trampoline, trapframe), trampoline, trapframe)
  {
  }

  // Either the finished table or everything returned.
  ghost predicate Finished(m: Memory, root: nat, t: Table, trampoline: nat, trapframe: nat, p0: map<nat, Page>,
                           f0: seq<nat>)
    reads m
  {
    && m.Valid()
    && (root != 0 ==> Space(m, t) && t.root == root && BuiltFrom(p0, f0, m.pages, m.free, t))
    && (root != 0 ==> t.flat == ProcFlat(trampoline, trapframe))
    && (root == 0 ==> Elems(m.free) == Elems(f0) && SameBut(p0, m.pages, Elems(f0)))
  }

  method MapTrampoline(m: Memory, root: nat, trampoline: nat, trapframe: nat, ghost t: Table, ghost p0: map<nat, Page>,
                       ghost f0: seq<nat>)
    returns (r: nat, ghost t': Table)
    requires Space(m, t) && t.root == root && t.flat == NoFlat() && BuiltFrom(p0, f0, m.pages, m.free, t)
    modifies m
    ensures Finished(m, r, t', trampoline, trapframe, p0, f0)
  {
    var ok;
    ok, t' := MapFixed(m, root, TRAMPOLINE, trampoline, TRAMPOLINE_PERM, t, p0, f0);
    if !ok {
      Abandon(m, root, t', p0, f0);
      return 0, t';
    }
    r, t' := MapTrapframe(m, root, trampoline, trapframe, t', p0, f0);
  }

  method MapTrapframe(m: Memory, root: nat, trampoline: nat, trapframe: nat, ghost t: Table, ghost p0: map<nat, Page>,
                      ghost f0: seq<nat>)
    returns (r: nat, ghost t': Table)
    requires Space(m, t) && t.root == root && t.flat == TrampolineFlat(trampoline)
    requires BuiltFrom(p0, f0, m.pages, m.free, t)
    modifies m
    ensures Finished(m, r, t', trampoline, trapframe, p0, f0)
  {
    var ok;
    ok, t' := MapFixed(m, root, TRAPFRAME, trapframe, TRAPFRAME_PERM, t, p0, f0);
    if !ok {
      Withdraw(m, root, trampoline, t', p0, f0);
      return 0, t';
    }
    r := root;
  }

  method MapFixed(m: Memory, root: nat, a: nat, p: nat, perm: nat, ghost t: Table, ghost p0: map<nat, Page>,
                  ghost f0: seq<nat>)
    returns (ok: bool, ghost t': Table)
    requires Space(m, t) && t.root == root && a % PGSIZE == 0 && a < MAXVA && perm < 1024
    requires !ValidPte(t.flat[a / PGSIZE])
    requires BuiltFrom(p0, f0, m.pages, m.free, t)
    modifies m
    ensures Space(m, t') && t'.root == root && BuiltFrom(p0, f0, m.pages, m.free, t')
    ensures t'.flat == if ok then t.flat[a / PGSIZE := MakePte(p, perm)] else t.flat
  {
    ghost var p1, f1 := m.pages, m.free;
    ok, t' := MapPage(m, root, a, p, perm, t);
    StillBuilt(p0, f0, p1, f1, t, m.pages, m.free, t');
  }

  // The second error path: the trampoline is unmapped, not freed, before the table goes.
  method Withdraw(m: Memory, root: nat, trampoline: nat, ghost t: Table, ghost p0: map<nat, Page>, ghost f0: seq<nat>)
    requires Space(m, t) && t.root == root && t.flat == TrampolineFlat(trampoline)
    requires BuiltFrom(p0, f0, m.pages, m.free, t)
    modifies m
    ensures m.Valid() && Elems(m.free) == Elems(f0) && SameBut(p0, m.pages, Elems(f0))
  {
    PteRoundTrip(trampoline, TRAMPOLINE_PERM);
    ghost var t1 := Unfix(m, root, TRAMPOLINE, t);
    Abandon(m, root, t1, p0, f0);
  }

  // uvmunmap of one page that stays allocated.
  method Unfix(m: Memory, root: nat, a: nat, ghost t: Table) returns (ghost t': Table)
    requires Space(m, t) && t.root == root && a % PGSIZE == 0 && a < MAXVA
    requires ValidPte(t.flat[a / PGSIZE]) && PteFlags(t.flat[a / PGSIZE]) != 1
    modifies m
    ensures Space(m, t') && t' == t.(flat := t.flat[a / PGSIZE := 0])
    ensures Elems(m.free) == Elems(old(m.free)) && SameBut(old(m.pages), m.pages, t.tbl.Keys)
  {
    var ok;
    ok, t' := UvmUnmap(m, root, a, 1, false, t);
    assert ClearRange(t.flat, a / PGSIZE, 1) == t.flat[a / PGSIZE := 0];
  }

  /** proc_freepagetable: user pages and tables are freed; the trampoline and trapframe pages are not. */
  method ProcFreepagetable(m: Memory, root: nat, sz: nat, ghost t: Table)
    requires Space(m, t) && t.root == root && sz <= TRAPFRAME && UserRange(m, t, 0, PageCount(sz))
    requires MappedRange(t.flat, TRAPFRAME / PGSIZE, 2)
    requires Vacant(t.flat, PageCount(sz), TRAPFRAME / PGSIZE - PageCount(sz))
    requires Vacant(t.flat, MAXVA / PGSIZE, VPNS - MAXVA / PGSIZE)
    modifies m
    ensures m.Valid() && Elems(m.free) == Elems(old(m.free)) + Holdings(t, PageCount(sz))
    ensures SameBut(old(m.pages), m.pages, Holdings(t, PageCount(sz)))
  {
    ghost var t1 := Unfix(m, root, TRAMPOLINE, t);
    ghost var t2 := Unfix(m, root, TRAPFRAME, t1);
    SamePages(t.flat, t2.flat, 0, PageCount(sz));
    UserKept(m, t, t2, PageCount(sz), old(m.free));
    UvmFree(m, root, sz, t2);
  }

  lemma UserKept(m: Memory, t: Table, t': Table, n: nat, free: seq<nat>)
    requires OwnRange(m.first, m.limit, t, free, 0, n) && t'.tbl == t.tbl && n <= |t'.flat|
    requires t'.flat[..n] == t.flat[..n]
    requires Elems(m.free) == Elems(free)
    ensures UserRange(m, t', 0, n)
  {
    forall u | 0 <= u < n ensures t'.flat[u] == t.flat[u] && OwnLeaf(m.first, m.limit, t', m.free, t'.flat[u]) {
      assert t'.flat[u] == t'.flat[..n][u] == t.flat[..n][u] == t.flat[u];
      assert OwnLeaf(m.first, m.limit, t, free, t.flat[u]);
      assert PtePage(t.flat[u]) !in Elems(m.free);
    }
  }
}
