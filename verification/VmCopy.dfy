/** vm.c's uvmcopy, which works on two address spaces at once. */
module VmCopy {
  import opened Common
  import opened VmMemory
  import opened VmTree
  import opened VmSpace
  import opened VmUser
  import opened VmGrow

  // The parent's table is no part of the child's, and its `n` user pages are mapped, in use, and none of the tables.
  ghost predicate Source(p0: map<nat, Page>, f0: seq<nat>, parent: Table, t: Table, n: nat) {
    && Refines(p0, parent) && n <= VPNS
    && (forall p :: p in parent.tbl ==> p !in t.tbl && p !in f0)
    && (forall u :: 0 <= u < n ==> SourceLeaf(p0, f0, t, parent.flat[u]) && PtePage(parent.flat[u]) !in parent.tbl)
  }

  ghost predicate SourceLeaf(p0: map<nat, Page>, f0: seq<nat>, t: Table, w: nat) {
    ValidPte(w) && PteFlags(w) > 1 && PtePage(w) in p0 && PtePage(w) !in f0 && PtePage(w) !in t.tbl
  }

  // The same contents and the same flags.
  ghost function CopyOf(p0: map<nat, Page>, parent: Table, n: nat): seq<UserPage>
    requires n <= |parent.flat| && forall u :: 0 <= u < n ==> PtePage(parent.flat[u]) in p0
  {
    seq(n, u requires 0 <= u < n => UserPage(PteFlags(parent.flat[u]), p0[PtePage(parent.flat[u])]))
  }

  // The parent's user pages hold what they held.
  ghost predicate SameData(p0: map<nat, Page>, p1: map<nat, Page>, parent: Table, n: nat) {
    n <= |parent.flat| && forall u :: 0 <= u < n ==>
      var p := PtePage(parent.flat[u]); p in p0 && p in p1 && p1[p] == p0[p]
  }

  // Whatever happens to the child, the parent is intact.
  lemma SourceKept(p0: map<nat, Page>, f0: seq<nat>, parent: Table, t: Table, n: nat,
                   p1: map<nat, Page>, f1: seq<nat>, t1: Table, held: set<nat>)
    requires Source(p0, f0, parent, t, n) && Accounted(p0, f0, t, p1, f1, t1, held)
    ensures Refines(p1, parent) && SameData(p0, p1, parent, n) && forall p :: p in parent.tbl ==> p !in f1
  {
    forall p | p in parent.tbl ensures p in p1 && p1[p] == p0[p] && p !in f1 {
      assert p in p0 && p !in Elems(f0) + t.tbl.Keys;
    }
    FrameTable(p0, p1, parent);
    forall u | 0 <= u < n ensures var p := PtePage(parent.flat[u]); p in p0 && p in p1 && p1[p] == p0[p] {
      assert PtePage(parent.flat[u]) !in Elems(f0) + t.tbl.Keys;
    }
  }

  ghost predicate ParentKept(m: Memory, parent: Table, p0: map<nat, Page>, n: nat)
    reads m
  {
    Space(m, parent) && SameData(p0, m.pages, parent, n)
  }

  // One round: the page at `a` is copied, or there was no memory for it.
  method CopyOne(m: Memory, oldRoot: nat, newRoot: nat, a: nat, ghost parent: Table, ghost t1: Table,
                 ghost p0: map<nat, Page>, ghost f0: seq<nat>, ghost t: Table, ghost i: nat, ghost n: nat)
    returns (panic: bool, ok: bool, ghost t': Table)
    requires ParentKept(m, parent, p0, n) && parent.root == oldRoot && Source(p0, f0, parent, t, n)
    requires Space(m, t1) && t1.root == newRoot && a % PGSIZE == 0 && a < MAXVA && a / PGSIZE == i < n
    requires Grown(p0, f0, t, m.pages, m.free, t1, 0, i, CopyOf(p0, parent, n)) && Vacant(t.flat, 0, n)
    modifies m
    ensures !panic && Space(m, t') && ParentKept(m, parent, p0, n)
    ensures ok ==> Grown(p0, f0, t, m.pages, m.free, t', 0, i + 1, CopyOf(p0, parent, n))
    ensures !ok ==> Grown(p0, f0, t, m.pages, m.free, t', 0, i, CopyOf(p0, parent, n))
  {
    var data, flags;
    panic, data, flags := ReadPage(m, oldRoot, a, parent, p0, f0, t, n);
    ok, t' := GrowOne(m, newRoot, a, data, flags, t1, p0, f0, t, 0, i, CopyOf(p0, parent, n));
    SourceKept(p0, f0, parent, t, n, m.pages, m.free, t', RangePages(t'.flat, 0, if ok then i + 1 else i));
  }

  // The parent's page at `a`: contents and flags.
  method ReadPage(m: Memory, root: nat, a: nat, ghost parent: Table, ghost p0: map<nat, Page>, ghost f0: seq<nat>,
                  ghost t: Table, ghost n: nat)
    returns (panic: bool, data: Page, flags: nat)
    requires ParentKept(m, parent, p0, n) && parent.root == root && Source(p0, f0, parent, t, n) && a < MAXVA
    requires a / PGSIZE < n
    modifies m
    ensures m.pages == old(m.pages) && m.free == old(m.free) && m.Valid()
    ensures !panic && 1 < flags < 1024 && UserPage(flags, data) == CopyOf(p0, parent, n)[a / PGSIZE]
  {
    var pt, idx;
    ghost var same;
    pt, idx, same := Walk(m, root, a, false, parent);
    assert SourceLeaf(p0, f0, t, parent.flat[a / PGSIZE]);
    panic := pt == 0 || !ValidPte(m.pages[pt][idx]);
    assert !panic;
    var pte := m.pages[pt][idx];
    data, flags := m.pages[PtePage(pte)], PteFlags(pte);
  }

  /**
   uvmcopy: the child gets the same contents with the same flags on page frames of
   its own, or its mappings are as they were and no page is lost; the parent is
   untouched either way; CopyOne shows the panics unreachable.
   */
  method UvmCopy(m: Memory, oldRoot: nat, newRoot: nat, sz: nat, ghost parent: Table, ghost t: Table)
    returns (copied: bool, ghost t': Table)
    requires Space(m, parent) && parent.root == oldRoot && Space(m, t) && t.root == newRoot && sz <= MAXVA
    requires Source(m.pages, m.free, parent, t, PageCount(sz)) && Vacant(t.flat, 0, PageCount(sz))
    modifies m
    ensures Space(m, t') && ParentKept(m, parent, old(m.pages), PageCount(sz))
    ensures copied ==>
      Grown(old(m.pages), old(m.free), t, m.pages, m.free, t', 0, PageCount(sz),
            old(CopyOf(m.pages, parent, PageCount(sz))))
    ensures !copied ==>
      SameMappings(t.flat, t'.flat) && Accounted(old(m.pages), old(m.free), t, m.pages, m.free, t', {})
  {
    ghost var p0, f0, n, i := m.pages, m.free, PageCount(sz), 0;
    ghost var want := CopyOf(p0, parent, n);
    t' := t;
    GrownStart(p0, f0, t, 0, want);
    var a := 0;
    while a < sz
      invariant a == i * PGSIZE && i <= n && Space(m, t') && ParentKept(m, parent, p0, n)
      invariant Grown(p0, f0, t, m.pages, m.free, t', 0, i, want)
    {
      RoundsLeft(0, i, n, sz);
      Aligned(0, i);
      var panic, ok;
      panic, ok, t' := CopyOne(m, oldRoot, newRoot, a, parent, t', p0, f0, t, i, n);
      if !ok {
        t' := UndoCopy(m, newRoot, a / PGSIZE, parent, t', p0, f0, t, n);
        return false, t';
      }
      i := i + 1;
      a := a + PGSIZE;
    }
    RoundsLeft(0, i, n, sz);
    copied := true;
  }

  // The error path: uvmunmap of what was copied so far.
  method UndoCopy(m: Memory, newRoot: nat, k: nat, ghost parent: Table, ghost t1: Table,
                  ghost p0: map<nat, Page>, ghost f0: seq<nat>, ghost t: Table, ghost n: nat) returns (ghost t': Table)
    requires Source(p0, f0, parent, t, n) && ParentKept(m, parent, p0, n) && Space(m, t1) && t1.root == newRoot
    requires k <= n && k * PGSIZE <= MAXVA
    requires Grown(p0, f0, t, m.pages, m.free, t1, 0, k, CopyOf(p0, parent, n)) && Vacant(t.flat, 0, n)
    requires forall p :: p in f0 ==> m.Managed(p)
    modifies m
    ensures Space(m, t') && ParentKept(m, parent, p0, n) && SameMappings(t.flat, t'.flat)
    ensures Accounted(p0, f0, t, m.pages, m.free, t', {})
  {
    var ok;
    forall j | 0 <= j < n ensures 1 < CopyOf(p0, parent, n)[j].perm < 1024 {
      assert SourceLeaf(p0, f0, t, parent.flat[j]);
    }
    ok, t' := Undo(m, newRoot, 0, k, t1, p0, f0, t, CopyOf(p0, parent, n));
    SourceKept(p0, f0, parent, t, n, m.pages, m.free, t', {});
  }
}
