/**
 Address spaces side by side.  What each process holds and the free list partition
 the pages given to the allocator, and what a process sees of its memory depends on
 its own holdings alone.  Each way an address space can change is a trade with the
 free list, which leaves every other one sound and its view as it was.
 */
module VmPartition {
  import opened Common
  import opened VmMemory
  import opened VmTree
  import opened VmSpace
  import opened VmUser
  import opened VmGrow
  import opened VmFree

  // ----- partitions -----

  // `all` is split between the free list and the holders.
  ghost predicate Partition(all: set<nat>, free: set<nat>, holds: seq<set<nat>>) {
    && (forall p :: p in all ==> p in free || HeldBySome(holds, p))
    && free <= all && (forall k :: 0 <= k < |holds| ==> holds[k] <= all && holds[k] !! free)
    && (forall k, l :: 0 <= k < l < |holds| ==> holds[k] !! holds[l])
  }

  ghost predicate HeldBySome(holds: seq<set<nat>>, p: nat) {
    exists k :: 0 <= k < |holds| && p in holds[k]
  }

  /** One holder trading pages with the free list keeps the partition. */
  lemma TradeKeepsPartition(all: set<nat>, free: set<nat>, holds: seq<set<nat>>, k: nat, free': set<nat>,
                            held: set<nat>)
    requires Partition(all, free, holds) && k < |holds| && free' + held == free + holds[k] && free' !! held
    ensures Partition(all, free', holds[k := held])
  {
    var holds' := holds[k := held];
    forall p | p in all ensures p in free' || HeldBySome(holds', p) {
      if p in free + holds[k] {
        assert p in free' || p in holds'[k];
      } else {
        var l :| 0 <= l < |holds| && p in holds[l];
        assert p in holds'[l];
      }
    }
    forall l | 0 <= l < |holds| && l != k ensures holds[l] !! free' && holds[l] !! held {
      assert holds[l] !! holds[k];
      forall p | p in holds[l] ensures p !in free' + held { assert p !in free + holds[k]; }
    }
  }

  // ----- one process's memory -----

  // The allocator's pages, and the page of the trampoline.
  datatype Bounds = Bounds(first: nat, limit: nat, trampoline: nat)

  // p->trapframe and p->pagetable as page numbers, and p->sz; an entry not in use has none of them.
  datatype Entry = Entry(trapframe: nat, root: nat, sz: nat)

  const NOBODY: Entry := Entry(0, 0, 0)

  ghost predicate Layout(flat: seq<nat>, e: Entry, trampoline: nat) {
    && |flat| == VPNS && e.sz <= TRAPFRAME
    && flat[TRAMPOLINE / PGSIZE] == MakePte(trampoline, TRAMPOLINE_PERM)
    && flat[TRAPFRAME / PGSIZE] == MakePte(e.trapframe, TRAPFRAME_PERM)
    && Vacant(flat, PageCount(e.sz), TRAPFRAME / PGSIZE - PageCount(e.sz))
    && Vacant(flat, MAXVA / PGSIZE, VPNS - MAXVA / PGSIZE)
  }

  // A process's page table, user pages and trapframe are well formed, in use, and its own.
  ghost predicate Good(b: Bounds, pages: map<nat, Page>, free: seq<nat>, e: Entry, t: Table) {
    && e.root != 0 && t.root == e.root && Refines(pages, t) && Layout(t.flat, e, b.trampoline)
    && (forall p :: p in t.tbl ==> b.first <= p < b.limit && p !in free)
    && OwnRange(b.first, b.limit, t, free, 0, PageCount(e.sz))
    && b.first <= e.trapframe < b.limit && e.trapframe !in free && e.trapframe !in Holdings(t, PageCount(e.sz))
  }

  ghost function Held(e: Entry, t: Table): set<nat> {
    if e.root == 0 || PageCount(e.sz) > |t.flat| then {} else {e.trapframe} + Holdings(t, PageCount(e.sz))
  }

  lemma HeldInUse(b: Bounds, pages: map<nat, Page>, free: seq<nat>, e: Entry, t: Table)
    requires Good(b, pages, free, e, t)
    ensures Held(e, t) !! Elems(free) && forall p :: p in Held(e, t) ==> b.first <= p < b.limit
  {
    forall p | p in RangePages(t.flat, 0, PageCount(e.sz)) ensures p !in free && b.first <= p < b.limit {
      var u: nat :| u < PageCount(e.sz) && p == PtePage(t.flat[u]);
      assert OwnLeaf(b.first, b.limit, t, free, t.flat[u]);
    }
  }

  // ----- what a process sees -----

  const FRAME: nat := 36     // words of struct trapframe

  // Size, user memory, and struct trapframe, which takes up the beginning of its page.
  datatype View = Absent | View(sz: nat, image: seq<UserPage>, frame: seq<nat>)

  function At(pages: map<nat, Page>, p: nat): Page {
    if p in pages then pages[p] else Filled(0)
  }

  // Flags and contents of the first `n` virtual pages.
  ghost function Image(pages: map<nat, Page>, flat: seq<nat>, n: nat): seq<UserPage>
    requires n <= |flat|
  {
    seq(n, u requires 0 <= u < n => UserPage(PteFlags(flat[u]), At(pages, PtePage(flat[u]))))
  }

  // Size, memory and trapframe.
  ghost function ViewOf(pages: map<nat, Page>, e: Entry, t: Table): View {
    if e.root == 0 || PageCount(e.sz) > |t.flat| then Absent
    else View(e.sz, Image(pages, t.flat, PageCount(e.sz)), At(pages, e.trapframe)[..FRAME])
  }

  // Pages as uvmalloc and uvmcopy map them, with PTE_V.
  function Installed(want: seq<UserPage>): seq<UserPage> {
    seq(|want|, u requires 0 <= u < |want| =>
        UserPage(if want[u].perm % 2 == 1 then want[u].perm else want[u].perm + 1, want[u].data))
  }

  // A process trades pages with the free list, and only those pages and its own are written.
  ghost predicate Trades(p0: map<nat, Page>, f0: seq<nat>, held: set<nat>, p1: map<nat, Page>, f1: seq<nat>,
                         held': set<nat>) {
    Elems(f1) + held' == Elems(f0) + held && Elems(f1) !! held' && SameBut(p0, p1, Elems(f0) + held)
  }

  // ----- the ways an address space changes -----

  lemma SplitPages(flat: seq<nat>, n: nat, i: nat)
    requires n + i <= |flat|
    ensures RangePages(flat, 0, n + i) == RangePages(flat, 0, n) + RangePages(flat, n, i)
  {
    forall p | p in RangePages(flat, 0, n + i) ensures p in RangePages(flat, 0, n) + RangePages(flat, n, i) {
      var u: nat :| u < n + i && p == PtePage(flat[u]);
      assert u < n || n <= u;
    }
    forall p | p in RangePages(flat, 0, n) + RangePages(flat, n, i) ensures p in RangePages(flat, 0, n + i) {
      if p in RangePages(flat, 0, n) {
        var u: nat :| u < n && p == PtePage(flat[u]);
      } else {
        var u: nat :| n <= u < n + i && p == PtePage(flat[u]);
      }
    }
  }

  // Its own pages are neither what the tree and new mappings took nor the trapframe.
  lemma OwnApart(b: Bounds, p0: map<nat, Page>, f0: seq<nat>, e: Entry, t: Table, p1: map<nat, Page>, f1: seq<nat>,
                 t1: Table, held: set<nat>)
    requires Good(b, p0, f0, e, t) && Accounted(p0, f0, t, p1, f1, t1, held)
    ensures forall p :: p in {e.trapframe} + RangePages(t.flat, 0, PageCount(e.sz)) ==>
      p !in f1 && p !in t1.tbl && p !in held && At(p1, p) == At(p0, p)
  {
    HeldInUse(b, p0, f0, e, t);
    forall p | p in {e.trapframe} + RangePages(t.flat, 0, PageCount(e.sz))
      ensures p !in f1 && p !in t1.tbl && p !in held && At(p1, p) == At(p0, p)
    {
      OwnPage(b, p0, f0, e, t, p);
      assert p !in Elems(f0) + t.tbl.Keys;
    }
  }

  lemma OwnPage(b: Bounds, pages: map<nat, Page>, free: seq<nat>, e: Entry, t: Table, p: nat)
    requires Good(b, pages, free, e, t) && p in {e.trapframe} + RangePages(t.flat, 0, PageCount(e.sz))
    ensures p !in free && p !in t.tbl
  {
    if p != e.trapframe {
      var u: nat :| u < PageCount(e.sz) && p == PtePage(t.flat[u]);
      assert OwnLeaf(b.first, b.limit, t, free, t.flat[u]);
    }
  }

  // The same leaf entries lead to the same pages with the same contents.
  lemma SameImage(p0: map<nat, Page>, flat0: seq<nat>, p1: map<nat, Page>, flat1: seq<nat>, n: nat)
    requires n <= |flat0| && n <= |flat1| && forall u :: 0 <= u < n ==> flat1[u] == flat0[u]
    requires forall p :: p in RangePages(flat0, 0, n) ==> At(p1, p) == At(p0, p)
    ensures Image(p1, flat1, n) == Image(p0, flat0, n)
  {
    forall u | 0 <= u < n ensures Image(p1, flat1, n)[u] == Image(p0, flat0, n)[u] {
      assert PtePage(flat0[u]) in RangePages(flat0, 0, n);
    }
  }

  // The table's pages are managed and not free.
  ghost predicate InUse(b: Bounds, free: seq<nat>, t: Table) {
    forall p :: p in t.tbl ==> b.first <= p < b.limit && p !in free
  }

  // The part of Good that a change of table within an account keeps.
  lemma StillOwned(b: Bounds, p0: map<nat, Page>, f0: seq<nat>, e: Entry, t: Table, p1: map<nat, Page>, f1: seq<nat>,
                   t1: Table, held: set<nat>)
    requires Good(b, p0, f0, e, t) && Accounted(p0, f0, t, p1, f1, t1, held)
    requires |t1.flat| == |t.flat| && forall u :: 0 <= u < PageCount(e.sz) ==> t1.flat[u] == t.flat[u]
    ensures OwnRange(b.first, b.limit, t1, f1, 0, PageCount(e.sz))
    ensures RangePages(t1.flat, 0, PageCount(e.sz)) == RangePages(t.flat, 0, PageCount(e.sz))
    ensures e.trapframe !in f1 && e.trapframe !in t1.tbl && e.trapframe !in held
    ensures At(p1, e.trapframe) == At(p0, e.trapframe)
    ensures Image(p1, t1.flat, PageCount(e.sz)) == Image(p0, t.flat, PageCount(e.sz))
  {
    var n := PageCount(e.sz);
    OwnApart(b, p0, f0, e, t, p1, f1, t1, held);
    SamePages(t.flat, t1.flat, 0, n);
    forall u | 0 <= u < n ensures OwnLeaf(b.first, b.limit, t1, f1, t1.flat[u]) {
      assert OwnLeaf(b.first, b.limit, t, f0, t.flat[u]) && PtePage(t.flat[u]) in RangePages(t.flat, 0, n);
    }
    SameImage(p0, t.flat, p1, t1.flat, n);
  }

  // An account of `held` new pages is a trade of a holder that keeps `user`.
  lemma AccountTrades(p0: map<nat, Page>, f0: seq<nat>, t: Table, p1: map<nat, Page>, f1: seq<nat>, t1: Table,
                      held: set<nat>, user: set<nat>)
    requires Accounted(p0, f0, t, p1, f1, t1, held) && Elems(f1) !! user && Elems(f1) !! t1.tbl.Keys
    ensures Trades(p0, f0, user + t.tbl.Keys, p1, f1, user + t1.tbl.Keys + held)
  {
    assert Elems(f1) + (user + t1.tbl.Keys + held) == Elems(f0) + (user + t.tbl.Keys);
    forall p | p in p0 && p !in Elems(f0) + (user + t.tbl.Keys) ensures p1[p] == p0[p] {
      assert p !in Elems(f0) + t.tbl.Keys;
      assert p !in t1.tbl.Keys;
    }
  }

  /** A failed allocation leaves the process sound and its view as it was; its tree may have grown. */
  lemma FailureTrades(b: Bounds, p0: map<nat, Page>, f0: seq<nat>, e: Entry, t: Table, p1: map<nat, Page>,
                      f1: seq<nat>, t1: Table)
    requires Good(b, p0, f0, e, t) && SameMappings(t.flat, t1.flat) && Accounted(p0, f0, t, p1, f1, t1, {})
    requires Refines(p1, t1) && InUse(b, f1, t1)
    ensures Good(b, p1, f1, e, t1) && Trades(p0, f0, Held(e, t), p1, f1, Held(e, t1))
    ensures ViewOf(p1, e, t1) == ViewOf(p0, e, t)
  {
    assert forall u :: 0 <= u < PageCount(e.sz) ==> t1.flat[u] == t.flat[u] by {
      forall u | 0 <= u < PageCount(e.sz) ensures t1.flat[u] == t.flat[u] {
        assert OwnLeaf(b.first, b.limit, t, f0, t.flat[u]);
      }
    }
    StillOwned(b, p0, f0, e, t, p1, f1, t1, {});
    PteRoundTrip(b.trampoline, TRAMPOLINE_PERM);
    PteRoundTrip(e.trapframe, TRAPFRAME_PERM);
    var user := {e.trapframe} + RangePages(t.flat, 0, PageCount(e.sz));
    OwnApart(b, p0, f0, e, t, p1, f1, t1, {});
    AccountTrades(p0, f0, t, p1, f1, t1, {}, user);
    assert Held(e, t) == user + t.tbl.Keys && Held(e, t1) == user + t1.tbl.Keys + {};
  }

  lemma BelowFrame(sz: nat)
    requires sz <= TRAPFRAME
    ensures PageCount(sz) <= TRAPFRAME / PGSIZE < TRAMPOLINE / PGSIZE < MAXVA / PGSIZE <= VPNS
  {
  }

  lemma JoinOwn(b: Bounds, t: Table, free: seq<nat>, n: nat, i: nat)
    requires OwnRange(b.first, b.limit, t, free, 0, n) && OwnRange(b.first, b.limit, t, free, n, i)
    requires RangePages(t.flat, 0, n) !! RangePages(t.flat, n, i)
    ensures OwnRange(b.first, b.limit, t, free, 0, n + i)
  {
    forall u, u' | 0 <= u < u' < n + i ensures PtePage(t.flat[u]) != PtePage(t.flat[u']) {
      if u < n <= u' {
        assert PtePage(t.flat[u]) in RangePages(t.flat, 0, n) && PtePage(t.flat[u']) in RangePages(t.flat, n, i);
      }
    }
  }

  lemma JoinImage(pages: map<nat, Page>, flat: seq<nat>, n: nat, i: nat, want: seq<UserPage>)
    requires n + i <= |flat| && |want| == i && forall u :: n <= u < n + i ==> MapsTo(pages, flat[u], want[u - n])
    ensures Image(pages, flat, n + i) == Image(pages, flat, n) + Installed(want)
  {
    forall u | 0 <= u < n + i ensures Image(pages, flat, n + i)[u] == (Image(pages, flat, n) + Installed(want))[u] {
      if u >= n {
        assert MapsTo(pages, flat[u], want[u - n]);
        PteRoundTrip(PtePage(flat[u]), want[u - n].perm);
      }
    }
  }

  // The rest of the layout does not notice.
  lemma GrownLayout(e: Entry, t: Table, t1: Table, newsz: nat, trampoline: nat)
    requires Layout(t.flat, e, trampoline) && e.sz <= newsz <= TRAPFRAME && |t1.flat| == |t.flat|
    requires forall u :: 0 <= u < |t.flat| && !(PageCount(e.sz) <= u < PageCount(newsz)) ==> t1.flat[u] == t.flat[u]
    ensures Layout(t1.flat, e.(sz := newsz), trampoline)
  {
    BelowFrame(newsz);
    RoundUp(e.sz, newsz);
  }

  lemma GrownGood(b: Bounds, p0: map<nat, Page>, f0: seq<nat>, e: Entry, t: Table, p1: map<nat, Page>, f1: seq<nat>,
                  t1: Table, newsz: nat, want: seq<UserPage>)
    requires Good(b, p0, f0, e, t) && e.sz <= newsz <= TRAPFRAME && PageCount(e.sz) + |want| == PageCount(newsz)
    requires Grown(p0, f0, t, p1, f1, t1, PageCount(e.sz), |want|, want) && Refines(p1, t1) && InUse(b, f1, t1)
    requires (forall k :: 0 <= k < |want| ==> 1 < want[k].perm < 1024)
    requires (forall p :: p in f0 ==> b.first <= p < b.limit)
    ensures Good(b, p1, f1, e.(sz := newsz), t1)
    ensures RangePages(t1.flat, 0, PageCount(newsz)) ==
      RangePages(t.flat, 0, PageCount(e.sz)) + RangePages(t1.flat, PageCount(e.sz), |want|)
  {
    var n, i := PageCount(e.sz), |want|;
    var held := RangePages(t1.flat, n, i);
    BelowFrame(newsz);
    GrownLayout(e, t, t1, newsz, b.trampoline);
    StillOwned(b, p0, f0, e, t, p1, f1, t1, held);
    OwnApart(b, p0, f0, e, t, p1, f1, t1, held);
    GrownIsOwn(b.first, b.limit, p0, f0, t, p1, f1, t1, n, i, want);
    JoinOwn(b, t1, f1, n, i);
    SplitPages(t1.flat, n, i);
  }

  lemma GrownTrades(b: Bounds, p0: map<nat, Page>, f0: seq<nat>, e: Entry, t: Table, p1: map<nat, Page>, f1: seq<nat>,
                    t1: Table, newsz: nat, held: set<nat>)
    requires Good(b, p0, f0, e, t) && Accounted(p0, f0, t, p1, f1, t1, held) && Good(b, p1, f1, e.(sz := newsz), t1)
    requires RangePages(t1.flat, 0, PageCount(newsz)) == RangePages(t.flat, 0, PageCount(e.sz)) + held
    ensures Trades(p0, f0, Held(e, t), p1, f1, Held(e.(sz := newsz), t1))
  {
    var user := {e.trapframe} + RangePages(t.flat, 0, PageCount(e.sz));
    OwnApart(b, p0, f0, e, t, p1, f1, t1, held);
    AccountTrades(p0, f0, t, p1, f1, t1, held, user);
    assert Held(e, t) == user + t.tbl.Keys;
    assert Held(e.(sz := newsz), t1) == user + t1.tbl.Keys + held;
  }

  lemma GrownView(b: Bounds, p0: map<nat, Page>, f0: seq<nat>, e: Entry, t: Table, p1: map<nat, Page>, f1: seq<nat>,
                  t1: Table, newsz: nat, want: seq<UserPage>)
    requires Good(b, p0, f0, e, t) && e.sz <= newsz <= TRAPFRAME && PageCount(e.sz) + |want| == PageCount(newsz)
    requires Grown(p0, f0, t, p1, f1, t1, PageCount(e.sz), |want|, want) && Refines(p1, t1) && InUse(b, f1, t1)
    requires (forall k :: 0 <= k < |want| ==> 1 < want[k].perm < 1024)
    requires (forall p :: p in f0 ==> b.first <= p < b.limit)
    ensures ViewOf(p0, e, t).View? && PageCount(newsz) <= |t1.flat|
    ensures ViewOf(p1, e.(sz := newsz), t1) ==
      View(newsz, ViewOf(p0, e, t).image + Installed(want), ViewOf(p0, e, t).frame)
  {
    var n, i := PageCount(e.sz), |want|;
    BelowFrame(newsz);
    StillOwned(b, p0, f0, e, t, p1, f1, t1, RangePages(t1.flat, n, i));
    JoinImage(p1, t1.flat, n, i, want);
  }

  /** Growing moves page frames from the free list to the process, none lost; its view gains the new pages. */
  lemma GrowthTrades(b: Bounds, p0: map<nat, Page>, f0: seq<nat>, e: Entry, t: Table, p1: map<nat, Page>, f1: seq<nat>,
                     t1: Table, newsz: nat, want: seq<UserPage>)
    requires Good(b, p0, f0, e, t) && e.sz <= newsz <= TRAPFRAME && PageCount(e.sz) + |want| == PageCount(newsz)
    requires Grown(p0, f0, t, p1, f1, t1, PageCount(e.sz), |want|, want) && Refines(p1, t1) && InUse(b, f1, t1)
    requires (forall k :: 0 <= k < |want| ==> 1 < want[k].perm < 1024)
    requires (forall p :: p in f0 ==> b.first <= p < b.limit)
    ensures var (e1, v) := (e.(sz := newsz), ViewOf(p0, e, t));
      && Good(b, p1, f1, e1, t1) && Trades(p0, f0, Held(e, t), p1, f1, Held(e1, t1))
      && v.View? && ViewOf(p1, e1, t1) == View(newsz, v.image + Installed(want), v.frame)
  {
    GrownGood(b, p0, f0, e, t, p1, f1, t1, newsz, want);
    GrownTrades(b, p0, f0, e, t, p1, f1, t1, newsz, RangePages(t1.flat, PageCount(e.sz), |want|));
    GrownView(b, p0, f0, e, t, p1, f1, t1, newsz, want);
  }

  lemma ShrunkLayout(e: Entry, t: Table, newsz: nat, trampoline: nat)
    requires Layout(t.flat, e, trampoline) && newsz <= e.sz
    ensures Layout(ClearRange(t.flat, PageCount(newsz), PageCount(e.sz) - PageCount(newsz)),
                   e.(sz := newsz), trampoline)
  {
    BelowFrame(e.sz);
    RoundUp(newsz, e.sz);
  }

  lemma ShrunkOwn(b: Bounds, t: Table, free: seq<nat>, n: nat, i: nat, t1: Table, f1: seq<nat>)
    requires OwnRange(b.first, b.limit, t, free, 0, n + i) && t1 == t.(flat := ClearRange(t.flat, n, i))
    requires Elems(f1) == Elems(free) + RangePages(t.flat, n, i)
    ensures OwnRange(b.first, b.limit, t1, f1, 0, n) && RangePages(t1.flat, 0, n) == RangePages(t.flat, 0, n)
    ensures RangePages(t.flat, 0, n) !! RangePages(t.flat, n, i)
  {
    SamePages(t.flat, t1.flat, 0, n);
    forall u | 0 <= u < n
      ensures OwnLeaf(b.first, b.limit, t1, f1, t1.flat[u]) && PtePage(t.flat[u]) !in RangePages(t.flat, n, i) {
      assert OwnLeaf(b.first, b.limit, t, free, t.flat[u]);
      assert PtePage(t.flat[u]) !in RangePages(t.flat, n, i);
      assert PtePage(t.flat[u]) !in Elems(f1);
    }
  }

  lemma ShrunkGood(b: Bounds, p0: map<nat, Page>, f0: seq<nat>, e: Entry, t: Table, p1: map<nat, Page>, f1: seq<nat>,
                   t1: Table, newsz: nat)
    requires Good(b, p0, f0, e, t) && newsz <= e.sz && PageCount(newsz) <= PageCount(e.sz)
    requires Unmapped(t, t1, PageCount(newsz), PageCount(e.sz) - PageCount(newsz), true, p0, f0, p1, f1)
    requires Refines(p1, t1) && InUse(b, f1, t1)
    ensures Good(b, p1, f1, e.(sz := newsz), t1)
    ensures Trades(p0, f0, Held(e, t), p1, f1, Held(e.(sz := newsz), t1))
  {
    var n, i, e1 := PageCount(newsz), PageCount(e.sz) - PageCount(newsz), e.(sz := newsz);
    BelowFrame(e.sz);
    ShrunkLayout(e, t, newsz, b.trampoline);
    ShrunkOwn(b, t, f0, n, i, t1, f1);
    SplitPages(t.flat, n, i);
    assert e.trapframe !in Elems(f1);
    HeldInUse(b, p1, f1, e1, t1);
    assert Held(e, t) == Held(e1, t1) + RangePages(t.flat, n, i);
  }

  lemma ImagePrefix(pages: map<nat, Page>, flat: seq<nat>, n: nat, i: nat)
    requires n + i <= |flat|
    ensures Image(pages, flat, n) == Image(pages, flat, n + i)[..n]
  {
  }

  // What is left is neither freed nor touched.
  lemma ShrunkApart(b: Bounds, p0: map<nat, Page>, f0: seq<nat>, e: Entry, t: Table, p1: map<nat, Page>, f1: seq<nat>,
                    t1: Table, n: nat, i: nat)
    requires Good(b, p0, f0, e, t) && PageCount(e.sz) == n + i && Unmapped(t, t1, n, i, true, p0, f0, p1, f1)
    ensures forall p :: p in {e.trapframe} + RangePages(t.flat, 0, n) ==> At(p1, p) == At(p0, p)
  {
    ShrunkOwn(b, t, f0, n, i, t1, f1);
    SplitPages(t.flat, n, i);
    forall p | p in {e.trapframe} + RangePages(t.flat, 0, n) ensures At(p1, p) == At(p0, p) {
      OwnPage(b, p0, f0, e, t, p);
    }
  }

  lemma ShrunkView(b: Bounds, p0: map<nat, Page>, f0: seq<nat>, e: Entry, t: Table, p1: map<nat, Page>, f1: seq<nat>,
                   t1: Table, newsz: nat)
    requires Good(b, p0, f0, e, t) && newsz <= e.sz && PageCount(newsz) <= PageCount(e.sz)
    requires Unmapped(t, t1, PageCount(newsz), PageCount(e.sz) - PageCount(newsz), true, p0, f0, p1, f1)
    requires Refines(p1, t1) && InUse(b, f1, t1)
    ensures var v := ViewOf(p0, e, t);
      v.View? && PageCount(newsz) <= |v.image| &&
      ViewOf(p1, e.(sz := newsz), t1) == View(newsz, v.image[..PageCount(newsz)], v.frame)
  {
    var n, i := PageCount(newsz), PageCount(e.sz) - PageCount(newsz);
    BelowFrame(e.sz);
    ShrunkApart(b, p0, f0, e, t, p1, f1, t1, n, i);
    SameImage(p0, t.flat, p1, t1.flat, n);
    ImagePrefix(p0, t.flat, n, i);
  }

  /** Shrinking moves page frames back to the free list; the process sees a prefix of what it saw. */
  lemma ShrinkingTrades(b: Bounds, p0: map<nat, Page>, f0: seq<nat>, e: Entry, t: Table, p1: map<nat, Page>,
                        f1: seq<nat>, t1: Table, newsz: nat)
    requires Good(b, p0, f0, e, t) && newsz <= e.sz && PageCount(newsz) <= PageCount(e.sz)
    requires Unmapped(t, t1, PageCount(newsz), PageCount(e.sz) - PageCount(newsz), true, p0, f0, p1, f1)
    requires Refines(p1, t1) && InUse(b, f1, t1)
    ensures var (e1, v) := (e.(sz := newsz), ViewOf(p0, e, t));
      && Good(b, p1, f1, e1, t1) && Trades(p0, f0, Held(e, t), p1, f1, Held(e1, t1))
      && v.View? && PageCount(newsz) <= |v.image|
      && ViewOf(p1, e1, t1) == View(newsz, v.image[..PageCount(newsz)], v.frame)
  {
    ShrunkGood(b, p0, f0, e, t, p1, f1, t1, newsz);
    ShrunkView(b, p0, f0, e, t, p1, f1, t1, newsz);
  }

  // ----- all processes together -----

  // A process sound before is sound after, and sees the same, when others trade.
  lemma OthersUnmoved(b: Bounds, p0: map<nat, Page>, f0: seq<nat>, e: Entry, t: Table, p1: map<nat, Page>,
                      f1: seq<nat>, held: set<nat>, held': set<nat>)
    requires Good(b, p0, f0, e, t) && Trades(p0, f0, held, p1, f1, held') && Held(e, t) !! held
    ensures Good(b, p1, f1, e, t) && ViewOf(p1, e, t) == ViewOf(p0, e, t)
  {
    HeldInUse(b, p0, f0, e, t);
    BelowFrame(e.sz);
    forall p | p in Held(e, t) ensures p !in f1 && At(p1, p) == At(p0, p) && (p in p0 ==> p in p1 && p1[p] == p0[p]) {
      assert p !in Elems(f0) + held;
    }
    FrameTable(p0, p1, t);
    forall u | 0 <= u < PageCount(e.sz) ensures OwnLeaf(b.first, b.limit, t, f1, t.flat[u]) {
      assert OwnLeaf(b.first, b.limit, t, f0, t.flat[u]);
      assert PtePage(t.flat[u]) in RangePages(t.flat, 0, PageCount(e.sz));
    }
    SameImage(p0, t.flat, p1, t.flat, PageCount(e.sz));
  }

  ghost predicate Sound(b: Bounds, pages: map<nat, Page>, free: seq<nat>, e: Entry, t: Table) {
    e == NOBODY || Good(b, pages, free, e, t)
  }

  ghost function AllPages(b: Bounds): set<nat> {
    Span(b.first, b.limit)
  }

  ghost function Holds(procs: seq<Entry>, tables: seq<Table>): seq<set<nat>>
    requires |tables| == |procs|
  {
    seq(|procs|, k requires 0 <= k < |procs| => Held(procs[k], tables[k]))
  }

  ghost function Views(pages: map<nat, Page>, procs: seq<Entry>, tables: seq<Table>): seq<View>
    requires |tables| == |procs|
  {
    seq(|procs|, k requires 0 <= k < |procs| => ViewOf(pages, procs[k], tables[k]))
  }

  // Every process is sound, and processes and free list share out the allocator's pages.
  ghost predicate Sane(b: Bounds, pages: map<nat, Page>, free: seq<nat>, procs: seq<Entry>, tables: seq<Table>) {
    && |tables| == |procs| && (forall k :: 0 <= k < |procs| ==> Sound(b, pages, free, procs[k], tables[k]))
    && Partition(AllPages(b), Elems(free), Holds(procs, tables))
  }

  /** A trade by one process keeps all of them sound and partitioned, and changes no other's view. */
  lemma TradeKeepsSane(b: Bounds, p0: map<nat, Page>, f0: seq<nat>, procs: seq<Entry>, tables: seq<Table>, k: nat,
                       p1: map<nat, Page>, f1: seq<nat>, e: Entry, t: Table)
    requires Sane(b, p0, f0, procs, tables) && k < |procs| && Sound(b, p1, f1, e, t)
    requires Trades(p0, f0, Held(procs[k], tables[k]), p1, f1, Held(e, t))
    ensures Sane(b, p1, f1, procs[k := e], tables[k := t])
    ensures Views(p1, procs[k := e], tables[k := t]) == Views(p0, procs, tables)[k := ViewOf(p1, e, t)]
  {
    var procs', tables' := procs[k := e], tables[k := t];
    var held := Holds(procs, tables)[k];
    TradeKeepsPartition(AllPages(b), Elems(f0), Holds(procs, tables), k, Elems(f1), Held(e, t));
    assert Holds(procs, tables)[k := Held(e, t)] == Holds(procs', tables');
    forall l | 0 <= l < |procs| && l != k
      ensures Sound(b, p1, f1, procs[l], tables[l])
      ensures ViewOf(p1, procs[l], tables[l]) == ViewOf(p0, procs[l], tables[l])
    {
      assert Sound(b, p0, f0, procs[l], tables[l]);
      assert Holds(procs, tables)[l] !! held;
      if procs[l] != NOBODY { OthersUnmoved(b, p0, f0, procs[l], tables[l], p1, f1, held, Held(e, t)); }
    }
  }
}
