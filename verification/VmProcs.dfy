/**
 The memory of all processes over one allocator: allocproc, freeproc, growproc and
 fork in any order, whichever allocation fails.  The processes' views are the
 abstract state, and each operation changes at most one of them.
 */
module VmProcs {
  import opened Common
  import opened VmMemory
  import opened VmTree
  import opened VmSpace
  import opened VmUser
  import opened VmGrow
  import opened VmCopy
  import opened VmFree
  import opened VmPartition

  const MAXPAGES: nat := 0x8000      // 128 megabytes of memory, in pages
  const A0: nat := 14                // the word of the trapframe that holds register a0
  const PTE_W: nat := 4
  const WRAP: nat := 0x1_0000_0000_0000_0000
  const MAXINT: int := 0x7fff_ffff

  ghost function BoundsOf(m: Memory, trampoline: nat): Bounds {
    Bounds(m.first, m.limit, trampoline)
  }

  // ----- one address space -----

  lemma FreshGood(b: Bounds, p0: map<nat, Page>, f0: seq<nat>, tf: nat, p1: map<nat, Page>, f1: seq<nat>,
                  p2: map<nat, Page>, f2: seq<nat>, t: Table)
    requires f0 == [tf] + f1 && tf !in f1 && SameBut(p0, p1, {tf}) && b.first <= tf < b.limit
    requires BuiltFrom(p1, f1, p2, f2, t) && t.root != 0 && Refines(p2, t) && InUse(b, f2, t)
    requires t.flat == ProcFlat(b.trampoline, tf)
    ensures Good(b, p2, f2, Entry(tf, t.root, 0), t) && Trades(p0, f0, {}, p2, f2, Held(Entry(tf, t.root, 0), t))
    ensures ViewOf(p2, Entry(tf, t.root, 0), t) == View(0, [], At(p2, tf)[..FRAME])
  {
    var e := Entry(tf, t.root, 0);
    ElemsCons(tf, f1);
    assert tf !in Elems(f1) && tf !in Elems(f2) + t.tbl.Keys;
    assert RangePages(t.flat, 0, 0) == {};
    assert Held(e, t) == t.tbl.Keys + {tf};
    assert Elems(f2) !! t.tbl.Keys;
  }

  // A trapframe and a page table, or nothing, with every page given back.
  method NewSpace(m: Memory, trampoline: nat) returns (e: Entry, ghost t: Table)
    requires m.Valid()
    modifies m
    ensures m.Valid() && Sound(BoundsOf(m, trampoline), m.pages, m.free, e, t)
    ensures Trades(old(m.pages), old(m.free), {}, m.pages, m.free, Held(e, t))
    ensures e != NOBODY ==>
      ViewOf(m.pages, e, t).View? && ViewOf(m.pages, e, t).sz == 0 && ViewOf(m.pages, e, t).image == []
  {
    ghost var p0, f0 := m.pages, m.free;
    var tf := m.Kalloc();
    if tf == 0 {
      return NOBODY, Table(0, map[], []);
    }
    ghost var p1, f1 := m.pages, m.free;
    var root;
    root, t := ProcPagetable(m, trampoline, tf);
    if root == 0 {
      GiveBack(m, tf, p0, f0, p1, f1);
      return NOBODY, t;
    }
    e := Entry(tf, root, 0);
    FreshGood(BoundsOf(m, trampoline), p0, f0, tf, p1, f1, m.pages, m.free, t);
  }

  method GiveBack(m: Memory, tf: nat, ghost p0: map<nat, Page>, ghost f0: seq<nat>, ghost p1: map<nat, Page>,
                  ghost f1: seq<nat>)
    requires m.Valid() && m.Managed(tf) && f0 == [tf] + f1 && tf !in f1 && SameBut(p0, p1, {tf})
    requires Elems(m.free) == Elems(f1) && SameBut(p1, m.pages, Elems(f1))
    modifies m
    ensures m.Valid() && Trades(p0, f0, {}, m.pages, m.free, {})
  {
    ElemsCons(tf, f1);
    assert tf !in Elems(m.free);
    ghost var f2 := m.free;
    var ok := m.Kfree(tf * PGSIZE);
    ElemsCons(tf, f2);
  }

  // After kfree of the trapframe the rest of the process's memory is still its own.
  lemma WithoutFrame(b: Bounds, p0: map<nat, Page>, f0: seq<nat>, e: Entry, t: Table, p1: map<nat, Page>)
    requires Good(b, p0, f0, e, t) && SameBut(p0, p1, {e.trapframe})
    ensures Refines(p1, t) && InUse(b, [e.trapframe] + f0, t)
    ensures OwnRange(b.first, b.limit, t, [e.trapframe] + f0, 0, PageCount(e.sz))
  {
    FrameTable(p0, p1, t);
    forall u | 0 <= u < PageCount(e.sz) ensures OwnLeaf(b.first, b.limit, t, [e.trapframe] + f0, t.flat[u]) {
      assert OwnLeaf(b.first, b.limit, t, f0, t.flat[u]);
      assert PtePage(t.flat[u]) in RangePages(t.flat, 0, PageCount(e.sz));
    }
  }

  // freeproc's two calls: the trapframe, then the page table and the user memory.
  method FreeSpace(m: Memory, e: Entry, trampoline: nat, ghost t: Table)
    requires m.Valid() && Good(BoundsOf(m, trampoline), m.pages, m.free, e, t)
    modifies m
    ensures m.Valid() && Trades(old(m.pages), old(m.free), Held(e, t), m.pages, m.free, {})
  {
    ghost var p0, f0 := m.pages, m.free;
    BelowFrame(e.sz);
    PteRoundTrip(trampoline, TRAMPOLINE_PERM);
    PteRoundTrip(e.trapframe, TRAPFRAME_PERM);
    var ok := m.Kfree(e.trapframe * PGSIZE);
    ElemsCons(e.trapframe, f0);
    WithoutFrame(BoundsOf(m, trampoline), p0, f0, e, t, m.pages);
    ProcFreepagetable(m, e.root, e.sz, t);
  }

  // ----- growing and shrinking -----

  lemma {:induction false} RangeSize(flat: seq<nat>, n: nat)
    requires PagesDiffer(flat, 0, n)
    ensures |RangePages(flat, 0, n)| == n
  {
    if n > 0 {
      RangeSize(flat, n - 1);
      PagesNext(flat, 0, n - 1);
      assert PtePage(flat[n - 1]) !in RangePages(flat, 0, n - 1);
    } else {
      assert RangePages(flat, 0, 0) == {};
    }
  }

  // A process cannot have more pages than there are.
  lemma SizeBounded(first: nat, limit: nat, t: Table, free: seq<nat>, n: nat)
    requires OwnRange(first, limit, t, free, 0, n) && first <= limit
    ensures n <= limit - first
  {
    SpanSize(first, limit);
    RangeSize(t.flat, n);
    forall p | p in RangePages(t.flat, 0, n) ensures p in Span(first, limit) {
      var u: nat :| u < n && p == PtePage(t.flat[u]);
      assert OwnLeaf(first, limit, t, free, t.flat[u]);
    }
    SubsetSize(RangePages(t.flat, 0, n), Span(first, limit));
  }

  // What a process sees with a new size: zeroed pages added, or the pages beyond it gone.
  ghost function Larger(v: View, newsz: nat): View
    requires v.View? && PageCount(v.sz) <= PageCount(newsz)
  {
    View(newsz, v.image + Installed(ZeroPages(AllocPerm(PTE_W), PageCount(newsz) - PageCount(v.sz))), v.frame)
  }

  ghost function Smaller(v: View, newsz: nat): View
    requires v.View? && PageCount(newsz) <= |v.image|
  {
    View(newsz, v.image[..PageCount(newsz)], v.frame)
  }

  // An address space traded with the free list, and `view` is what its process sees now.
  ghost predicate Becomes(b: Bounds, p0: map<nat, Page>, f0: seq<nat>, held: set<nat>, p1: map<nat, Page>,
                          f1: seq<nat>, e: Entry, t: Table, view: View) {
    Sound(b, p1, f1, e, t) && Trades(p0, f0, held, p1, f1, Held(e, t)) && ViewOf(p1, e, t) == view
  }

  lemma ZeroWant(perm: nat, n: nat)
    requires 1 < perm < 1024
    ensures |ZeroPages(perm, n)| == n && forall k :: 0 <= k < n ==> 1 < ZeroPages(perm, n)[k].perm < 1024
  {
  }

  lemma Grew(b: Bounds, p0: map<nat, Page>, f0: seq<nat>, e: Entry, t: Table, p1: map<nat, Page>, f1: seq<nat>,
             t1: Table, newsz: nat, i: nat)
    requires Good(b, p0, f0, e, t) && e.sz <= newsz <= TRAPFRAME && PageCount(newsz) == PageCount(e.sz) + i
    requires Grown(p0, f0, t, p1, f1, t1, PageCount(e.sz), i, ZeroPages(AllocPerm(PTE_W), i))
    requires Refines(p1, t1) && InUse(b, f1, t1) && forall p :: p in f0 ==> b.first <= p < b.limit
    ensures ViewOf(p0, e, t).View?
    ensures Becomes(b, p0, f0, Held(e, t), p1, f1, e.(sz := newsz), t1, Larger(ViewOf(p0, e, t), newsz))
  {
    ZeroWant(AllocPerm(PTE_W), i);
    GrowthTrades(b, p0, f0, e, t, p1, f1, t1, newsz, ZeroPages(AllocPerm(PTE_W), i));
  }

  lemma Room(t: Table, e: Entry, newsz: nat, trampoline: nat)
    requires Layout(t.flat, e, trampoline) && e.sz <= newsz <= TRAPFRAME
    ensures PageCount(e.sz) <= PageCount(newsz) && Vacant(t.flat, PageCount(e.sz), PageCount(newsz) - PageCount(e.sz))
  {
    BelowFrame(newsz);
    RoundUp(e.sz, newsz);
  }

  // growproc with n > 0.
  method GrowSpace(m: Memory, e: Entry, newsz: nat, trampoline: nat, ghost t: Table)
    returns (ok: bool, e': Entry, ghost t': Table)
    requires m.Valid() && Good(BoundsOf(m, trampoline), m.pages, m.free, e, t) && e.sz < newsz <= TRAPFRAME
    modifies m
    ensures m.Valid() && ViewOf(old(m.pages), e, t).View? && PageCount(e.sz) <= PageCount(newsz)
    ensures Becomes(BoundsOf(m, trampoline), old(m.pages), old(m.free), Held(e, t), m.pages, m.free, e', t',
      if ok then Larger(ViewOf(old(m.pages), e, t), newsz) else ViewOf(old(m.pages), e, t))
  {
    ghost var b, p0, f0 := BoundsOf(m, trampoline), m.pages, m.free;
    Room(t, e, newsz, trampoline);
    BelowFrame(e.sz);
    var sz;
    ghost var done;
    sz, done, t' := UvmAlloc(m, e.root, e.sz, newsz, PTE_W, t);
    ok := sz != 0;
    if ok {
      e' := e.(sz := sz);
      Grew(b, p0, f0, e, t, m.pages, m.free, t', newsz, PageCount(newsz) - PageCount(e.sz));
    } else {
      e' := e;
      FailureTrades(b, p0, f0, e, t, m.pages, m.free, t');
    }
  }

  lemma Shrank(b: Bounds, p0: map<nat, Page>, f0: seq<nat>, e: Entry, t: Table, p1: map<nat, Page>, f1: seq<nat>,
               t1: Table, newsz: nat)
    requires Good(b, p0, f0, e, t) && newsz <= e.sz && PageCount(newsz) <= PageCount(e.sz)
    requires Unmapped(t, t1, PageCount(newsz), PageCount(e.sz) - PageCount(newsz), true, p0, f0, p1, f1)
    requires Refines(p1, t1) && InUse(b, f1, t1)
    ensures ViewOf(p0, e, t).View? && PageCount(newsz) <= |ViewOf(p0, e, t).image|
    ensures Becomes(b, p0, f0, Held(e, t), p1, f1, e.(sz := newsz), t1, Smaller(ViewOf(p0, e, t), newsz))
  {
    ShrinkingTrades(b, p0, f0, e, t, p1, f1, t1, newsz);
  }

  lemma UpperPart(b: Bounds, t: Table, free: seq<nat>, n: nat, k: nat)
    requires OwnRange(b.first, b.limit, t, free, 0, n) && k <= n
    ensures OwnRange(b.first, b.limit, t, free, k, n - k)
  {
  }

  // growproc with n < 0.
  method ShrinkSpace(m: Memory, e: Entry, newsz: nat, trampoline: nat, ghost t: Table)
    returns (sz: nat, ghost t': Table)
    requires m.Valid() && Good(BoundsOf(m, trampoline), m.pages, m.free, e, t)
    modifies m
    ensures m.Valid() && ViewOf(old(m.pages), e, t).View?
    ensures (newsz < e.sz ==> PageCount(newsz) <= |ViewOf(old(m.pages), e, t).image|)
    ensures Becomes(BoundsOf(m, trampoline), old(m.pages), old(m.free), Held(e, t), m.pages, m.free, e.(sz := sz), t',
      if newsz < e.sz then Smaller(ViewOf(old(m.pages), e, t), newsz) else ViewOf(old(m.pages), e, t))
  {
    ghost var b, p0, f0 := BoundsOf(m, trampoline), m.pages, m.free;
    if newsz < e.sz {
      RoundUp(newsz, e.sz);
      UpperPart(b, t, f0, PageCount(e.sz), PageCount(newsz));
    }
    sz, t' := UvmDealloc(m, e.root, e.sz, newsz, t);
    if newsz < e.sz {
      Shrank(b, p0, f0, e, t, m.pages, m.free, t', newsz);
    } else {
      Unchanged(b, p0, f0, e, t);
    }
  }

  lemma Unchanged(b: Bounds, pages: map<nat, Page>, free: seq<nat>, e: Entry, t: Table)
    requires Good(b, pages, free, e, t)
    ensures ViewOf(pages, e, t).View?
    ensures Becomes(b, pages, free, Held(e, t), pages, free, e, t, ViewOf(pages, e, t))
  {
    HeldInUse(b, pages, free, e, t);
    BelowFrame(e.sz);
  }

  // ----- copying -----

  lemma ForkSource(b: Bounds, pages: map<nat, Page>, free: seq<nat>, e: Entry, parent: Table, ec: Entry, child: Table)
    requires Good(b, pages, free, e, parent) && Good(b, pages, free, ec, child) && Held(e, parent) !! Held(ec, child)
    requires forall p :: b.first <= p < b.limit ==> p in pages
    ensures Source(pages, free, parent, child, PageCount(e.sz))
  {
    BelowFrame(e.sz);
    BelowFrame(ec.sz);
    forall p | p in parent.tbl ensures p !in child.tbl && p !in free {
      assert p in Held(e, parent) && (p in child.tbl ==> p in Held(ec, child));
    }
    forall u | 0 <= u < PageCount(e.sz)
      ensures SourceLeaf(pages, free, child, parent.flat[u]) && PtePage(parent.flat[u]) !in parent.tbl
    {
      var p := PtePage(parent.flat[u]);
      assert OwnLeaf(b.first, b.limit, parent, free, parent.flat[u]);
      assert p in RangePages(parent.flat, 0, PageCount(e.sz));
      assert p in Held(e, parent) && (p in child.tbl ==> p in Held(ec, child));
      OddFlags(parent.flat[u]);
    }
  }

  lemma OddFlags(w: nat)
    requires ValidPte(w)
    ensures PteFlags(w) % 2 == 1
  {
  }

  // The copy is what the parent sees.
  lemma CopySeen(pages: map<nat, Page>, free: seq<nat>, parent: Table, child: Table, n: nat)
    requires Source(pages, free, parent, child, n)
    ensures |CopyOf(pages, parent, n)| == n && Installed(CopyOf(pages, parent, n)) == Image(pages, parent.flat, n)
    ensures forall u :: 0 <= u < n ==> 1 < CopyOf(pages, parent, n)[u].perm < 1024
  {
    forall u | 0 <= u < n
      ensures Installed(CopyOf(pages, parent, n))[u] == Image(pages, parent.flat, n)[u]
      ensures 1 < CopyOf(pages, parent, n)[u].perm < 1024
    {
      assert SourceLeaf(pages, free, child, parent.flat[u]);
      OddFlags(parent.flat[u]);
    }
  }

  lemma Copied(b: Bounds, p0: map<nat, Page>, f0: seq<nat>, e: Entry, parent: Table, ec: Entry, child: Table,
               p1: map<nat, Page>, f1: seq<nat>, t1: Table)
    requires Good(b, p0, f0, ec, child) && ec.sz == 0 && e.sz <= TRAPFRAME
    requires Source(p0, f0, parent, child, PageCount(e.sz))
    requires Grown(p0, f0, child, p1, f1, t1, 0, PageCount(e.sz), CopyOf(p0, parent, PageCount(e.sz)))
    requires Refines(p1, t1) && InUse(b, f1, t1) && forall p :: p in f0 ==> b.first <= p < b.limit
    ensures ViewOf(p0, ec, child).View? && PageCount(e.sz) <= |parent.flat|
    ensures Becomes(b, p0, f0, Held(ec, child), p1, f1, ec.(sz := e.sz), t1,
      View(e.sz, Image(p0, parent.flat, PageCount(e.sz)), ViewOf(p0, ec, child).frame))
  {
    CopySeen(p0, f0, parent, child, PageCount(e.sz));
    GrowthTrades(b, p0, f0, ec, child, p1, f1, t1, e.sz, CopyOf(p0, parent, PageCount(e.sz)));
    assert ViewOf(p0, ec, child).image == [];
  }

  // uvmcopy between two processes' address spaces.
  method CopySpace(m: Memory, e: Entry, ec: Entry, trampoline: nat, ghost parent: Table, ghost child: Table)
    returns (copied: bool, ghost t': Table, ghost view: View)
    requires m.Valid() && Good(BoundsOf(m, trampoline), m.pages, m.free, e, parent)
    requires Good(BoundsOf(m, trampoline), m.pages, m.free, ec, child) && ec.sz == 0
    requires Held(e, parent) !! Held(ec, child)
    modifies m
    ensures m.Valid() && ViewOf(old(m.pages), e, parent).View? && ViewOf(old(m.pages), ec, child).View?
    ensures var (v, vc) := (ViewOf(old(m.pages), e, parent), ViewOf(old(m.pages), ec, child));
      view == if copied then View(e.sz, v.image, vc.frame) else vc
    ensures Becomes(BoundsOf(m, trampoline), old(m.pages), old(m.free), Held(ec, child), m.pages, m.free,
      if copied then ec.(sz := e.sz) else ec, t', view)
  {
    ghost var b, p0, f0 := BoundsOf(m, trampoline), m.pages, m.free;
    ForkSource(b, p0, f0, e, parent, ec, child);
    BelowFrame(e.sz);
    Room(child, ec, e.sz, trampoline);
    copied, t' := UvmCopy(m, e.root, ec.root, e.sz, parent, child);
    view := ViewOf(p0, ec, child);
    if copied {
      view := View(e.sz, ViewOf(p0, e, parent).image, view.frame);
      Copied(b, p0, f0, e, parent, ec, child, m.pages, m.free, t');
    } else {
      FailureTrades(b, p0, f0, ec, child, m.pages, m.free, t');
    }
  }

  // A trapframe is overwritten: only the frame changes.
  lemma FrameWritten(b: Bounds, p0: map<nat, Page>, free: seq<nat>, e: Entry, t: Table, frame: Page)
    requires Good(b, p0, free, e, t) && e.trapframe in p0
    ensures var p1 := p0[e.trapframe := frame];
      ViewOf(p0, e, t).View? &&
      Becomes(b, p0, free, Held(e, t), p1, free, e, t, ViewOf(p0, e, t).(frame := frame[..FRAME]))
  {
    var p1 := p0[e.trapframe := frame];
    HeldInUse(b, p0, free, e, t);
    BelowFrame(e.sz);
    FrameTable(p0, p1, t);
    forall p | p in RangePages(t.flat, 0, PageCount(e.sz)) ensures At(p1, p) == At(p0, p) {
      assert p != e.trapframe;
    }
    SameImage(p0, t.flat, p1, t.flat, PageCount(e.sz));
  }

  // ----- all processes -----

  // sbrk's effect.  A size below 0 wraps around to one that uvmdealloc ignores.
  ghost function Resized(v: View, n: int): View
    requires v.View? && |v.image| == PageCount(v.sz)
  {
    if n > 0 then Larger(v, v.sz + n) else if n < 0 && v.sz + n >= 0 then Smaller(v, v.sz + n) else v
  }

  // What sbrk(n) promises: the size moves by n and the pages are those it spans, the old ones with what they
  // held, new ones zero and readable and writable for the user; the registers stay.
  ghost predicate Sbrk(v: View, v': View, n: int)
    requires v.View?
  {
    && v'.View? && v'.frame == v.frame
    && v'.sz == (if v.sz + n >= 0 then v.sz + n else v.sz)
    && 4096 * (|v'.image| - 1) < v'.sz <= 4096 * |v'.image|
    && (forall u :: 0 <= u < |v.image| && u < |v'.image| ==> v'.image[u] == v.image[u])
    && (forall u :: |v.image| <= u < |v'.image| ==> ZeroUserPage(v'.image[u]))
  }

  // PTE_V, PTE_R, PTE_W and PTE_U.
  ghost predicate ZeroUserPage(p: UserPage) {
    p.perm == 1 + 2 + 4 + 16 && forall w :: 0 <= w < 512 ==> p.data[w] == 0
  }

  lemma PagesSpanned(sz: nat)
    ensures 4096 * (PageCount(sz) - 1) < sz <= 4096 * PageCount(sz)
  {
  }

  lemma ResizedIsSbrk(v: View, n: int)
    requires v.View? && |v.image| == PageCount(v.sz)
    ensures Sbrk(v, Resized(v, n), n)
  {
    PagesSpanned(v.sz);
    PagesSpanned(Resized(v, n).sz);
  }

  // fork's: the same memory and registers, except that fork returns 0.
  ghost function ForkedFrom(v: View): View
    requires v.View? && |v.frame| == FRAME
  {
    v.(frame := v.frame[A0 := 0])
  }

  lemma NothingNew(views: seq<View>, k: nat)
    requires k < |views|
    ensures views[k := views[k]] == views
  {
  }

  // The first process's memory with the second's registers.
  ghost function CopiedView(v: View, vc: View): View
    requires v.View? && vc.View?
  {
    View(v.sz, v.image, vc.frame)
  }

  ghost predicate Present(views: seq<View>, k: nat) {
    k < |views| && views[k].View? && |views[k].image| == PageCount(views[k].sz) && |views[k].frame| == FRAME
  }

  // What a call may do to what the processes see: nothing, when memory is short, or one thing to one of them.
  ghost predicate Effect(views: seq<View>, call: Call, views': seq<View>) {
    || views' == views
    || match call
       case New => exists k, frame :: 0 <= k < |views| && views[k] == Absent && views' == views[k := View(0, [], frame)]
       case Free(k) => Present(views, k) && views' == views[k := Absent]
       case Grow(k, n) => Present(views, k) && views' == views[k := Resized(views[k], n)]
       case Fork(k) => (
         && Present(views, k)
         && exists np :: 0 <= np < |views| && views[np] == Absent && views' == views[np := ForkedFrom(views[k])])
  }

  /** No page is lost: once no process is left, every page is on the free list. */
  lemma AllGoneAllFree(b: Bounds, pages: map<nat, Page>, free: seq<nat>, procs: seq<Entry>, tables: seq<Table>, p: nat)
    requires Sane(b, pages, free, procs, tables) && forall k :: 0 <= k < |procs| ==> procs[k] == NOBODY
    ensures p in free <==> b.first <= p < b.limit
  {
    assert p in AllPages(b) <==> b.first <= p < b.limit;
    forall k | 0 <= k < |procs| ensures Holds(procs, tables)[k] == {} { }
    assert !HeldBySome(Holds(procs, tables), p);
  }

  // A process that is in use has a view of its size.
  lemma SeenWell(b: Bounds, pages: map<nat, Page>, free: seq<nat>, procs: seq<Entry>, tables: seq<Table>, k: nat)
    requires Sane(b, pages, free, procs, tables) && k < |procs|
    ensures if procs[k] == NOBODY then Views(pages, procs, tables)[k] == Absent
            else Good(b, pages, free, procs[k], tables[k]) && Present(Views(pages, procs, tables), k) &&
                 Views(pages, procs, tables)[k].sz == procs[k].sz
  {
    assert Sound(b, pages, free, procs[k], tables[k]);
    if procs[k] != NOBODY { BelowFrame(procs[k].sz); }
  }

  lemma HeldApart(b: Bounds, pages: map<nat, Page>, free: seq<nat>, procs: seq<Entry>, tables: seq<Table>, k: nat,
                  l: nat)
    requires Sane(b, pages, free, procs, tables) && k < |procs| && l < |procs| && k != l
    ensures Held(procs[k], tables[k]) !! Held(procs[l], tables[l])
  {
    var holds := Holds(procs, tables);
    assert holds[k] !! holds[l];
  }

  // sbrk cannot reach the trapframe: memory runs out long before.
  lemma FarBelowFrame(b: Bounds, pages: map<nat, Page>, free: seq<nat>, e: Entry, t: Table)
    requires Good(b, pages, free, e, t) && b.first <= b.limit <= b.first + MAXPAGES
    ensures e.sz + MAXINT <= TRAPFRAME
  {
    SizeBounded(b.first, b.limit, t, free, PageCount(e.sz));
    assert e.sz <= PageCount(e.sz) * PGSIZE;
  }

  // The calls of the rest of the kernel.
  datatype Call = New | Free(k: nat) | Grow(k: nat, n: int) | Fork(k: nat)

  class Procs {
    const m: Memory
    const trampoline: nat
    var procs: seq<Entry>
    ghost var tables: seq<Table>

    // Every process's memory is sound, and free list, page tables, user pages and trapframes partition the allocator's
    // pages.
    ghost predicate Valid()
      reads this, m
    {
      && m.Valid() && m.first <= m.limit <= m.first + MAXPAGES
      && Sane(BoundsOf(m, trampoline), m.pages, m.free, procs, tables)
    }

    // What each process sees.
    ghost function Seen(): seq<View>
      requires |tables| == |procs|
      reads this, m
    {
      Views(m.pages, procs, tables)
    }

    predicate Used(k: nat)
      reads this
    {
      k < |procs| && procs[k] != NOBODY
    }

    // After kinit: every page is free.
    constructor (memory: Memory, trampolinePage: nat, nproc: nat)
      requires memory.Valid() && memory.first <= memory.limit <= memory.first + MAXPAGES
      requires forall p: nat :: memory.Managed(p) ==> p in memory.free
      ensures Valid() && m == memory && trampoline == trampolinePage && Seen() == seq(nproc, _ => Absent)
    {
      m, trampoline := memory, trampolinePage;
      procs, tables := seq(nproc, _ => NOBODY), seq(nproc, _ => Table(0, map[], []));
    }

    // Writing back an entry whose address space made a trade.
    method Update(k: nat, e: Entry, ghost t: Table, ghost p0: map<nat, Page>, ghost f0: seq<nat>, ghost view: View)
      requires m.Valid() && m.first <= m.limit <= m.first + MAXPAGES && k < |procs|
      requires Sane(BoundsOf(m, trampoline), p0, f0, procs, tables)
      requires Becomes(BoundsOf(m, trampoline), p0, f0, Held(procs[k], tables[k]), m.pages, m.free, e, t, view)
      modifies this
      ensures Valid() && procs == old(procs)[k := e] && Seen() == Views(p0, old(procs), old(tables))[k := view]
    {
      TradeKeepsSane(BoundsOf(m, trampoline), p0, f0, procs, tables, k, m.pages, m.free, e, t);
      procs, tables := procs[k := e], tables[k := t];
    }

    /**
     allocproc: the first entry not in use gets a trapframe and an address space without
     user memory, or nothing changes for anyone.
     */
    method AllocProc() returns (k: int, ghost frame: seq<nat>)
      requires Valid()
      modifies this, m
      ensures Valid() && |procs| == |old(procs)| && -1 <= k < |procs|
      ensures k < 0 ==> procs == old(procs) && Seen() == old(Seen()) && Elems(m.free) == Elems(old(m.free))
      ensures k >= 0 ==> old(procs)[k] == NOBODY && (forall j :: 0 <= j < k ==> old(procs)[j] != NOBODY)
      ensures k >= 0 ==> procs == old(procs)[k := procs[k]] && Used(k) && procs[k].sz == 0
      ensures k >= 0 ==> Seen() == old(Seen())[k := View(0, [], frame)]
    {
      k := 0;
      while k < |procs| && procs[k] != NOBODY
        invariant 0 <= k <= |procs| && forall j :: 0 <= j < k ==> procs[j] != NOBODY
      {
        k := k + 1;
      }
      frame := [];
      if k == |procs| {
        return -1, frame;
      }
      ghost var p0, f0 := m.pages, m.free;
      var e;
      ghost var t;
      e, t := NewSpace(m, trampoline);
      Update(k, e, t, p0, f0, ViewOf(m.pages, e, t));
      if e == NOBODY {
        assert Seen() == old(Seen());
        return -1, frame;
      }
      frame := ViewOf(m.pages, e, t).frame;
    }

    /** freeproc: everything the process held is free again, and no other process notices. */
    method FreeProc(k: nat)
      requires Valid() && Used(k)
      modifies this, m
      ensures Valid() && procs == old(procs)[k := NOBODY] && Seen() == old(Seen())[k := Absent]
    {
      ghost var p0, f0 := m.pages, m.free;
      FreeSpace(m, procs[k], trampoline, tables[k]);
      Update(k, NOBODY, tables[k], p0, f0, Absent);
    }

    method GrowUp(k: nat, newsz: nat) returns (ok: bool)
      requires Valid() && Used(k) && procs[k].sz < newsz <= TRAPFRAME
      modifies this, m
      ensures Valid() && |procs| == |old(procs)| && Present(old(Seen()), k)
      ensures PageCount(old(Seen())[k].sz) <= PageCount(newsz)
      ensures Seen() == if ok then old(Seen())[k := Larger(old(Seen())[k], newsz)] else old(Seen())
    {
      ghost var p0, f0 := m.pages, m.free;
      SeenWell(BoundsOf(m, trampoline), p0, f0, procs, tables, k);
      ghost var v := Seen()[k];
      var e;
      ghost var t;
      ok, e, t := GrowSpace(m, procs[k], newsz, trampoline, tables[k]);
      Update(k, e, t, p0, f0, if ok then Larger(v, newsz) else v);
    }

    method ShrinkDown(k: nat, newsz: nat)
      requires Valid() && Used(k)
      modifies this, m
      ensures Valid() && |procs| == |old(procs)| && Present(old(Seen()), k)
      ensures newsz < old(Seen())[k].sz ==>
        PageCount(newsz) <= |old(Seen())[k].image| && Seen() == old(Seen())[k := Smaller(old(Seen())[k], newsz)]
      ensures newsz >= old(Seen())[k].sz ==> Seen() == old(Seen())
    {
      ghost var p0, f0 := m.pages, m.free;
      SeenWell(BoundsOf(m, trampoline), p0, f0, procs, tables, k);
      ghost var v := Seen()[k];
      var sz;
      ghost var t;
      sz, t := ShrinkSpace(m, procs[k], newsz, trampoline, tables[k]);
      Update(k, procs[k].(sz := sz), t, p0, f0, if newsz < v.sz then Smaller(v, newsz) else v);
    }

    /** growproc: memory is added or taken away as asked, or there was not enough and nothing changed for anyone. */
    method GrowProc(k: nat, n: int) returns (ok: bool)
      requires Valid() && Used(k) && -MAXINT - 1 <= n <= MAXINT
      modifies this, m
      ensures Valid() && |procs| == |old(procs)| && Present(old(Seen()), k)
      ensures ok ==> Seen() == old(Seen())[k := Resized(old(Seen())[k], n)]
      ensures ok ==> Sbrk(old(Seen())[k], Seen()[k], n)
      ensures !ok ==> n > 0 && Seen() == old(Seen())
    {
      SeenWell(BoundsOf(m, trampoline), m.pages, m.free, procs, tables, k);
      FarBelowFrame(BoundsOf(m, trampoline), m.pages, m.free, procs[k], tables[k]);
      ResizedIsSbrk(Seen()[k], n);
      var sz := procs[k].sz;
      ok := true;
      if n > 0 {
        ok := GrowUp(k, sz + n);
      } else if n < 0 {
        ShrinkDown(k, if sz + n >= 0 then sz + n else sz + n + WRAP);
      }
    }

    // uvmcopy into a process just allocated, before its entry is written back.
    method CopyTraded(k: nat, np: nat) returns (copied: bool, e: Entry, ghost t: Table, ghost view: View)
      requires Valid() && Used(k) && Used(np) && k != np && procs[np].sz == 0
      modifies m
      ensures m.Valid() && Present(old(Seen()), k) && Present(old(Seen()), np)
      ensures Becomes(BoundsOf(m, trampoline), old(m.pages), old(m.free), Held(procs[np], tables[np]),
                      m.pages, m.free, e, t, view)
      ensures e == (if copied then procs[np].(sz := procs[k].sz) else procs[np]) && e != NOBODY
      ensures view == if copied then CopiedView(old(Seen())[k], old(Seen())[np]) else old(Seen())[np]
    {
      ghost var b, p0, f0 := BoundsOf(m, trampoline), m.pages, m.free;
      SeenWell(b, p0, f0, procs, tables, k);
      SeenWell(b, p0, f0, procs, tables, np);
      HeldApart(b, p0, f0, procs, tables, k, np);
      copied, t, view := CopySpace(m, procs[k], procs[np], trampoline, tables[k], tables[np]);
      e := if copied then procs[np].(sz := procs[k].sz) else procs[np];
    }

    method CopyMemory(k: nat, np: nat) returns (copied: bool)
      requires Valid() && Used(k) && Used(np) && k != np && procs[np].sz == 0
      modifies this, m
      ensures Valid() && |procs| == |old(procs)| && Used(k) && Used(np)
      ensures Present(old(Seen()), k) && Present(old(Seen()), np)
      ensures Seen() == if copied then old(Seen())[np := CopiedView(old(Seen())[k], old(Seen())[np])] else old(Seen())
    {
      ghost var p0, f0 := m.pages, m.free;
      var e;
      ghost var t, view;
      copied, e, t, view := CopyTraded(k, np);
      ghost var seen := old(Seen());
      NothingNew(seen, np);
      Update(np, e, t, p0, f0, view);
    }

    method CopyFrame(k: nat, np: nat)
      requires Valid() && Used(k) && Used(np) && k != np
      modifies this, m
      ensures Valid() && |procs| == |old(procs)| && Present(old(Seen()), k) && Present(old(Seen()), np)
      ensures Seen() == old(Seen())[np := old(Seen())[np].(frame := old(Seen())[k].frame[A0 := 0])]
    {
      ghost var b, p0, f0 := BoundsOf(m, trampoline), m.pages, m.free;
      SeenWell(b, p0, f0, procs, tables, k);
      SeenWell(b, p0, f0, procs, tables, np);
      var regs := m.pages[procs[k].trapframe][..FRAME][A0 := 0];
      var frame := regs + m.pages[procs[np].trapframe][FRAME..];
      assert frame[..FRAME] == regs;
      m.SetPages(m.pages[procs[np].trapframe := frame]);
      FrameWritten(b, p0, f0, procs[np], tables[np], frame);
      Update(np, procs[np], tables[np], p0, f0, ViewOf(p0, procs[np], tables[np]).(frame := regs));
    }

    // After allocproc: copy, or give up the child.
    method FillChild(k: nat, np: nat) returns (copied: bool)
      requires Valid() && Used(k) && Used(np) && k != np && procs[np].sz == 0
      modifies this, m
      ensures Valid() && |procs| == |old(procs)| && Present(old(Seen()), k) && Present(old(Seen()), np)
      ensures Seen() == old(Seen())[np := if copied then ForkedFrom(old(Seen())[k]) else Absent]
    {
      copied := CopyMemory(k, np);
      if copied {
        CopyFrame(k, np);
      } else {
        FreeProc(np);
      }
    }

    /**
     fork's memory: a child with the parent's memory and registers on pages of its own, or
     nothing changed for anyone.
     */
    method ForkProc(k: nat) returns (np: int)
      requires Valid() && Used(k)
      modifies this, m
      ensures Valid() && |procs| == |old(procs)| && -1 <= np < |procs| && Present(old(Seen()), k)
      ensures np < 0 ==> Seen() == old(Seen())
      ensures np >= 0 ==> old(Seen())[np] == Absent && Seen() == old(Seen())[np := ForkedFrom(old(Seen())[k])]
    {
      SeenWell(BoundsOf(m, trampoline), m.pages, m.free, procs, tables, k);
      ghost var frame;
      np, frame := AllocProc();
      if np < 0 {
        return;
      }
      var copied := FillChild(k, np);
      if !copied {
        assert Seen() == old(Seen());
        np := -1;
      }
    }

    /**
     Any sequence of calls, whatever allocation fails in any of them, does to the
     processes' views what the calls say, one at a time.
     */
    method RunCalls(calls: seq<Call>) returns (ghost trace: seq<seq<View>>)
      requires Valid()
      modifies this, m
      ensures Valid() && |trace| == |calls| + 1 && trace[0] == old(Seen()) && trace[|calls|] == Seen()
      ensures forall i, j :: 0 <= i < |calls| && j == i + 1 ==> Effect(trace[i], calls[i], trace[j])
    {
      trace := [Seen()];
      for c := 0 to |calls|
        invariant Valid() && |trace| == c + 1 && trace[0] == old(Seen()) && trace[c] == Seen()
        invariant forall i, j :: 0 <= i < c && j == i + 1 ==> Effect(trace[i], calls[i], trace[j])
      {
        RunCall(calls[c]);
        trace := trace + [Seen()];
      }
    }

    method RunCall(call: Call)
      requires Valid()
      modifies this, m
      ensures Valid() && Effect(old(Seen()), call, Seen())
    {
      match call
      case New =>
        var k;
        ghost var frame;
        k, frame := AllocProc();
      case Free(k) =>
        if Used(k) {
          SeenWell(BoundsOf(m, trampoline), m.pages, m.free, procs, tables, k);
          FreeProc(k);
        }
      case Grow(k, n) =>
        if Used(k) && -MAXINT - 1 <= n <= MAXINT {
          var ok := GrowProc(k, n);
        }
      case Fork(k) =>
        if Used(k) {
          var np := ForkProc(k);
        }
    }
  }
}
