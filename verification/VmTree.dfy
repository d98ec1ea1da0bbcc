/**
 Sv39 page tables as trees in physical memory, section 4.4 of the RISC-V
 Privileged Architecture.  A path says which table of the tree a page is: the
 root, the level-1 table behind entry i of the root, or the leaf table behind
 entry j of that.  `tbl` records the path of every page of the tree.
 */
module VmTree {
  import opened VmMemory

  // ----- page table entries -----

  predicate ValidPte(w: nat) { w % 2 == 1 }

  // PTE2PA, as a page number.
  function PtePage(w: nat): nat { w / 1024 }

  function PteFlags(w: nat): nat { w % 1024 }

  // PA2PTE(pa) | perm | PTE_V
  function MakePte(p: nat, perm: nat): nat
    requires perm < 1024
  {
    1024 * p + (if perm % 2 == 1 then perm else perm + 1)
  }

  // pte & (PTE_R | PTE_W | PTE_X)
  function Rwx(w: nat): nat { w / 2 % 8 }

  lemma PteRoundTrip(p: nat, perm: nat)
    requires perm < 1024
    ensures var w := MakePte(p, perm);
      ValidPte(w) && PtePage(w) == p && Rwx(w) == Rwx(perm) && PteFlags(w) == if perm % 2 == 1 then perm else perm + 1
  {
    var f := if perm % 2 == 1 then perm else perm + 1;
    assert f / 2 == perm / 2;
    FlagBits(p, f);
  }

  lemma FlagBits(p: nat, f: nat)
    requires f < 1024
    ensures (1024 * p + f) / 2 % 8 == f / 2 % 8 && (1024 * p + f) % 2 == f % 2
  {
    var h, b := f / 2, f % 2;
    Divides(1024 * p + f, 2, 512 * p + h, b);
    Divides(512 * p + h, 8, 64 * p + h / 8, h % 8);
  }

  // A bit of the flags is that bit of the entry.
  lemma FlagBit(p: nat, f: nat, d: nat, e: nat)
    requires d > 0 && 2 * d * e == 1024
    ensures (1024 * p + f) / d % 2 == f / d % 2
  {
    var q := f / d;
    assert 1024 * p == d * (2 * e * p);
    Divides(1024 * p + f, d, 2 * e * p + q, f % d);
    Divides(2 * e * p + q, 2, e * p + q / 2, q % 2);
  }

  /**
   The entry made for a page and permissions: the page number from bit 10 up, bit 0
   for valid, bits 1 to 4 for readable, writable, executable and user as asked.
   */
  lemma EntryBits(p: nat, perm: nat)
    requires perm < 1024
    ensures var w := MakePte(p, perm);
      && w / 1024 == p && w % 2 == 1 && w / 2 % 2 == perm / 2 % 2 && w / 4 % 2 == perm / 4 % 2
      && w / 8 % 2 == perm / 8 % 2 && w / 16 % 2 == perm / 16 % 2
  {
    var f := if perm % 2 == 1 then perm else perm + 1;
    Divides(1024 * p + f, 1024, p, f);
    FlagBit(p, f, 1, 512);
    EvenUp(perm, 1);
    FlagBit(p, f, 2, 256);
    EvenUp(perm, 2);
    FlagBit(p, f, 4, 128);
    EvenUp(perm, 4);
    FlagBit(p, f, 8, 64);
    EvenUp(perm, 8);
    FlagBit(p, f, 16, 32);
  }

  // Setting bit 0 changes no other bit.
  lemma EvenUp(perm: nat, h: nat)
    requires h > 0
    ensures perm % 2 == 0 ==> (perm + 1) / (2 * h) == perm / (2 * h)
  {
    if perm % 2 == 0 {
      var b, q := perm / 2, perm / 2 / h;
      assert perm == 2 * (h * q + b % h) == 2 * h * q + 2 * (b % h);
      Divides(perm, 2 * h, q, 2 * (b % h));
      Divides(perm + 1, 2 * h, q, 2 * (b % h) + 1);
    }
  }

  // Quotient and remainder are determined.
  lemma Divides(x: nat, d: nat, q: nat, r: nat)
    requires d > 0 && r < d && x == d * q + r
    ensures x / d == q && x % d == r
  {
    var e := x / d - q;
    assert x == d * (x / d) + x % d;
    assert d * e == d * (x / d) - d * q;
    FarFromZero(d, e);
  }

  lemma FarFromZero(d: nat, e: int)
    ensures (e >= 1 ==> d * e >= d) && (e <= -1 ==> d * e + d <= 0)
  {
  }

  // ----- trees -----

  datatype Path = Top | Mid(i: nat) | Low(i: nat, j: nat)

  predicate IsPath(q: Path) {
    (q.Mid? ==> q.i < WORDS) && (q.Low? ==> q.i < WORDS && q.j < WORDS)
  }

  // The path behind entry `k` of the table at path `q`.
  function Child(q: Path, k: nat): Path
    requires !q.Low?
  {
    if q.Top? then Mid(k) else Low(q.i, k)
  }

  // The page an entry of table `p` points to, 0 if the entry is not valid.
  function Entry(pages: map<nat, Page>, p: nat, i: nat): nat
    requires i < WORDS
  {
    if p in pages && ValidPte(pages[p][i]) then PtePage(pages[p][i]) else 0
  }

  function Node(pages: map<nat, Page>, root: nat, q: Path): nat
    requires IsPath(q)
  {
    match q
    case Top => root
    case Mid(i) => Entry(pages, root, i)
    case Low(i, j) => if Entry(pages, root, i) == 0 then 0 else Entry(pages, Entry(pages, root, i), j)
  }

  ghost predicate Tree(pages: map<nat, Page>, root: nat, tbl: map<nat, Path>) {
    && root != 0
    && (forall p :: p in tbl ==> p != 0 && p in pages && IsPath(tbl[p]) && Node(pages, root, tbl[p]) == p)
    && (forall q :: IsPath(q) && Node(pages, root, q) != 0 ==>
          Node(pages, root, q) in tbl && tbl[Node(pages, root, q)] == q)
    && (forall p, i :: p in tbl && !tbl[p].Low? && 0 <= i < WORDS ==> Interior(pages[p][i]))
  }

  // An entry above the leaf tables: absent, or a pointer to a table.
  predicate Interior(w: nat) {
    !ValidPte(w) || (PteFlags(w) == 1 && PtePage(w) != 0)
  }

  lemma ChildNode(pages: map<nat, Page>, root: nat, tbl: map<nat, Path>, t: nat, k: nat)
    requires Tree(pages, root, tbl) && t in tbl && !tbl[t].Low? && k < WORDS
    ensures IsPath(Child(tbl[t], k)) && Node(pages, root, Child(tbl[t], k)) == Entry(pages, t, k)
  {
  }

  // Trees see only their own pages.
  lemma TreeFrame(pages: map<nat, Page>, pages': map<nat, Page>, root: nat, tbl: map<nat, Path>)
    requires Tree(pages, root, tbl)
    requires forall p :: p in tbl ==> p in pages' && pages'[p] == pages[p]
    ensures Tree(pages', root, tbl)
    ensures forall q :: IsPath(q) ==> Node(pages', root, q) == Node(pages, root, q)
  {
    assert Node(pages, root, Top) == root;
    forall q | IsPath(q) ensures Node(pages', root, q) == Node(pages, root, q) {
      if q.Low? {
        assert Node(pages, root, Mid(q.i)) == Entry(pages, root, q.i);
      }
    }
  }

  // ----- linking a fresh table into an empty entry -----

  ghost predicate Linked(pages: map<nat, Page>, pages': map<nat, Page>, tbl: map<nat, Path>, t: nat, i: nat, n: nat) {
    && t in tbl && t in pages && i < WORDS && n != 0 && n !in tbl && n != t
    && (forall p :: p in tbl || p == n ==> p in pages')
    && (forall p :: p in tbl && p != t ==> p in pages && pages'[p] == pages[p])
    && pages'[t] == pages[t][i := MakePte(n, 0)]
    && pages'[n] == Filled(0)
  }

  lemma NodeLinked(pages: map<nat, Page>, pages': map<nat, Page>, root: nat, tbl: map<nat, Path>, t: nat, i: nat,
                   n: nat, q: Path)
    requires Tree(pages, root, tbl) && Linked(pages, pages', tbl, t, i, n)
    requires !tbl[t].Low? && !ValidPte(pages[t][i]) && IsPath(q)
    ensures Node(pages', root, q) == if q == Child(tbl[t], i) then n else Node(pages, root, q)
  {
    PteRoundTrip(n, 0);
    assert Node(pages, root, Top) == root;
    if q.Low? {
      assert Node(pages, root, Mid(q.i)) == Entry(pages, root, q.i);
    }
  }

  lemma LinkKeepsTree(pages: map<nat, Page>, pages': map<nat, Page>, root: nat, tbl: map<nat, Path>, t: nat, i: nat,
                      n: nat)
    requires Tree(pages, root, tbl) && Linked(pages, pages', tbl, t, i, n)
    requires !tbl[t].Low? && !ValidPte(pages[t][i])
    ensures Tree(pages', root, tbl[n := Child(tbl[t], i)])
  {
    PteRoundTrip(n, 0);
    ChildNode(pages, root, tbl, t, i);
    forall q | IsPath(q) ensures Node(pages', root, q) == if q == Child(tbl[t], i) then n else Node(pages, root, q) {
      NodeLinked(pages, pages', root, tbl, t, i, n, q);
    }
  }

  // ----- the flat map -----

  const VPNS: nat := 0x800_0000   // 2^27 virtual pages

  function I2(v: nat): nat { v / 0x4_0000 % WORDS }
  function I1(v: nat): nat { v / 0x200 % WORDS }
  function I0(v: nat): nat { v % WORDS }

  function TablePath(v: nat): Path {
    Low(I2(v), I1(v))
  }

  // The leaf entry for virtual page `v`, 0 where the tree has no leaf table.
  function Leaf(pages: map<nat, Page>, root: nat, v: nat): nat {
    var t := Node(pages, root, TablePath(v));
    if t == 0 || t !in pages then 0 else pages[t][I0(v)]
  }

  /** Two addresses use the same leaf entry exactly when they lie in the same virtual page. */
  lemma SameEntryIffSamePage(pages: map<nat, Page>, root: nat, tbl: map<nat, Path>, v: nat, w: nat)
    requires Tree(pages, root, tbl) && v < VPNS && w < VPNS
    requires Node(pages, root, TablePath(v)) != 0
    ensures Node(pages, root, TablePath(v)) == Node(pages, root, TablePath(w)) && I0(v) == I0(w) <==> v == w
  {
    if Node(pages, root, TablePath(v)) == Node(pages, root, TablePath(w)) && I0(v) == I0(w) {
      IndicesDetermine(v, w);
    }
  }

  lemma IndicesDetermine(v: nat, w: nat)
    requires v < VPNS && w < VPNS && I2(v) == I2(w) && I1(v) == I1(w) && I0(v) == I0(w)
    ensures v == w
  {
    Recompose(v);
    Recompose(w);
  }

  lemma Recompose(v: nat)
    requires v < VPNS
    ensures v == 512 * (512 * I2(v) + I1(v)) + I0(v)
  {
    var a := v / 512;
    assert v == 512 * a + v % 512;
    assert a == 512 * (a / 512) + a % 512;
    assert v / 0x4_0000 == a / 512 && a / 512 < 512;
  }

  // The map from virtual pages to leaf entries is the same.
  ghost predicate SameLeaves(pages: map<nat, Page>, pages': map<nat, Page>, root: nat) {
    forall v: nat :: v < VPNS ==> Leaf(pages', root, v) == Leaf(pages, root, v)
  }

  lemma LinkKeepsLeaves(pages: map<nat, Page>, pages': map<nat, Page>, root: nat, tbl: map<nat, Path>, t: nat, i: nat,
                        n: nat)
    requires Tree(pages, root, tbl) && Linked(pages, pages', tbl, t, i, n)
    requires !tbl[t].Low? && !ValidPte(pages[t][i])
    ensures SameLeaves(pages, pages', root)
  {
    ChildNode(pages, root, tbl, t, i);
    forall v: nat | v < VPNS ensures Leaf(pages', root, v) == Leaf(pages, root, v) {
      NodeLinked(pages, pages', root, tbl, t, i, n, TablePath(v));
    }
  }

  lemma FrameLeaves(pages: map<nat, Page>, pages': map<nat, Page>, root: nat, tbl: map<nat, Path>)
    requires Tree(pages, root, tbl) && forall p :: p in tbl ==> p in pages' && pages'[p] == pages[p]
    ensures Tree(pages', root, tbl) && SameLeaves(pages, pages', root)
  {
    TreeFrame(pages, pages', root, tbl);
  }

  // Writing one leaf entry changes the translation of one virtual page.
  lemma PutLeaf(pages: map<nat, Page>, root: nat, tbl: map<nat, Path>, v: nat, w: nat)
    requires Tree(pages, root, tbl) && v < VPNS && Node(pages, root, TablePath(v)) != 0
    ensures var t := Node(pages, root, TablePath(v));
      var pages' := pages[t := pages[t][I0(v) := w]];
      && Tree(pages', root, tbl)
      && forall u: nat :: u < VPNS ==> Leaf(pages', root, u) == if u == v then w else Leaf(pages, root, u)
  {
    var t := Node(pages, root, TablePath(v));
    var pages' := pages[t := pages[t][I0(v) := w]];
    assert Node(pages, root, Top) == root;
    forall q | IsPath(q) ensures Node(pages', root, q) == Node(pages, root, q) {
      if q.Low? {
        assert Node(pages, root, Mid(q.i)) == Entry(pages, root, q.i);
      }
    }
    forall u: nat | u < VPNS ensures Leaf(pages', root, u) == if u == v then w else Leaf(pages, root, u) {
      SameEntryIffSamePage(pages, root, tbl, v, u);
    }
  }
}
