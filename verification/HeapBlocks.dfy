/**
 umalloc.c's heap as sets of units the size of a header: blocks that tile the
 memory obtained from sbrk, some live, the others on the free list.
 */
module HeapBlocks {

  // The units of a block.
  function Units(a: nat, n: nat): set<nat> {
    set u: nat | a <= u < a + n && Within(u, a, n)
  }

  predicate Within(u: nat, a: nat, n: nat) {
    a <= u < a + n
  }

  predicate Clear(a: nat, n: nat, b: nat, m: nat) {
    a + n <= b || b + m <= a
  }

  ghost predicate In(blocks: map<nat, nat>, u: nat) {
    exists a :: a in blocks && a <= u < a + blocks[a]
  }

  ghost predicate AllClear(blocks: map<nat, nat>) {
    && (forall a :: a in blocks ==> blocks[a] > 0)
    && (forall a, b :: a in blocks && b in blocks && a != b ==> Clear(a, blocks[a], b, blocks[b]))
  }

  // Disjoint blocks that make up `owned`.
  ghost predicate Tiles(blocks: map<nat, nat>, owned: set<nat>) {
    AllClear(blocks) && forall u: nat :: u in owned <==> In(blocks, u)
  }

  // Cut the last `n` units off block `a`.
  function Cut(blocks: map<nat, nat>, a: nat, n: nat): map<nat, nat>
    requires a in blocks && 0 < n < blocks[a]
  {
    blocks[a := blocks[a] - n][a + blocks[a] - n := n]
  }

  // Join block `a` with the block just after it.
  function Join(blocks: map<nat, nat>, a: nat): map<nat, nat>
    requires a in blocks && a + blocks[a] in blocks
  {
    var b := a + blocks[a];
    (blocks - {b})[a := blocks[a] + blocks[b]]
  }

  lemma CutClear(blocks: map<nat, nat>, a: nat, n: nat)
    requires AllClear(blocks) && a in blocks && 0 < n < blocks[a]
    ensures a + blocks[a] - n !in blocks && AllClear(Cut(blocks, a, n))
  {
    var q := a + blocks[a] - n;
    assert q in blocks ==> Clear(a, blocks[a], q, blocks[q]);
    forall b | b in blocks && b != a ensures Clear(a, blocks[a], b, blocks[b]) { }
  }

  // Every unit is still in a block.
  lemma CutKeeps(blocks: map<nat, nat>, a: nat, n: nat, u: nat)
    requires a in blocks && 0 < n < blocks[a] && a + blocks[a] - n !in blocks && In(blocks, u)
    ensures In(Cut(blocks, a, n), u)
  {
    var blocks', q := Cut(blocks, a, n), a + blocks[a] - n;
    var b :| b in blocks && b <= u < b + blocks[b];
    var c := if b == a && u >= q then q else b;
    assert c in blocks' && c <= u < c + blocks'[c];
  }

  // No unit is in a block that was in none.
  lemma CutAdds(blocks: map<nat, nat>, a: nat, n: nat, u: nat)
    requires a in blocks && 0 < n < blocks[a] && a + blocks[a] - n !in blocks && In(Cut(blocks, a, n), u)
    ensures In(blocks, u)
  {
    var blocks', q := Cut(blocks, a, n), a + blocks[a] - n;
    var b :| b in blocks' && b <= u < b + blocks'[b];
    var c := if b == q then a else b;
    assert c in blocks && c <= u < c + blocks[c];
  }

  lemma CutTiles(blocks: map<nat, nat>, owned: set<nat>, a: nat, n: nat)
    requires Tiles(blocks, owned) && a in blocks && 0 < n < blocks[a]
    ensures a + blocks[a] - n !in blocks && Tiles(Cut(blocks, a, n), owned)
  {
    CutClear(blocks, a, n);
    forall u: nat ensures In(Cut(blocks, a, n), u) <==> In(blocks, u) {
      if In(blocks, u) { CutKeeps(blocks, a, n, u); }
      if In(Cut(blocks, a, n), u) { CutAdds(blocks, a, n, u); }
    }
  }

  lemma JoinClear(blocks: map<nat, nat>, a: nat)
    requires AllClear(blocks) && a in blocks && a + blocks[a] in blocks
    ensures AllClear(Join(blocks, a))
  {
    var b := a + blocks[a];
    forall c | c in blocks && c != a && c != b ensures Clear(a, blocks[a] + blocks[b], c, blocks[c]) {
      assert Clear(a, blocks[a], c, blocks[c]) && Clear(b, blocks[b], c, blocks[c]);
    }
  }

  lemma JoinTiles(blocks: map<nat, nat>, owned: set<nat>, a: nat)
    requires Tiles(blocks, owned) && a in blocks && a + blocks[a] in blocks
    ensures Tiles(Join(blocks, a), owned)
  {
    JoinClear(blocks, a);
    var blocks', b := Join(blocks, a), a + blocks[a];
    forall u: nat ensures In(blocks', u) <==> In(blocks, u) {
      if In(blocks, u) {
        var c :| c in blocks && c <= u < c + blocks[c];
        assert c != a && c != b ==> c in blocks' && c <= u < c + blocks'[c];
        assert c == a || c == b ==> a <= u < a + blocks'[a];
      }
      if In(blocks', u) {
        var c :| c in blocks' && c <= u < c + blocks'[c];
        assert c != a ==> c in blocks && c <= u < c + blocks[c];
        assert c == a ==> a <= u < a + blocks[a] || b <= u < b + blocks[b];
      }
    }
  }

  // New memory, above all the old.
  lemma AddTiles(blocks: map<nat, nat>, owned: set<nat>, a: nat, n: nat)
    requires Tiles(blocks, owned) && n > 0 && forall u :: u in owned ==> u < a
    ensures a !in blocks && Tiles(blocks[a := n], owned + Units(a, n))
  {
    forall b | b in blocks ensures b + blocks[b] <= a {
      assert In(blocks, b + blocks[b] - 1);
    }
    var blocks' := blocks[a := n];
    forall u: nat ensures In(blocks', u) <==> In(blocks, u) || u in Units(a, n) {
      if In(blocks, u) {
        var b :| b in blocks && b <= u < b + blocks[b];
        assert b in blocks' && b <= u < b + blocks'[b];
      }
      if u in Units(a, n) { assert a <= u < a + blocks'[a]; }
    }
  }

  // ----- conservation, counted -----

  ghost function Total(blocks: map<nat, nat>): nat
    decreases blocks.Keys
  {
    if blocks.Keys == {} then 0 else var a :| a in blocks.Keys; blocks[a] + Total(blocks - {a})
  }

  lemma {:induction false} UnitsCount(a: nat, n: nat)
    ensures |Units(a, n)| == n
  {
    if n > 0 {
      UnitsCount(a, n - 1);
      assert Units(a, n) == Units(a, n - 1) + {a + n - 1};
    } else {
      assert Units(a, n) == {};
    }
  }

  lemma DropTile(blocks: map<nat, nat>, owned: set<nat>, a: nat)
    requires Tiles(blocks, owned) && a in blocks
    ensures Units(a, blocks[a]) <= owned && Tiles(blocks - {a}, owned - Units(a, blocks[a]))
  {
    var rest := blocks - {a};
    forall u: nat ensures In(blocks, u) <==> In(rest, u) || u in Units(a, blocks[a]) {
      if In(blocks, u) {
        var b :| b in blocks && b <= u < b + blocks[b];
        assert b != a ==> b in rest && b <= u < b + rest[b];
      }
      if u in Units(a, blocks[a]) { assert a <= u < a + blocks[a]; }
    }
    forall u: nat ensures u in Units(a, blocks[a]) ==> !In(rest, u) { }
  }

  /** The sizes of all blocks add up to the units obtained. */
  lemma {:induction false} TotalIsOwned(blocks: map<nat, nat>, owned: set<nat>)
    requires Tiles(blocks, owned)
    ensures Total(blocks) == |owned|
    decreases blocks.Keys
  {
    if blocks.Keys == {} {
      assert forall u: nat :: !In(blocks, u);
      assert owned == {};
    } else {
      var a :| a in blocks.Keys && Total(blocks) == blocks[a] + Total(blocks - {a});
      DropTile(blocks, owned, a);
      TotalIsOwned(blocks - {a}, owned - Units(a, blocks[a]));
      UnitsCount(a, blocks[a]);
    }
  }
}
