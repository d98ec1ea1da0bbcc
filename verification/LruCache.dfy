/**
 The buffer cache's list of bio.c: a circular doubly linked list through a head
 node, changed in place, kept in order of last use.  Each method runs under
 bcache.lock and is atomic.
 */
module LruCache {

  class Buf {
    var dev: nat
    var blockno: nat
    var valid: bool
    var refcnt: nat
    var next: Buf?
    var prev: Buf?
    ghost var lastMove: nat      // when the buffer last moved to the front

    constructor ()
      ensures Blank() && next == null && prev == null && lastMove == 0
    {
      dev, blockno, valid, refcnt, next, prev, lastMove := 0, 0, false, 0, null, null, 0;
    }

    // As in zeroed memory.
    predicate Blank()
      reads this
    {
      dev == 0 && blockno == 0 && !valid && refcnt == 0
    }
  }

  // The i-th node of the circle: the head, then the ring, then the head again.
  ghost function Node(head: Buf, ring: seq<Buf>, i: nat): Buf
    requires i <= |ring| + 1
  {
    if i == 0 || i == |ring| + 1 then head else ring[i - 1]
  }

  // `next` and `prev` are inverse and run once around head and ring.
  ghost predicate Linked(head: Buf, ring: seq<Buf>)
    reads head`next, head`prev, ring`next, ring`prev
  {
    && head !in ring
    && (forall i, j :: 0 <= i < j < |ring| ==> ring[i] != ring[j])
    && (forall i :: 0 <= i <= |ring| ==> LinkAt(head, ring, i))
  }

  ghost predicate LinkAt(head: Buf, ring: seq<Buf>, i: nat)
    requires i <= |ring|
    reads head`next, head`prev, ring`next, ring`prev
  {
    Node(head, ring, i).next == Node(head, ring, i + 1) && Node(head, ring, i + 1).prev == Node(head, ring, i)
  }

  ghost function Without(ring: seq<Buf>, k: nat): seq<Buf>
    requires k < |ring|
  {
    ring[..k] + ring[k + 1..]
  }

  // The buffer's two neighbours are made each other's.
  method Unlink(head: Buf, b: Buf, ghost ring: seq<Buf>, ghost k: nat)
    requires Linked(head, ring) && k < |ring| && ring[k] == b
    modifies head`next, head`prev, ring`next, ring`prev
    ensures Linked(head, Without(ring, k))
    ensures b.next == old(b.next) && b.prev == old(b.prev)
  {
    ghost var rest := Without(ring, k);
    assert LinkAt(head, ring, k) && LinkAt(head, ring, k + 1);
    b.next.prev := b.prev;
    b.prev.next := b.next;
    forall i | 0 <= i <= |rest| ensures LinkAt(head, rest, i) {
      assert i != k ==> old(LinkAt(head, ring, if i < k then i else i + 1));
    }
  }

  // The buffer goes in between the head and what followed it.
  method LinkFront(head: Buf, b: Buf, ghost ring: seq<Buf>)
    requires Linked(head, ring) && b != head && b !in ring
    modifies head`next, head`prev, b`next, b`prev, ring`next, ring`prev
    ensures Linked(head, [b] + ring)
  {
    assert LinkAt(head, ring, 0);
    b.next := head.next;
    b.prev := head;
    head.next.prev := b;
    head.next := b;
    ghost var all := [b] + ring;
    forall i | 0 <= i <= |all| ensures LinkAt(head, all, i) {
      assert i >= 2 ==> old(LinkAt(head, ring, i - 1));
    }
  }

  const NBUF: nat := 30

  predicate HasKey(b: Buf, dev: nat, blockno: nat)
    reads b`dev, b`blockno
  {
    b.dev == dev && b.blockno == blockno
  }

  ghost function Members(ring: seq<Buf>): set<Buf> {
    set b | b in ring
  }

  // Ordered by last move to the front, latest first.
  ghost predicate Recent(ring: seq<Buf>, clock: nat)
    reads ring`lastMove
  {
    && (forall i :: 0 <= i < |ring| ==> ring[i].lastMove < clock)
    && (forall i, j :: 0 <= i < j < |ring| ==> MovedAfter(ring[i], ring[j]))
  }

  ghost predicate MovedAfter(a: Buf, b: Buf)
    reads a`lastMove, b`lastMove
  {
    b.lastMove < a.lastMove
  }

  // No block of a real device is cached twice.
  ghost predicate Unique(ring: seq<Buf>)
    reads ring`dev, ring`blockno
  {
    forall i, j :: 0 <= i < j < |ring| ==> Apart(ring[i], ring[j])
  }

  ghost predicate Apart(a: Buf, b: Buf)
    reads a`dev, a`blockno, b`dev, b`blockno
  {
    a.dev == 0 || a.dev != b.dev || a.blockno != b.blockno
  }

  // Where an element of the ring with its k-th node moved to the front came from.
  function Origin(k: nat, i: nat): nat {
    if i == 0 then k else if i <= k then i - 1 else i
  }

  lemma Moved(ring: seq<Buf>, k: nat)
    requires k < |ring|
    ensures var r := [ring[k]] + Without(ring, k);
      && |r| == |ring| && Members(r) == Members(ring)
      && forall i :: 0 <= i < |ring| ==> r[i] == ring[Origin(k, i)]
  {
    var r := [ring[k]] + Without(ring, k);
    forall b | b in ring ensures b in r {
      var i :| 0 <= i < |ring| && ring[i] == b;
      assert r[if i == k then 0 else if i < k then i + 1 else i] == b;
    }
  }

  lemma MovedUnique(ring: seq<Buf>, k: nat)
    requires k < |ring| && Unique(ring)
    ensures Unique([ring[k]] + Without(ring, k))
  {
    var r := [ring[k]] + Without(ring, k);
    Moved(ring, k);
    forall i, j | 0 <= i < j < |r| ensures Apart(r[i], r[j]) {
      var a, b := Origin(k, i), Origin(k, j);
      assert if a < b then Apart(ring[a], ring[b]) else Apart(ring[b], ring[a]);
    }
  }

  lemma RestRecent(ring: seq<Buf>, k: nat, clock: nat)
    requires k < |ring| && Recent(ring, clock)
    ensures Recent(Without(ring, k), clock)
  {
  }

  lemma FrontRecent(b: Buf, rest: seq<Buf>, clock: nat)
    requires Recent(rest, clock) && b.lastMove == clock
    ensures Recent([b] + rest, clock + 1)
  {
  }

  // A circle of NBUF buffers, each linked in at the front.
  method NewRing() returns (h: Buf, ghost ring: seq<Buf>)
    ensures fresh(h) && fresh(ring) && |ring| == NBUF && Linked(h, ring)
    ensures forall i :: 0 <= i < NBUF ==> ring[i].lastMove == NBUF - 1 - i && ring[i].Blank()
  {
    h := new Buf();
    ring := [];
    h.prev := h;
    h.next := h;
    var n := 0;
    while n < NBUF
      invariant 0 <= n <= NBUF && |ring| == n && fresh(h) && fresh(ring)
      invariant Linked(h, ring)
      invariant forall i :: 0 <= i < n ==> ring[i].lastMove == n - 1 - i && ring[i].Blank()
    {
      var b := new Buf();
      LinkFront(h, b, ring);
      b.lastMove := n;
      ring := [b] + ring;
      n := n + 1;
    }
  }

  // brelse's six assignments.
  method Relink(head: Buf, b: Buf, ghost ring: seq<Buf>, ghost k: nat)
    requires Linked(head, ring) && k < |ring| && ring[k] == b
    modifies head`next, head`prev, ring`next, ring`prev
    ensures Linked(head, [b] + Without(ring, k))
  {
    Unlink(head, b, ring, k);
    LinkFront(head, b, Without(ring, k));
  }

  // Stamping the front node keeps the rest in order.
  ghost method Stamp(b: Buf, rest: seq<Buf>, clock: nat)
    requires Recent(rest, clock) && b !in rest
    modifies b`lastMove
    ensures Recent([b] + rest, clock + 1) && b.lastMove == clock
  {
    b.lastMove := clock;
    FrontRecent(b, rest, clock);
  }

  class Bcache {
    const head: Buf
    ghost const bufs: set<Buf>
    ghost var ring: seq<Buf>     // the buffers from head.next on
    ghost var clock: nat

    // One circle through all buffers, most recently moved first, and no block cached twice.
    ghost predicate Valid()
      reads this, head, bufs
    {
      && |ring| == NBUF && bufs == Members(ring)
      && Linked(head, ring)
      && Recent(ring, clock) && Unique(ring)
    }

    // binit
    constructor ()
      ensures Valid() && fresh(head) && fresh(bufs)
      ensures forall b :: b in bufs ==> b.Blank()
    {
      var h;
      ghost var ring';
      h, ring' := NewRing();
      head := h;
      bufs := Members(ring');
      ring := ring';
      clock := NBUF;
    }

    method MoveToFront(b: Buf, ghost k: nat)
      requires Valid() && k < NBUF && ring[k] == b
      modifies head`next, head`prev, bufs`next, bufs`prev, b`lastMove, this`ring, this`clock
      ensures Valid() && ring == [b] + Without(old(ring), k) && b.lastMove == old(clock)
    {
      Relink(head, b, ring, k);
      Restamp(b, k);
    }

    // The ghost side of a move to the front.
    ghost method Restamp(b: Buf, k: nat)
      requires |ring| == NBUF && bufs == Members(ring) && Recent(ring, clock) && Unique(ring)
      requires k < NBUF && ring[k] == b && Linked(head, [b] + Without(ring, k))
      modifies b`lastMove, this`ring, this`clock
      ensures Valid() && ring == [b] + Without(old(ring), k) && b.lastMove == old(clock)
    {
      var rest := Without(ring, k);
      Moved(ring, k);
      MovedUnique(ring, k);
      RestRecent(ring, k, clock);
      assert b !in rest by { assert forall i :: 0 <= i < |rest| ==> rest[i] == ([b] + rest)[i + 1]; }
      Stamp(b, rest, clock);
      ring := [b] + rest;
      clock := clock + 1;
    }

    method Brelse(b: Buf)
      requires Valid() && b in bufs && b.refcnt > 0
      modifies head`next, head`prev, bufs`next, bufs`prev, b`refcnt, b`lastMove, this`ring, this`clock
      ensures Valid()
      ensures b.refcnt == old(b.refcnt) - 1
      ensures b.refcnt > 0 ==> ring == old(ring)
      ensures b.refcnt == 0 ==> exists k :: 0 <= k < NBUF && old(ring)[k] == b && ring == [b] + Without(old(ring), k)
    {
      b.refcnt := b.refcnt - 1;
      if b.refcnt == 0 {
        ghost var k :| 0 <= k < |ring| && ring[k] == b;
        MoveToFront(b, k);
      }
    }

    method Bpin(b: Buf)
      requires Valid() && b in bufs
      modifies b`refcnt
      ensures Valid() && b.refcnt == old(b.refcnt) + 1
    {
      b.refcnt := b.refcnt + 1;
    }

    method Bunpin(b: Buf)
      requires Valid() && b in bufs && b.refcnt > 0
      modifies b`refcnt
      ensures Valid() && b.refcnt == old(b.refcnt) - 1
    {
      b.refcnt := b.refcnt - 1;
    }

    // bget's first loop, from the most recently used end.
    method FindCached(dev: nat, blockno: nat) returns (r: Buf?)
      requires Valid()
      ensures r != null ==> r in bufs && HasKey(r, dev, blockno)
      ensures r == null ==> forall c :: c in bufs ==> !HasKey(c, dev, blockno)
    {
      ghost var i := 1;
      var b := head.next;
      assert LinkAt(head, ring, 0);
      while b != head
        invariant 1 <= i <= NBUF + 1 && b == Node(head, ring, i)
        invariant forall j :: 0 <= j < i - 1 ==> !HasKey(ring[j], dev, blockno)
        decreases NBUF + 1 - i
      {
        if b.dev == dev && b.blockno == blockno {
          return b;
        }
        assert LinkAt(head, ring, i);
        b := b.next;
        i := i + 1;
      }
      r := null;
    }

    // bget's second loop, from the least recently used end.
    method FindUnused() returns (r: Buf?)
      requires Valid()
      ensures r != null ==>
        r in bufs && r.refcnt == 0 && forall c :: c in bufs && c.refcnt == 0 ==> r.lastMove <= c.lastMove
      ensures r == null ==> forall c :: c in bufs ==> c.refcnt > 0
    {
      ghost var i := NBUF;
      var b := head.prev;
      assert LinkAt(head, ring, NBUF);
      while b != head
        invariant 0 <= i <= NBUF && b == Node(head, ring, i)
        invariant forall j :: i <= j < NBUF ==> ring[j].refcnt > 0
        decreases i
      {
        if b.refcnt == 0 {
          return b;
        }
        assert LinkAt(head, ring, i - 1);
        b := b.prev;
        i := i - 1;
      }
      r := null;
    }

    // An unused buffer is given to a block that no buffer holds.
    method Rekey(b: Buf, dev: nat, blockno: nat)
      requires Valid() && dev != 0 && b in bufs && forall c :: c in bufs ==> !HasKey(c, dev, blockno)
      modifies b`dev, b`blockno, b`valid, b`refcnt
      ensures Valid() && HasKey(b, dev, blockno) && !b.valid && b.refcnt == 1
    {
      b.dev := dev;
      b.blockno := blockno;
      b.valid := false;
      b.refcnt := 1;
      forall i, j | 0 <= i < j < |ring| ensures Apart(ring[i], ring[j]) {
        assert ring[i] in bufs && ring[j] in bufs;
        assert old(Apart(ring[i], ring[j]) && !HasKey(ring[i], dev, blockno) && !HasKey(ring[j], dev, blockno));
      }
    }

    /**
     bget: a cached block is found wherever it is; a miss recycles, of the
     unreferenced buffers, the one that moved to the front longest ago; null
     stands for the panic, and means every buffer is referenced.
     */
    method Bget(dev: nat, blockno: nat) returns (r: Buf?)
      requires Valid() && dev != 0
      modifies bufs`dev, bufs`blockno, bufs`valid, bufs`refcnt
      ensures Valid()
      ensures r == null <==> forall c :: c in bufs ==> !old(HasKey(c, dev, blockno)) && old(c.refcnt) > 0
      ensures r != null ==> r in bufs && HasKey(r, dev, blockno)
      ensures r != null && old(HasKey(r, dev, blockno)) ==> r.refcnt == old(r.refcnt) + 1 && r.valid == old(r.valid)
      ensures r != null && !old(HasKey(r, dev, blockno)) ==>
        && (forall c :: c in bufs ==> !old(HasKey(c, dev, blockno)))
        && old(r.refcnt) == 0 && r.refcnt == 1 && !r.valid
        && (forall c :: c in bufs && old(c.refcnt) == 0 ==> r.lastMove <= c.lastMove)
      ensures forall c :: c in bufs && c != r ==>
        c.dev == old(c.dev) && c.blockno == old(c.blockno) && c.valid == old(c.valid) && c.refcnt == old(c.refcnt)
    {
      var b := FindCached(dev, blockno);
      if b != null {
        b.refcnt := b.refcnt + 1;
        return b;
      }
      b := FindUnused();
      if b != null {
        Rekey(b, dev, blockno);
      }
      r := b;
    }
  }
}
