/** virtio_disk.c's driver as it works in place, each operation proved to be a step of the queue machine. */
module VirtioDisk {
  import opened Common
  import opened Bytes
  import opened VirtioQueue
  import opened VirtioSafety
  import opened VirtioRuns

  class Disk {
    var free: seq<bool>
    var desc: seq<Desc>
    var ops: seq<Op>
    var bufs: seq<Option<nat>>
    var status: seq<nat>
    var ring: seq<nat>
    var avail: nat
    var used: seq<nat>
    var usedIdx: nat
    var seen: nat
    var flagged: set<nat>

    ghost function T(): Table
      reads this
    {
      Table(free, desc, ops, bufs)
    }

    ghost function Q(): Queue
      reads this
    {
      Queue(T(), status, ring, avail, used, usedIdx, seen, flagged)
    }

    // alloc_desc: the first free descriptor, now taken, or -1.
    method AllocDesc() returns (i: int)
      requires |free| == NUM
      modifies this`free
      ensures i < 0 ==> free == old(free) && forall n :: 0 <= n < NUM ==> !free[n]
      ensures i >= 0 ==> FirstFree(old(free), i) && free == old(free)[i := false]
    {
      i := 0;
      while i < NUM
        invariant 0 <= i <= NUM && free == old(free) && forall n :: 0 <= n < i ==> !free[n]
      {
        if free[i] {
          free := free[i := false];
          return;
        }
        i := i + 1;
      }
      i := -1;
    }

    // free_desc; false where the kernel panics.
    method FreeDesc(i: nat) returns (ok: bool)
      requires TableSized(T())
      modifies this`free, this`desc
      ensures ok <==> i < NUM && !old(free)[i]
      ensures ok ==> T() == Freed(old(T()), i)
      ensures !ok ==> T() == old(T())
    {
      if i >= NUM || free[i] {
        return false;
      }
      desc := desc[i := NO_DESC];
      free := free[i := true];
      ok := true;
    }

    /** free_chain: follows the chain of a request to its end; its frees never panic. */
    method FreeChain(h: nat, ghost r: Req)
      requires TableSized(T()) && ChainLinks(T(), h, r)
      modifies this`free, this`desc
      ensures T() == Freed(Freed(Freed(old(T()), h), r.mid), r.last)
    {
      var i := h;
      ghost var n := 0;
      ghost var t0 := T();
      while true
        invariant 0 <= n <= 2 && i == (if n == 0 then h else if n == 1 then r.mid else r.last)
        invariant T() == (if n == 0 then t0 else if n == 1 then Freed(t0, h) else Freed(Freed(t0, h), r.mid))
        decreases 2 - n
      {
        var flag, nxt := desc[i].flags, desc[i].next;
        var ok := FreeDesc(i);
        if flag % 2 == DESC_NEXT {
          i := nxt;
          n := n + 1;
        } else {
          break;
        }
      }
    }

    /**
     alloc3_desc: the first three free descriptors, or -1 with the table as it was;
     it fails exactly when fewer than three are free, and its frees never panic.
     */
    method Alloc3Desc(idx: array<int>) returns (r: int)
      requires TableSized(T()) && idx.Length == 3 && forall n :: 0 <= n < NUM && free[n] ==> desc[n] == NO_DESC
      modifies this`free, this`desc, idx
      ensures r == 0 || r == -1
      ensures r == 0 ==> idx[0] >= 0 && idx[1] >= 0 && idx[2] >= 0 && FirstThree(old(free), idx[0], idx[1], idx[2])
      ensures r == 0 ==> T() == old(T()).(free := Without(old(free), idx[..]))
      ensures r == -1 ==> T() == old(T()) && !exists i, j, k :: FirstThree(old(free), i, j, k)
    {
      ghost var f0, d0 := free, desc;
      assert free == Without(f0, []);
      var i := 0;
      while i < 3
        invariant 0 <= i <= 3 && desc == d0 && |f0| == NUM && free == Without(f0, idx[..i]) && Chosen(f0, idx[..i])
      {
        ghost var taken := idx[..i];
        idx[i] := AllocDesc();
        assert idx[..i] == taken && idx[..i + 1] == taken + [idx[i]];
        if idx[i] < 0 {
          NotThree(f0, taken);
          Rollback(idx, i, f0);
          return -1;
        }
        assert free == Without(f0, taken + [idx[i]]);
        ChosenNext(f0, taken, idx[i]);
        i := i + 1;
      }
      assert idx[..3] == idx[..] == [idx[0], idx[1], idx[2]];
      ChosenThree(f0, idx[0], idx[1], idx[2]);
      r := 0;
    }

    // The inner loop of alloc3_desc.
    method Rollback(idx: array<int>, i: nat, ghost f0: seq<bool>)
      requires TableSized(T()) && |f0| == NUM && i <= idx.Length && free == Without(f0, idx[..i])
      requires Chosen(f0, idx[..i])
      requires forall n :: 0 <= n < NUM && f0[n] ==> desc[n] == NO_DESC
      modifies this`free, this`desc
      ensures free == f0 && desc == old(desc)
    {
      ghost var d0 := desc;
      var j := 0;
      while j < i
        invariant 0 <= j <= i && TableSized(T()) && free == Without(f0, idx[j..i]) && desc == d0
      {
        assert idx[j] == idx[..i][j];
        var ok := FreeDesc(idx[j]);
        assert desc == d0;
        DropFirst(f0, idx[..i], j);
        assert idx[..i][j..] == idx[j..i] && idx[..i][j + 1..] == idx[j + 1..i];
        j := j + 1;
      }
      assert Without(f0, []) == f0 && idx[i..i] == [];
    }

    /**
     virtio_disk_rw up to the ring entry: with three descriptors free it posts the
     request, otherwise it goes to sleep with nothing changed.
     */
    method PostRequest(b: nat, blockno: nat, write: bool, ghost s: State) returns (ok: bool, h: nat, j: nat, k: nat)
      requires Q() == s.q && Inv(s) && NoneAt(s.stage, Posted) && forall g :: g in s.reqs ==> s.reqs[g].b != b
      modifies this
      ensures ok ==> var op := Op(write, 2 * blockno);
        Enabled(s, Post(h, j, k, b, op)) && Q() == AfterPost(s, h, j, k, b, op).q
      ensures ok ==> Follow(desc, h, NUM) == RequestFor(h, b, write)
      ensures ok ==> |ops| == |ring| == NUM && ops[h] == Op(write, 2 * blockno) && ring[avail % 8] == h
      ensures !ok ==> Q() == s.q && !exists i, j, k :: FirstThree(s.q.t.free, i, j, k)
    {
      forall n | 0 <= n < NUM && free[n] ensures desc[n] == NO_DESC { assert CoveredAt(s.q.t, s.reqs, n); }
      ghost var f0 := free;
      ok, h, j, k := TakeThree();
      var op := Op(write, blockno * (BSIZE / 512));
      if ok {
        Issue(h, j, k, b, op, f0);
      }
    }

    // The chain, the buffer's disk flag and the ring entry.
    method Issue(h: nat, j: nat, k: nat, b: nat, op: Op, ghost free0: seq<bool>)
      requires TableSized(T()) && |status| == NUM && |ring| == NUM && h < NUM && j < NUM && k < NUM && |free0| == NUM
      requires free == free0[h := false][j := false][k := false] && h != j && h != k && j != k
      modifies this`ops, this`desc, this`status, this`bufs, this`flagged, this`ring
      ensures T() == Formatted(old(T()).(free := free0), h, j, k, b, op) && status == old(status)[h := FRESH]
      ensures flagged == old(flagged) + {b} && ring == old(ring)[avail % NUM := h] && ops[h] == op
      ensures Follow(desc, h, NUM) == RequestFor(h, b, op.write)
    {
      Format(h, j, k, b, op, free0);
      flagged := flagged + {b};
      ring := ring[avail % NUM := h];
      FollowChain(T(), h, Req(b, op, 0, j, k));
    }

    // The three descriptors that alloc3_desc leaves in idx.
    method TakeThree() returns (ok: bool, h: nat, j: nat, k: nat)
      requires TableSized(T()) && forall n :: 0 <= n < NUM && free[n] ==> desc[n] == NO_DESC
      modifies this`free, this`desc
      ensures ok ==> FirstThree(old(free), h, j, k) && h < NUM && j < NUM && k < NUM && h != j && h != k && j != k
      ensures ok ==> T() == old(T()).(free := old(free)[h := false][j := false][k := false])
      ensures !ok ==> T() == old(T()) && !exists i, j, k :: FirstThree(old(free), i, j, k)
    {
      var idx := new int[3];
      var r := Alloc3Desc(idx);
      if r < 0 {
        return false, 0, 0, 0;
      }
      ok, h, j, k := true, idx[0], idx[1], idx[2];
      ThreeFree(old(free), h, j, k);
      assert idx[..] == [idx[0], idx[1], idx[2]];
      WithoutThree(old(free), h, j, k);
    }

    // The descriptors of a request, and its entry in info.
    method Format(i: nat, j: nat, k: nat, b: nat, op: Op, ghost free0: seq<bool>)
      requires TableSized(T()) && |status| == NUM && i < NUM && j < NUM && k < NUM && |free0| == NUM
      requires free == free0[i := false][j := false][k := false]
      modifies this`ops, this`desc, this`status, this`bufs
      ensures T() == Formatted(old(T()).(free := free0), i, j, k, b, op) && status == old(status)[i := FRESH]
    {
      ops := ops[i := op];
      desc := desc[i := Desc(OpOf(i), 16, DESC_NEXT, j)];
      desc := desc[j := Desc(DataOf(b), BSIZE, if op.write then DESC_NEXT else DESC_WRITE + DESC_NEXT, k)];
      status := status[i := FRESH];
      desc := desc[k := Desc(StatusOf(i), 1, DESC_WRITE, 0)];
      bufs := bufs[i := Some(b)];
    }

    // The available index moves on.
    method PublishRequest(h: nat, ghost s: State)
      requires Q() == s.q && Inv(s) && Enabled(s, Publish(h))
      modifies this`avail
      ensures Q() == AfterPublish(s, h).q && Inv(AfterPublish(s, h))
    {
      PublishKeepsInv(s, h);
      avail := (avail + 1) % WRAP;
    }

    /** virtio_disk_rw once its buffer's flag is down: the chain is freed, and free_desc does not panic. */
    method FinishRequest(h: nat, ghost s: State)
      requires Q() == s.q && Inv(s) && Enabled(s, Finish(h))
      modifies this
      ensures Q() == AfterFinish(s, h).q && Inv(AfterFinish(s, h))
    {
      FinishKeepsInv(s, h);
      assert GoodChain(s.q.t, h, s.reqs[h]);
      bufs := bufs[h := None];
      FreeChain(h, s.reqs[h]);
    }

    // One round of virtio_disk_intr; false where the kernel panics.
    method ReapOne(ghost s: State) returns (ok: bool)
      requires Q() == s.q && Inv(s) && Enabled(s, Reap)
      modifies this`flagged, this`seen
      ensures Reaped(s) < NUM && (ok <==> s.q.status[Reaped(s)] == 0)
      ensures ok ==> Q() == AfterReap(s).q && Inv(AfterReap(s))
    {
      ReapClearsItsBuffer(s);
      HeadsBelow(s);
      ReapKeepsInv(s);
      var id := used[seen % NUM];
      assert GoodChain(s.q.t, id, s.reqs[id]);
      if status[id] != 0 {
        return false;
      }
      flagged := flagged - {bufs[id].value};
      seen := (seen + 1) % WRAP;
      ok := true;
    }

    /**
     virtio_disk_intr, for a used index that does not move meanwhile: unless it
     panics, it clears the flag of every completed buffer and of no other.
     */
    method Intr(ghost s: State) returns (ok: bool, ghost s': State)
      requires Q() == s.q && Inv(s) && NoneAt(s.stage, Posted)
      modifies this`flagged, this`seen
      ensures ok ==> Q() == s'.q && Inv(s') && s'.unseen == [] && s'.reqs == s.reqs
      ensures ok ==> FlagsAfter(s, flagged, |s.unseen|)
      ensures !ok ==> exists h :: h in s.unseen && h < NUM && s.q.status[h] != 0
    {
      s', ok := s, true;
      ghost var n := 0;
      while seen != usedIdx
        invariant Q() == s'.q && Progress(s, s', n)
        decreases |s'.unseen|
      {
        ProgressNext(s, s', n);
        ok := ReapOne(s');
        if !ok {
          return;
        }
        s' := AfterReap(s');
        n := n + 1;
      }
      EmptyUnseen(s');
    }
  }

  // Three descriptors in use, linked through next and flags.
  ghost predicate ChainLinks(t: Table, h: nat, r: Req) {
    && TableSized(t) && h < NUM && r.mid < NUM && r.last < NUM && h != r.mid && h != r.last && r.mid != r.last
    && !t.free[h] && !t.free[r.mid] && !t.free[r.last]
    && t.desc[h].flags % 2 == 1 && t.desc[h].next == r.mid
    && t.desc[r.mid].flags % 2 == 1 && t.desc[r.mid].next == r.last && t.desc[r.last].flags % 2 == 0
  }

  // `free` with the descriptors of `taken` in use.
  function Without(free: seq<bool>, taken: seq<int>): seq<bool> {
    seq(|free|, n requires 0 <= n < |free| => free[n] && n !in taken)
  }

  // `taken` are different and were free.
  ghost predicate Chosen(free: seq<bool>, taken: seq<int>) {
    && (forall k :: 0 <= k < |taken| ==> 0 <= taken[k] < |free| && FirstFree(Without(free, taken[..k]), taken[k]))
    && (forall k, l :: 0 <= k < l < |taken| ==> taken[k] != taken[l])
  }

  lemma ChosenNext(free: seq<bool>, taken: seq<int>, i: nat)
    requires Chosen(free, taken) && FirstFree(Without(free, taken), i)
    ensures Chosen(free, taken + [i])
  {
    var more := taken + [i];
    forall k | 0 <= k < |more| ensures 0 <= more[k] < |free| && FirstFree(Without(free, more[..k]), more[k]) {
      if k < |taken| { assert more[..k] == taken[..k]; } else { assert more[..k] == taken; }
    }
  }

  lemma ChosenThree(free: seq<bool>, i: nat, j: nat, k: nat)
    requires Chosen(free, [i, j, k])
    ensures FirstThree(free, i, j, k)
  {
    var t: seq<int> := [i, j, k];
    assert t[..0] == [] && t[..1] == [t[0]] && t[..2] == [t[0], t[1]];
    assert Without(free, []) == free;
    assert Without(free, [i]) == free[i := false];
    assert Without(free, [i, j]) == free[i := false][j := false];
  }

  // With one or two taken and none left, there were not three.
  lemma NotThree(free: seq<bool>, taken: seq<int>)
    requires Chosen(free, taken) && |taken| < 3 && |free| == NUM && forall n :: 0 <= n < NUM ==>
      !Without(free, taken)[n]
    ensures !exists i, j, k :: FirstThree(free, i, j, k)
  {
    forall n: nat | n < NUM && free[n] ensures n in taken { assert !Without(free, taken)[n]; }
    assert forall n :: n in taken ==> n == taken[0] || (|taken| == 2 && n == taken[1]);
    forall i: nat, j: nat, k: nat ensures !FirstThree(free, i, j, k) {
      if FirstThree(free, i, j, k) { ThreeFree(free, i, j, k); }
    }
  }

  lemma DropFirst(free: seq<bool>, taken: seq<int>, j: nat)
    requires Chosen(free, taken) && j < |taken|
    ensures !Without(free, taken[j..])[taken[j]]
    ensures Without(free, taken[j..])[taken[j] := true] == Without(free, taken[j + 1..])
  {
    var x := taken[j];
    assert FirstFree(Without(free, taken[..j]), x);
    assert taken[j..] == [x] + taken[j + 1..];
    assert x !in taken[j + 1..];
  }

  lemma WithoutThree(free: seq<bool>, i: nat, j: nat, k: nat)
    requires i < |free| && j < |free| && k < |free|
    ensures Without(free, [i, j, k]) == free[i := false][j := false][k := false]
  {
  }

  // Buffer `b` belongs to one of `heads`.
  ghost predicate ByOne(s: State, heads: seq<nat>, b: nat) {
    exists h :: h in heads && h in s.reqs && s.reqs[h].b == b
  }

  lemma ByOneMore(s: State, n: nat)
    requires n < |s.unseen| && s.unseen[n] in s.reqs
    ensures forall b :: ByOne(s, s.unseen[..n + 1], b) <==> ByOne(s, s.unseen[..n], b) || b == s.reqs[s.unseen[n]].b
  {
    assert s.unseen[..n + 1] == s.unseen[..n] + [s.unseen[n]];
    forall b ensures ByOne(s, s.unseen[..n + 1], b) <==> ByOne(s, s.unseen[..n], b) || b == s.reqs[s.unseen[n]].b {
      if ByOne(s, s.unseen[..n], b) {
        var h :| h in s.unseen[..n] && h in s.reqs && s.reqs[h].b == b;
        assert h in s.unseen[..n + 1];
      }
      if b == s.reqs[s.unseen[n]].b { assert s.unseen[n] in s.unseen[..n + 1]; }
    }
  }

  // `flagged` is what it was but for the buffers of the first `n` completions.
  ghost predicate FlagsAfter(s: State, flagged: set<nat>, n: nat) {
    n <= |s.unseen| && forall b :: b in flagged <==> b in s.q.flagged && !ByOne(s, s.unseen[..n], b)
  }

  lemma FlagsNext(s: State, flagged: set<nat>, n: nat)
    requires FlagsAfter(s, flagged, n) && n < |s.unseen| && s.unseen[n] in s.reqs
    ensures FlagsAfter(s, flagged - {s.reqs[s.unseen[n]].b}, n + 1)
  {
    ByOneMore(s, n);
  }

  // virtio_disk_intr has dealt with `n` entries.
  ghost predicate Progress(s: State, s': State, n: nat) {
    && Inv(s') && NoneAt(s'.stage, Posted) && s'.reqs == s.reqs && s'.q.status == s.q.status
    && FlagsAfter(s, s'.q.flagged, n) && s'.unseen == s.unseen[n..]
  }

  lemma ReapTakesFirst(s: State)
    requires Inv(s) && NoneAt(s.stage, Posted) && s.q.seen != s.q.usedIdx
    ensures |s.unseen| > 0 && Reaped(s) == s.unseen[0] && AfterReap(s).unseen == s.unseen[1..]
    ensures NoneAt(AfterReap(s).stage, Posted)
  {
    RingReads(s.q.used, s.q.seen, s.q.usedIdx, s.unseen, s.stage, Unseen, Writing, Done);
  }

  lemma ProgressNext(s: State, s1: State, n: nat)
    requires Progress(s, s1, n) && s1.q.seen != s1.q.usedIdx
    ensures Enabled(s1, Reap) && n < |s.unseen| && Reaped(s1) == s.unseen[n] && Progress(s, AfterReap(s1), n + 1)
  {
    ReapTakesFirst(s1);
    ReapClearsItsBuffer(s1);
    ReapKeepsInv(s1);
    FlagsNext(s, s1.q.flagged, n);
  }

  lemma EmptyUnseen(s: State)
    requires Inv(s) && s.q.seen == s.q.usedIdx
    ensures s.unseen == []
  {
    HeadsBelow(s);
    forall i | 0 <= i < |s.unseen| ensures s.unseen[i] < NUM { assert At(s.stage, s.unseen[i], Unseen); }
    Pigeons(s.unseen, NUM);
  }
}
