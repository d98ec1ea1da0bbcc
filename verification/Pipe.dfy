/**
 pipe.c: a ring of PIPESIZE bytes between readers and writers.  pi->lock makes
 each stretch from acquiring it to sleeping or returning one step, so every
 interleaving is a sequence of the segments below, in any order and by any
 process; the ghost history records all bytes put on the ring so far, and how
 many have been taken off.
 */
module Pipe {
  import opened Bytes

  const PIPESIZE: nat := 512
  const WRAP: nat := 0x1_0000_0000    // nread and nwrite are 32 bits wide

  // A segment ends with the process asleep after `i` bytes, or with a result.
  datatype Outcome = Asleep(i: nat) | Returned(result: int)

  class Ring {
    var data: array<byte>
    var nread: nat
    var nwrite: nat
    var readopen: bool
    var writeopen: bool
    ghost var put: seq<byte>
    ghost var taken: nat

    ghost predicate Valid()
      reads this, data
    {
      && data.Length == PIPESIZE
      && nwrite == |put| % WRAP && nread == taken % WRAP
      && taken <= |put| <= taken + PIPESIZE
      && forall k :: taken <= k < |put| ==> data[k % PIPESIZE] == put[k]
    }

    ghost function History(): Past
      reads this
    {
      Past(put, taken, readopen, writeopen)
    }

    // pipealloc
    constructor ()
      ensures Valid() && fresh(data) && History() == Past([], 0, true, true)
    {
      data := new byte[PIPESIZE](_ => 0);
      nread, nwrite, readopen, writeopen, put, taken := 0, 0, true, true, [], 0;
    }

    // pipeclose; true when the pipe is to be freed.
    method Close(writable: bool) returns (gone: bool)
      requires Valid()
      modifies this`readopen, this`writeopen
      ensures Valid() && put == old(put) && taken == old(taken)
      ensures writeopen == (old(writeopen) && !writable) && readopen == (old(readopen) && writable)
      ensures Happens(old(History()), CloseEnd(writable), History())
      ensures gone <==> !readopen && !writeopen
    {
      if writable {
        writeopen := false;
      } else {
        readopen := false;
      }
      gone := !readopen && !writeopen;
    }

    // nwrite == nread + PIPESIZE, in 32 bits: the ring is full exactly then.
    method Full() returns (full: bool)
      requires Valid()
      ensures full <==> |put| == taken + PIPESIZE
    {
      full := nwrite == (nread + PIPESIZE) % WRAP;
      FullIff(taken, |put|);
    }

    method PutByte(ch: byte)
      requires Valid() && |put| < taken + PIPESIZE
      modifies this`nwrite, this`put, data
      ensures Valid() && put == old(put) + [ch] && data == old(data)
    {
      ghost var n := |put|;
      Slot(n);
      forall k | taken <= k < n ensures k % PIPESIZE != n % PIPESIZE { SlotsApart(k, n); }
      data[nwrite % PIPESIZE] := ch;
      nwrite := (nwrite + 1) % WRAP;
      put := put + [ch];
    }

    method TakeByte() returns (ch: byte)
      requires Valid() && taken < |put|
      modifies this`nread, this`taken
      ensures Valid() && taken == old(taken) + 1 && ch == put[old(taken)]
    {
      Slot(taken);
      ch := data[nread % PIPESIZE];
      nread := (nread + 1) % WRAP;
      taken := taken + 1;
    }

    /**
     One segment of pipewrite, resumed with `start` bytes of `src` written.  The
     process is seen killed once `mortal` bytes are written, and copying the byte
     at `readable` faults.  Whatever happens, the bytes written are the next ones
     of `src`, in order, at the end of the history.
     */
    method WriteSegment(src: seq<byte>, start: nat, mortal: nat, readable: nat) returns (out: Outcome, ghost i: nat)
      requires Valid() && start <= |src|
      modifies this`nwrite, this`put, data
      ensures Valid() && data == old(data) && start <= i <= |src| && put == old(put) + src[start..i]
      ensures Happens(old(History()), Put(src[start..i]), History())
      ensures out.Asleep? ==> out.i == i < |src| && |put| == taken + PIPESIZE && readopen
      ensures out.Returned? && out.result >= 0 ==> out.result == i && (i == |src| || i >= readable)
      ensures out.Returned? && out.result < 0 ==> out.result == -1 && i < |src| && (!readopen || i >= mortal)
    {
      i := start;
      var j := start;
      assert put + src[start..start] == put;
      while j < |src|
        invariant start <= j <= |src| && i == j && Valid() && data == old(data) && put == old(put) + src[start..j]
        invariant j > start ==> readopen
      {
        if !readopen || j >= mortal {
          return Returned(-1), i;
        }
        var full := Full();
        if full {
          return Asleep(j), i;
        }
        if j >= readable {
          break;
        }
        PutByte(src[j]);
        assert src[start..j + 1] == src[start..j] + [src[j]];
        j := j + 1;
        i := j;
      }
      out := Returned(j);
    }

    /**
     One segment of piperead for `n` bytes.  Copying out the byte at `writable`
     faults, after it was taken.  The bytes taken are the oldest on the ring, in
     order; a read of n > 0 bytes that returns 0 without a fault found the ring
     empty and the write end closed.
     */
    method ReadSegment(n: nat, killed: bool, writable: nat) returns (out: Outcome, got: seq<byte>)
      requires Valid()
      modifies this`nread, this`taken
      ensures Valid() && old(taken) <= taken <= |put| && taken <= old(taken) + n
      ensures Happens(old(History()), Take(put[old(taken)..taken]), History())
      ensures out.Asleep? ==> taken == old(taken) == |put| && writeopen && !killed
      ensures out.Returned? && out.result < 0 ==>
        out.result == -1 && taken == old(taken) == |put| && writeopen && killed
      ensures out.Returned? && out.result >= 0 ==> out.result == |got| <= taken - old(taken) <= |got| + 1
      ensures out.Returned? && out.result >= 0 ==> got == put[old(taken)..old(taken) + |got|]
      ensures out.Returned? && out.result >= 0 ==>
        (taken - old(taken) == |got| + 1 <==> |got| == writable && writable < n && old(taken) + writable < |put|)
      ensures out.Returned? && 0 <= out.result < n && out.result != writable ==> taken == |put|
      ensures out == Returned(0) && n > 0 && writable > 0 ==> old(taken) == |put| && !writeopen
    {
      got := [];
      EmptyIff(taken, |put|);
      if nread == nwrite && writeopen {
        out := if killed then Returned(-1) else Asleep(0);
        return;
      }
      var i := 0;
      while i < n
        invariant 0 <= i <= n && Valid() && taken == old(taken) + i && |got| == i <= writable
        invariant got == put[old(taken)..taken]
      {
        EmptyIff(taken, |put|);
        if nread == nwrite {
          break;
        }
        var ch := TakeByte();
        if i >= writable {
          break;
        }
        got := got + [ch];
        i := i + 1;
      }
      out := Returned(i);
    }
  }

  // ----- 32-bit counters -----

  lemma Slot(n: nat)
    ensures n % WRAP % PIPESIZE == n % PIPESIZE
    ensures (n % WRAP + 1) % WRAP == (n + 1) % WRAP
  {
    var m := n / WRAP;
    assert n == n % WRAP + PIPESIZE * (0x80_0000 * m);
    Shift(n % WRAP, 0x80_0000 * m);
  }

  lemma Shift(y: nat, z: nat)
    ensures (y + PIPESIZE * z) % PIPESIZE == y % PIPESIZE
  {
  }

  lemma SlotsApart(k: nat, n: nat)
    requires k < n < k + PIPESIZE
    ensures k % PIPESIZE != n % PIPESIZE
  {
  }

  // Equal 32-bit counters mean an empty ring, across wrap-around.
  lemma EmptyIff(taken: nat, n: nat)
    requires taken <= n <= taken + PIPESIZE
    ensures taken % WRAP == n % WRAP <==> taken == n
  {
  }

  lemma FullIff(taken: nat, n: nat)
    requires taken <= n <= taken + PIPESIZE
    ensures n % WRAP == (taken % WRAP + PIPESIZE) % WRAP <==> n == taken + PIPESIZE
  {
  }

  // ----- every interleaving -----

  // What a segment leaves in the history: bytes put on, bytes taken off, or an end closed.
  datatype Event = Put(bytes: seq<byte>) | Take(bytes: seq<byte>) | CloseEnd(writable: bool)

  // The history between segments; what Ring's contracts say of put, taken and the two ends.
  datatype Past = Past(put: seq<byte>, taken: nat, readopen: bool, writeopen: bool)

  ghost predicate Sound(h: Past) {
    h.taken <= |h.put| <= h.taken + PIPESIZE
  }

  // A writer puts bytes on only while the ring is not full and the read end open; a reader takes only what is there.
  ghost predicate Happens(h: Past, e: Event, h': Past) {
    match e
    case Put(bytes) => h' == h.(put := h.put + bytes) &&
      (bytes != [] ==> h.readopen && |h.put| + |bytes| <= h.taken + PIPESIZE)
    case Take(bytes) => h.taken + |bytes| <= |h.put| && h' == h.(taken := h.taken + |bytes|) &&
      bytes == h.put[h.taken..h'.taken]
    case CloseEnd(writable) => h' == if writable then h.(writeopen := false) else h.(readopen := false)
  }

  ghost predicate Follows(hs: seq<Past>, es: seq<Event>) {
    |hs| == |es| + 1 && hs[0] == Past([], 0, true, true) && forall i :: 0 <= i < |es| ==> HappensAt(hs, es, i)
  }

  ghost predicate HappensAt(hs: seq<Past>, es: seq<Event>, i: nat)
    requires i < |es| && |hs| == |es| + 1
  {
    Happens(hs[i], es[i], hs[i + 1])
  }

  function AllPut(es: seq<Event>): seq<byte> {
    if es == [] then [] else AllPut(es[..|es| - 1]) + (if es[|es| - 1].Put? then es[|es| - 1].bytes else [])
  }

  function AllTaken(es: seq<Event>): seq<byte> {
    if es == [] then [] else AllTaken(es[..|es| - 1]) + (if es[|es| - 1].Take? then es[|es| - 1].bytes else [])
  }

  lemma {:induction false} PastIs(hs: seq<Past>, es: seq<Event>)
    requires Follows(hs, es)
    ensures Sound(hs[|es|]) && hs[|es|].put == AllPut(es) && hs[|es|].put[..hs[|es|].taken] == AllTaken(es)
    decreases |es|
  {
    var n := |es|;
    if n > 0 {
      var before := es[..n - 1];
      forall i | 0 <= i < n - 1 ensures HappensAt(hs[..n], before, i) { assert HappensAt(hs, es, i); }
      PastIs(hs[..n], before);
      assert HappensAt(hs, es, n - 1);
      var h, h' := hs[n - 1], hs[n];
      assert h'.put[..h.taken] == h.put[..h.taken];
      assert h'.put[..h'.taken] == h'.put[..h.taken] + h'.put[h.taken..h'.taken];
    }
  }

  /** FIFO: in every interleaving the bytes taken off are a prefix of the bytes put on, at most PIPESIZE behind. */
  lemma Fifo(hs: seq<Past>, es: seq<Event>)
    requires Follows(hs, es)
    ensures AllTaken(es) <= AllPut(es) && |AllPut(es)| <= |AllTaken(es)| + PIPESIZE
  {
    PastIs(hs, es);
  }
}
