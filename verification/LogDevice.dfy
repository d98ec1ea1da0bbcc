/**
 log.c as written: the in-memory header, and the loops that fill the log, write
 and read the header block, and copy log slots home.  `trace` records the disk
 after every block write, so a contract about the trace is a contract about
 every point at which the machine can crash.
 */
module LogDevice {
  import opened Common
  import opened Bytes
  import opened LogProtocol

  // Every disk in `ds` replays to `h`.
  ghost predicate AllRecoverTo(l: Layout, ds: seq<Disk>, h: Disk) {
    forall i :: 0 <= i < |ds| ==> GoodLayout(l, ds[i]) && GoodHeader(l, ds[i]) && RecoversTo(l, ds[i], h)
  }

  // The block map once the transaction `lh`, cached in `cache`, is applied to `home`.
  ghost predicate Applies(l: Layout, home: Disk, lh: seq<nat>, cache: map<nat, Block>, h: Disk) {
    && |h| == |home|
    && (forall b: nat :: Home(l, home, b) && b !in lh ==> h[b] == home[b])
    && (forall j :: 0 <= j < |lh| ==> lh[j] in cache && lh[j] < |h| && h[lh[j]] == cache[lh[j]])
  }

  lemma JoinRecover(l: Layout, a: seq<Disk>, b: seq<Disk>, h: Disk)
    requires AllRecoverTo(l, a, h) && AllRecoverTo(l, b, h)
    ensures AllRecoverTo(l, a + b, h)
  {
  }

  // Copying one log slot home changes nothing about what the disk stands for.
  lemma InstallOne(l: Layout, d: Disk, h: Disk, t: nat)
    requires GoodLayout(l, d) && GoodHeader(l, d) && RecoversTo(l, d, h) && t < |Header(d[l.start])|
    ensures var k := Header(d[l.start])[t];
      var d' := d[k := d[l.start + 1 + t]];
      && d'[l.start] == d[l.start] && GoodHeader(l, d') && RecoversTo(l, d', h) && d'[k] == h[k]
  {
    var hdr := Header(d[l.start]);
    assert Home(l, d, hdr[t]);
  }

  lemma AllInstalled(l: Layout, d: Disk, h: Disk)
    requires GoodLayout(l, d) && GoodHeader(l, d) && RecoversTo(l, d, h)
    requires var hdr := Header(d[l.start]); forall j :: 0 <= j < |hdr| ==> d[hdr[j]] == h[hdr[j]]
    ensures SameHome(l, d, h)
  {
  }

  lemma Unpin(cache: map<nat, Block>, hdr: seq<nat>, t: nat)
    requires t < |hdr|
    ensures cache - Elems(hdr[..t]) - {hdr[t]} == cache - Elems(hdr[..t + 1])
  {
    assert hdr[..t + 1] == hdr[..t] + [hdr[t]];
  }

  // Writing the header of a fully copied transaction commits it.
  lemma CommitPoint(l: Layout, d: Disk, home: Disk, lh: seq<nat>, cache: map<nat, Block>, h: Disk, head: Block)
    requires GoodLayout(l, d) && GoodHeader(l, d) && Header(d[l.start]) == [] && RecoversTo(l, d, home)
    requires GoodList(l, d, lh) && Encodable(lh) && Applies(l, home, lh, cache, h)
    requires forall j :: 0 <= j < |lh| ==> d[l.start + 1 + j] == cache[lh[j]]
    ensures var d' := d[l.start := PutHeader(head, lh)];
      GoodHeader(l, d') && Header(d'[l.start]) == lh && RecoversTo(l, d', h)
  {
    HeaderRoundTrip(head, lh);
  }

  // Erasing the header of a fully installed transaction keeps it.
  lemma ErasePoint(l: Layout, d: Disk, h: Disk, head: Block)
    requires GoodLayout(l, d) && SameHome(l, d, h)
    ensures var d' := d[l.start := PutHeader(head, [])];
      GoodHeader(l, d') && Header(d'[l.start]) == [] && RecoversTo(l, d', h) && SameHome(l, d', h)
  {
    HeaderRoundTrip(head, []);
  }

  // A further disk that recovers to the same contents.
  lemma OneMore(l: Layout, k: nat, before: seq<Disk>, trace: seq<Disk>, d: Disk, home: Disk)
    requires k <= |before| && trace == before + [d] && AllRecoverTo(l, before[k..], home) && AllRecoverTo(l, [d], home)
    ensures AllRecoverTo(l, trace[k..], home)
  {
    JoinRecover(l, before[k..], [d], home);
    assert trace[k..] == before[k..] + [d];
  }

  class Log {
    const l: Layout
    var disk: Disk
    var n: nat                   // log.lh.n
    var block: array<nat>        // log.lh.block
    var cache: map<nat, Block>   // buffers pinned by log_write
    ghost var trace: seq<Disk>

    ghost predicate Valid()
      reads this, block
    {
      && GoodLayout(l, disk) && GoodHeader(l, disk)
      && block.Length == LOGSIZE && n <= LOGSIZE && GoodList(l, disk, block[..n])
      && forall i :: 0 <= i < n ==> block[i] in cache
    }

    // bread: the pinned buffer if there is one, the disk otherwise.
    function Bread(b: nat): Block
      requires b < |disk|
      reads this
    {
      if b in cache then cache[b] else disk[b]
    }

    method Bwrite(b: nat, data: Block)
      requires b < |disk|
      modifies this`disk, this`trace
      ensures disk == old(disk)[b := data] && trace == old(trace) + [disk]
    {
      disk := disk[b := data];
      trace := trace + [disk];
    }

    // Returns false where the kernel panics.
    method LogWrite(b: nat, data: Block, outstanding: nat) returns (ok: bool)
      requires Valid() && Home(l, disk, b)
      modifies this`n, this`cache, block
      ensures Valid()
      ensures ok <==> !LogWritePanics(l, old(n), outstanding)
      ensures ok ==> cache == old(cache)[b := data]
      ensures ok ==> block[..n] == if b in old(block[..n]) then old(block[..n]) else old(block[..n]) + [b]
      ensures !ok ==> n == old(n) && block[..] == old(block[..]) && cache == old(cache)
    {
      if n >= LOGSIZE || n >= l.nlog - 1 || outstanding < 1 {
        return false;
      }
      var i := 0;
      while i < n && block[i] != b
        invariant 0 <= i <= n
        invariant b !in block[..i]
      {
        i := i + 1;
      }
      ghost var was := block[..n];
      block[i] := b;
      cache := cache[b := data];
      if i == n {
        n := n + 1;
        assert block[..n] == was + [b];
      } else {
        assert was[i] == b;
        assert block[..n] == was;
      }
      ok := true;
    }

    // Copies the pinned blocks into the log slots: the committed state is untouched throughout.
    method WriteLog(ghost home: Disk)
      requires Valid() && Header(disk[l.start]) == [] && RecoversTo(l, disk, home)
      modifies this`disk, this`trace
      ensures Valid() && disk[l.start] == old(disk[l.start]) && SameHome(l, old(disk), disk)
      ensures forall j :: 0 <= j < n ==> disk[l.start + 1 + j] == cache[block[j]]
      ensures old(trace) <= trace && AllRecoverTo(l, trace[|old(trace)|..], home)
    {
      var tail := 0;
      while tail < n
        invariant 0 <= tail <= n && GoodLayout(l, disk)
        invariant disk[l.start] == old(disk[l.start]) && SameHome(l, old(disk), disk)
        invariant forall j :: 0 <= j < tail ==> disk[l.start + 1 + j] == cache[block[j]]
        invariant old(trace) <= trace && AllRecoverTo(l, trace[|old(trace)|..], home)
      {
        ghost var before := trace;
        Bwrite(l.start + tail + 1, Bread(block[tail]));
        assert trace[|old(trace)|..] == before[|old(trace)|..] + [disk];
        tail := tail + 1;
      }
    }

    method WriteHead()
      requires GoodLayout(l, disk) && block.Length == LOGSIZE && n <= LOGSIZE && Encodable(block[..n])
      requires l.start !in cache
      modifies this`disk, this`trace
      ensures disk == old(disk)[l.start := PutHeader(old(disk[l.start]), block[..n])]
      ensures trace == old(trace) + [disk]
    {
      var hb := PutWord(Bread(l.start), 0, n);
      var i := 0;
      while i < n
        invariant 0 <= i <= n
        invariant hb == PutEntries(PutWord(disk[l.start], 0, n), block[..n], i)
      {
        hb := PutWord(hb, 1 + i, block[i]);
        i := i + 1;
      }
      Bwrite(l.start, hb);
    }

    method ReadHead()
      requires GoodLayout(l, disk) && GoodHeader(l, disk) && block.Length == LOGSIZE && l.start !in cache
      modifies this`n, block
      ensures n <= LOGSIZE && block[..n] == Header(disk[l.start])
    {
      var lh := Bread(l.start);
      n := Word(lh, 0);
      var i := 0;
      while i < n
        invariant 0 <= i <= n <= LOGSIZE && n == |Header(lh)| && disk == old(disk)
        invariant forall j :: 0 <= j < i ==> block[j] == Header(lh)[j]
      {
        block[i] := Word(lh, 1 + i);
        i := i + 1;
      }
    }

    // One round of install_trans.
    method InstallBlock(tail: nat, recovering: bool, ghost home: Disk)
      requires GoodLayout(l, disk) && GoodHeader(l, disk) && RecoversTo(l, disk, home)
      requires block.Length == LOGSIZE && tail < n <= LOGSIZE && block[..n] == Header(disk[l.start])
      requires l.start + tail + 1 !in cache
      modifies this`disk, this`trace, this`cache
      ensures |disk| == |old(disk)| && disk[l.start] == old(disk[l.start])
      ensures GoodHeader(l, disk) && RecoversTo(l, disk, home)
      ensures disk == old(disk)[block[tail] := home[block[tail]]] && trace == old(trace) + [disk]
      ensures cache == if recovering then old(cache) else old(cache) - {block[tail]}
    {
      InstallOne(l, disk, home, tail);
      assert block[tail] == Header(disk[l.start])[tail];
      Bwrite(block[tail], Bread(l.start + tail + 1));
      if !recovering {
        cache := cache - {block[tail]};
      }
    }

    // The same, with what has been installed and written so far.
    method InstallNext(tail: nat, recovering: bool, ghost home: Disk, ghost hdr: seq<nat>,
                       ghost cache0: map<nat, Block>, ghost trace0: seq<Disk>)
      requires GoodLayout(l, disk) && GoodHeader(l, disk) && RecoversTo(l, disk, home)
      requires block.Length == LOGSIZE && tail < n <= LOGSIZE && block[..n] == Header(disk[l.start]) == hdr
      requires forall b :: b in cache0 ==> !InLog(l, b)
      requires cache == if recovering then cache0 else cache0 - Elems(hdr[..tail])
      requires trace0 <= trace && AllRecoverTo(l, trace[|trace0|..], home)
      modifies this`disk, this`trace, this`cache
      ensures |disk| == |old(disk)| && disk[l.start] == old(disk[l.start])
      ensures GoodHeader(l, disk) && RecoversTo(l, disk, home)
      ensures disk == old(disk)[hdr[tail] := home[hdr[tail]]]
      ensures cache == if recovering then cache0 else cache0 - Elems(hdr[..tail + 1])
      ensures trace0 <= trace && AllRecoverTo(l, trace[|trace0|..], home)
    {
      ghost var before := trace;
      InstallBlock(tail, recovering, home);
      OneMore(l, |trace0|, before, trace, disk, home);
      Unpin(cache0, hdr, tail);
    }

    // Copies log slots to their home blocks; a commit also unpins their buffers.  In
    // either use every intermediate disk stands for the same home contents.
    method InstallTrans(recovering: bool, ghost home: Disk)
      requires GoodLayout(l, disk) && GoodHeader(l, disk) && RecoversTo(l, disk, home)
      requires block.Length == LOGSIZE && n <= LOGSIZE && block[..n] == Header(disk[l.start])
      requires forall b :: b in cache ==> !InLog(l, b)
      modifies this`disk, this`trace, this`cache
      ensures |disk| == |old(disk)| && disk[l.start] == old(disk[l.start]) && SameHome(l, disk, home)
      ensures cache == if recovering then old(cache) else old(cache) - Elems(block[..n])
      ensures old(trace) <= trace && AllRecoverTo(l, trace[|old(trace)|..], home)
    {
      ghost var hdr := block[..n];
      var tail := 0;
      while tail < n
        invariant 0 <= tail <= n && |disk| == |old(disk)| && disk[l.start] == old(disk[l.start])
        invariant hdr == block[..n]
        invariant GoodHeader(l, disk) && RecoversTo(l, disk, home)
        invariant forall j :: 0 <= j < tail ==> disk[hdr[j]] == home[hdr[j]]
        invariant cache == if recovering then old(cache) else old(cache) - Elems(hdr[..tail])
        invariant old(trace) <= trace && AllRecoverTo(l, trace[|old(trace)|..], home)
      {
        InstallNext(tail, recovering, home, hdr, old(cache), old(trace));
        tail := tail + 1;
      }
      assert hdr[..n] == hdr;
      AllInstalled(l, disk, home);
    }

    // The first half of commit(), up to and including the header write.
    method Publish(ghost home: Disk, ghost h: Disk) returns (ghost k: nat)
      requires Valid() && Header(disk[l.start]) == [] && RecoversTo(l, disk, home)
      requires Applies(l, home, block[..n], cache, h) && l.start !in cache
      modifies this`disk, this`trace
      ensures |disk| == |old(disk)| && GoodHeader(l, disk) && Header(disk[l.start]) == block[..n]
      ensures RecoversTo(l, disk, h)
      ensures old(trace) <= trace && |old(trace)| <= k < |trace| && trace == trace[..k] + [disk]
      ensures AllRecoverTo(l, trace[|old(trace)|..k], home)
    {
      WriteLog(home);
      k := |trace|;
      ghost var t0 := trace;
      CommitPoint(l, disk, home, block[..n], cache, h, disk[l.start]);
      WriteHead();
      assert trace[|old(trace)|..k] == t0[|old(trace)|..];
    }

    /**
     commit(): the writes split at the header write.  A crash before it replays to
     the old contents, a crash after it to the whole transaction, and on return
     the transaction is in place and the log is empty.
     */
    method Commit(ghost home: Disk, ghost h: Disk) returns (ghost k: nat)
      requires Valid() && Header(disk[l.start]) == [] && RecoversTo(l, disk, home)
      requires Applies(l, home, block[..n], cache, h)
      requires cache.Keys == Elems(block[..n])
      modifies this`disk, this`trace, this`cache, this`n
      ensures GoodLayout(l, disk) && GoodHeader(l, disk) && Header(disk[l.start]) == []
      ensures n == 0 && cache == map[] && SameHome(l, disk, h)
      ensures old(trace) <= trace && |old(trace)| <= k <= |trace|
      ensures AllRecoverTo(l, trace[|old(trace)|..k], home) && AllRecoverTo(l, trace[k..], h)
    {
      k := |trace|;
      if n > 0 {
        k := Publish(home, h);
        ghost var t1 := trace;
        Settle(h);
        assert trace[k..] == [t1[k]] + trace[|t1|..];
        JoinRecover(l, [t1[k]], trace[|t1|..], h);
        assert trace[|old(trace)|..k] == t1[|old(trace)|..k];
      } else {
        assert forall b: nat :: Home(l, disk, b) ==> disk[b] == h[b];
      }
    }

    // The second half of commit(), after the header write.
    method Settle(ghost h: Disk)
      requires GoodLayout(l, disk) && GoodHeader(l, disk) && RecoversTo(l, disk, h)
      requires block.Length == LOGSIZE && n <= LOGSIZE && block[..n] == Header(disk[l.start])
      requires cache.Keys == Elems(block[..n])
      modifies this`disk, this`trace, this`cache, this`n
      ensures GoodLayout(l, disk) && GoodHeader(l, disk) && Header(disk[l.start]) == []
      ensures n == 0 && cache == map[] && SameHome(l, disk, h)
      ensures old(trace) <= trace && AllRecoverTo(l, trace[|old(trace)|..], h)
    {
      InstallTrans(false, h);
      ghost var t := trace;
      EraseHead(h);
      assert trace[|old(trace)|..] == t[|old(trace)|..] + [disk];
      JoinRecover(l, t[|old(trace)|..], [disk], h);
    }

    // log.lh.n = 0, then write_head: erase an installed transaction.
    method EraseHead(ghost h: Disk)
      requires GoodLayout(l, disk) && SameHome(l, disk, h) && block.Length == LOGSIZE && l.start !in cache
      modifies this`disk, this`trace, this`n
      ensures GoodLayout(l, disk) && GoodHeader(l, disk) && Header(disk[l.start]) == []
      ensures n == 0 && SameHome(l, disk, h)
      ensures trace == old(trace) + [disk] && RecoversTo(l, disk, h)
    {
      n := 0;
      ErasePoint(l, disk, h, disk[l.start]);
      assert block[..n] == [];
      WriteHead();
    }

    /**
     recover_from_log(): whatever home contents the log on disk stands for, every
     intermediate disk stands for them too -- so a crash during recovery is harmless --
     and on return they are in place and the log is empty.
     */
    method RecoverFromLog(ghost home: Disk)
      requires GoodLayout(l, disk) && GoodHeader(l, disk) && RecoversTo(l, disk, home)
      requires block.Length == LOGSIZE && cache == map[]
      modifies this`disk, this`trace, this`cache, this`n, block
      ensures GoodLayout(l, disk) && GoodHeader(l, disk) && Header(disk[l.start]) == []
      ensures n == 0 && cache == map[] && SameHome(l, disk, home)
      ensures old(trace) <= trace && AllRecoverTo(l, trace[|old(trace)|..], home)
    {
      ReadHead();
      InstallTrans(true, home);
      ghost var t := trace;
      EraseHead(home);
      assert trace[|old(trace)|..] == t[|old(trace)|..] + [disk];
    }
  }
}
