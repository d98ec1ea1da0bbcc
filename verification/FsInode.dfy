/**
 fs.c's block allocator and inode operations, over the block map that the log
 and the buffer cache provide.
 */
module FsInode {
  import opened Bytes
  import opened FsBitmap
  import opened FsOwnership
  import opened FsDinode
  import opened FsContent

  datatype Outcome = Wrote | NoSpace | Faulted

  class Fs {
    const g: Geometry
    var blocks: seq<Block>
    var inodes: seq<Inode>       // in-memory inodes
    var logged: set<nat>         // blocks given to log_write
    ghost var owner: map<nat, Slot>

    constructor (g: Geometry, blocks: seq<Block>, inodes: seq<Inode>, ghost owner: map<nat, Slot>)
      ensures this.g == g && this.blocks == blocks && this.inodes == inodes && this.owner == owner && logged == {}
    {
      this.g, this.blocks, this.inodes, this.owner, logged := g, blocks, inodes, owner, {};
    }

    function St(): Store
      reads this
    {
      Store(blocks, inodes)
    }

    // Block ownership, whether or not an inode is being changed.
    ghost predicate Owned()
      reads this
    {
      Owns(g, St(), owner, {})
    }

    // What holds between operations.
    ghost predicate Valid()
      reads this
    {
      Owned() && NoHoles(g, St()) && Synced(g, St())
    }

    // The lowest free block, marked used and zeroed; 0 if the bitmap is full.
    method Balloc() returns (r: nat)
      requires GoodGeometry(g) && |blocks| == g.size && Used(g, blocks, 0)
      modifies this`blocks, this`logged
      ensures r == 0 ==>
        blocks == old(blocks) && logged == old(logged) && forall b: nat :: b < g.size ==> Used(g, blocks, b)
      ensures r != 0 ==> r < g.size && !old(Used(g, blocks, r)) && forall b: nat :: b < r ==> old(Used(g, blocks, b))
      ensures r != 0 ==> Bblock(g, r) < g.size && blocks == old(SetUsed(g, blocks, r))[r := Zeroed()]
      ensures r != 0 ==> logged == old(logged) + {Bblock(g, r), r}
    {
      var b := 0;
      while b < g.size
        invariant b % BPB == 0 && blocks == old(blocks) && logged == old(logged)
        invariant forall c: nat :: c < b && c < g.size ==> Used(g, blocks, c)
      {
        var bi := ScanBits(b);
        if bi < BPB && b + bi < g.size {
          r := b + bi;
          MarkUsed(r);
          return;
        }
        b := b + BPB;
      }
      r := 0;
    }

    // The block's bit is set, and the block cleared.
    method MarkUsed(r: nat)
      requires GoodGeometry(g) && |blocks| == g.size && r < g.size
      modifies this`blocks, this`logged
      ensures Bblock(g, r) < g.size && blocks == old(SetUsed(g, blocks, r))[r := Zeroed()]
      ensures logged == old(logged) + {Bblock(g, r), r}
    {
      BblockIsMeta(g, r);
      blocks := SetUsed(g, blocks, r);
      logged := logged + {Bblock(g, r)};
      Bzero(r);
    }

    // balloc's inner loop: the first clear bit of the bitmap block for the blocks from `b` on.
    method ScanBits(b: nat) returns (bi: nat)
      requires GoodGeometry(g) && |blocks| == g.size && b < g.size && b % BPB == 0
      ensures bi <= BPB && forall c: nat :: b <= c < b + bi && c < g.size ==> Used(g, blocks, c)
      ensures bi < BPB && b + bi < g.size ==> !Used(g, blocks, b + bi)
    {
      BblockIsMeta(g, b);
      bi := 0;
      while bi < BPB && b + bi < g.size
        invariant 0 <= bi <= BPB
        invariant forall c: nat :: b <= c < b + bi && c < g.size ==> Used(g, blocks, c)
        decreases BPB - bi
      {
        BitOfBlock(g, b, bi);
        if !Bit(blocks[Bblock(g, b)], bi) {
          return;
        }
        bi := bi + 1;
      }
    }

    method Bzero(b: nat)
      requires b < |blocks|
      modifies this`blocks, this`logged
      ensures blocks == old(blocks)[b := Zeroed()] && logged == old(logged) + {b}
    {
      blocks := blocks[b := Zeroed()];
      logged := logged + {b};
    }

    // Returns false where the kernel panics with "freeing free block".
    method Bfree(b: nat) returns (ok: bool)
      requires GoodGeometry(g) && |blocks| == g.size && b < g.size
      modifies this`blocks, this`logged
      ensures ok <==> old(Used(g, blocks, b))
      ensures Bblock(g, b) < g.size
      ensures ok ==> blocks == old(SetFree(g, blocks, b)) && logged == old(logged) + {Bblock(g, b)}
      ensures !ok ==> blocks == old(blocks) && logged == old(logged)
    {
      BblockIsMeta(g, b);
      var bi := b % BPB;
      if !Bit(blocks[Bblock(g, b)], bi) {
        return false;
      }
      blocks := blocks[Bblock(g, b) := ClearBit(blocks[Bblock(g, b)], bi)];
      logged := logged + {Bblock(g, b)};
      ok := true;
    }

    // ip->addrs[i], allocating if necessary.
    method MapAddr(inum: nat, i: nat) returns (addr: nat)
      requires Owned() && inum < g.ninodes && i <= NDIRECT
      modifies this`blocks, this`inodes, this`owner, this`logged
      ensures Owned()
      ensures MapStep(g, old(St()), old(logged), St(), logged, inum,
                      if i < NDIRECT then Direct(inum, i) else Indirect(inum), addr)
    {
      ghost var st, lg := St(), logged;
      addr := inodes[inum].addrs[i];
      if addr == 0 {
        addr := Balloc();
        if addr != 0 {
          FillAddr(g, st, lg, owner, inum, i, addr);
          inodes := inodes[inum := inodes[inum].(addrs := inodes[inum].addrs[i := addr])];
          owner := owner[addr := if i < NDIRECT then Direct(inum, i) else Indirect(inum)];
          assert St() == PutAddr(Taken(g, st, addr), inum, i, addr);
        }
      }
    }

    // The word `j` of the indirect block, allocating if necessary.
    method MapListed(inum: nat, j: nat) returns (addr: nat)
      requires Owned() && inum < g.ninodes && j < NINDIRECT && inodes[inum].addrs[NDIRECT] != 0
      modifies this`blocks, this`owner, this`logged
      ensures Owned()
      ensures MapStep(g, old(St()), old(logged), St(), logged, inum, Listed(inum, j), addr)
    {
      ghost var st, lg := St(), logged;
      var ind := inodes[inum].addrs[NDIRECT];
      addr := Word(blocks[ind], j);
      if addr == 0 {
        addr := Balloc();
        if addr != 0 {
          FillListed(g, st, lg, owner, inum, j, addr);
          blocks := blocks[ind := PutWord(blocks[ind], j, addr)];
          logged := logged + {ind};
          owner := owner[addr := Listed(inum, j)];
          assert St() == PutListed(Taken(g, st, addr), inum, j, addr);
          assert logged == lg + {Bblock(g, addr), addr, ind};
        }
      }
    }

    /**
     bmap: the block of file `inum` holding its bn-th block, allocated if need be.
     Ownership holds whichever allocation fails, no mapped block of any file is
     disturbed, and a block that is already mapped costs no change at all.
     */
    method Bmap(inum: nat, bn: nat) returns (addr: nat)
      requires Owned() && inum < g.ninodes && bn < MAXFILE
      modifies this`blocks, this`inodes, this`owner, this`logged
      ensures Owned()
      ensures BmapStep(g, old(St()), old(logged), St(), logged, inum, bn, addr)
    {
      ghost var st, lg := St(), logged;
      if bn < NDIRECT {
        addr := MapAddr(inum, bn);
        DirectStep(g, st, lg, St(), logged, inum, bn, addr);
      } else {
        addr := BmapIndirect(inum, bn);
      }
    }

    // bmap's second half.
    method BmapIndirect(inum: nat, bn: nat) returns (addr: nat)
      requires Owned() && inum < g.ninodes && NDIRECT <= bn < MAXFILE
      modifies this`blocks, this`inodes, this`owner, this`logged
      ensures Owned()
      ensures BmapStep(g, old(St()), old(logged), St(), logged, inum, bn, addr)
    {
      ghost var st, lg := St(), logged;
      var ind := MapAddr(inum, NDIRECT);
      if ind == 0 {
        NoIndirectStep(g, st, lg, St(), logged, inum, bn);
        return 0;
      }
      addr := BmapListed(inum, bn, ind, st, lg);
    }

    // The rest of bmap, with the indirect block in hand.
    method BmapListed(inum: nat, bn: nat, ind: nat, ghost st: Store, ghost lg: set<nat>) returns (addr: nat)
      requires Owned() && inum < g.ninodes && NDIRECT <= bn < MAXFILE
      requires ind != 0 && MapStep(g, st, lg, St(), logged, inum, Indirect(inum), ind)
      modifies this`blocks, this`owner, this`logged
      ensures Owned()
      ensures BmapStep(g, st, lg, St(), logged, inum, bn, addr)
    {
      ghost var st1, lg1 := St(), logged;
      addr := MapListed(inum, bn - NDIRECT);
      ghost var st2, lg2 := St(), logged;
      ListedStep(g, st, lg, st1, lg1, ind, st2, lg2, inum, bn, addr);
    }

    /**
     readi: exactly the bytes of the file from `off` on, up to `n` of them or the
     end of the file.  The caller is outside any transaction, and indeed nothing
     is allocated or logged.  `room` is how many bytes can be stored before a
     copy faults.
     */
    method Readi(inum: nat, off: nat, n: nat, room: nat) returns (r: int, dst: seq<byte>)
      requires Valid() && inum < g.ninodes && off < 0x1_0000_0000 && n < 0x1_0000_0000
      modifies this`blocks, this`inodes, this`owner, this`logged
      ensures Valid() && St() == old(St()) && logged == old(logged)
      ensures var c := Content(g, St(), inum);
        && (off <= |c| && off + n < 0x1_0000_0000 ==>
          var k := if n <= |c| - off then n else |c| - off;
          if k > room then r == -1 else r == k && dst == c[off..off + k])
        && (off > |c| || off + n >= 0x1_0000_0000 ==> r == 0 && dst == [])
    {
      HoldsContent(g, St(), owner, inum);
      if off > inodes[inum].size || Wraps(off, n) {
        return 0, [];
      }
      var len := if off + n > inodes[inum].size then inodes[inum].size - off else n;
      r, dst := ReadLoop(inum, off, len, room, Content(g, St(), inum));
    }

    method ReadLoop(inum: nat, off: nat, len: nat, room: nat, ghost c: seq<byte>) returns (r: int, dst: seq<byte>)
      requires Owned() && Holds(g, St(), inum, c) && off + len <= |c|
      modifies this`blocks, this`inodes, this`owner, this`logged
      ensures Owned() && St() == old(St()) && logged == old(logged)
      ensures if len > room then r == -1 else r == len && dst == c[off..off + len]
    {
      dst := [];
      var tot := 0;
      while tot < len
        invariant 0 <= tot <= len && tot <= room && Owned() && St() == old(St()) && logged == old(logged)
        invariant dst == c[off..off + tot]
      {
        var at := off + tot;
        var m := ChunkSize(len - tot, at);
        var data := ReadChunk(inum, at, m, c);
        if tot + m > room {
          return -1, dst;
        }
        dst := dst + data;
        assert c[off..at + m] == c[off..at] + c[at..at + m];
        tot := tot + m;
      }
      r := tot;
    }

    // One round of readi's loop: bmap finds the block already mapped.
    method ReadChunk(inum: nat, at: nat, m: nat, ghost c: seq<byte>) returns (data: seq<byte>)
      requires Owned() && Holds(g, St(), inum, c) && 0 < m && at % BSIZE + m <= BSIZE && at + m <= |c|
      modifies this`blocks, this`inodes, this`owner, this`logged
      ensures Owned() && St() == old(St()) && logged == old(logged) && data == c[at..at + m]
    {
      ChunkRead(g, St(), inum, c, at, m);
      var addr := Bmap(inum, at / BSIZE);
      assert addr != 0;
      data := blocks[addr][at % BSIZE..at % BSIZE + m];
    }

    // iupdate: copy the in-memory inode to its disk block.
    method Iupdate(inum: nat)
      requires inum < |inodes| && Iblock(g, inum) < |blocks| && Storable(inodes[inum])
      modifies this`blocks, this`logged
      ensures St() == old(Updated(g, St(), inum)) && logged == old(logged) + {Iblock(g, inum)}
    {
      var ip, k := inodes[inum], inum % IPB;
      var b := PutWord(blocks[Iblock(g, inum)], DWORDS * k + 2, ip.size);
      ghost var start := b;
      var i := 0;
      while i < NDIRECT + 1
        invariant 0 <= i <= NDIRECT + 1 && b == PutWords(start, DWORDS * k + 3, ip.addrs, i)
      {
        b := PutWord(b, DWORDS * k + 3 + i, ip.addrs[i]);
        i := i + 1;
      }
      blocks := blocks[Iblock(g, inum) := b];
      logged := logged + {Iblock(g, inum)};
    }

    // One round of writei's loop, `tot` bytes into `src`; `st0` is the store writei started from.
    method WriteChunk(inum: nat, off: nat, src: seq<byte>, tot: nat, avail: nat, ghost c: seq<byte>, ghost st0: Store)
      returns (res: Outcome, m: nat, ghost addr: nat)
      requires Owned() && Holds(g, St(), inum, c) && OthersHold(g, st0, St(), inum)
      requires tot < |src| && off + tot <= |c| && off + |src| <= MAXFILE * BSIZE
      modifies this`blocks, this`inodes, this`owner, this`logged
      ensures Owned() && SameSizes(old(St()), St(), inum) && OthersHold(g, st0, St(), inum)
      ensures m == ChunkSize(|src| - tot, off + tot)
      ensures Holds(g, St(), inum, WithChunk(c, off + tot, src, tot, m, res == Wrote))
      ensures res == NoSpace ==> Full(g, St())
      ensures res == Faulted ==> tot + m > avail
      ensures LogStep(g, old(logged), logged, old(inodes[inum].addrs[NDIRECT]), inodes[inum].addrs[NDIRECT], addr)
      ensures Framed(g, old(blocks), old(logged), blocks, logged)
    {
      m := ChunkSize(|src| - tot, off + tot);
      res, addr := WriteAt(inum, off + tot, src[tot..tot + m], tot + m > avail, c, st0);
    }

    method WriteAt(inum: nat, at: nat, data: seq<byte>, fault: bool, ghost c: seq<byte>, ghost st0: Store)
      returns (res: Outcome, ghost addr: nat)
      requires Owned() && Holds(g, St(), inum, c) && OthersHold(g, st0, St(), inum)
      requires 0 < |data| && at % BSIZE + |data| <= BSIZE && at <= |c| && at + |data| <= MAXFILE * BSIZE
      modifies this`blocks, this`inodes, this`owner, this`logged
      ensures Owned() && SameSizes(old(St()), St(), inum) && OthersHold(g, st0, St(), inum)
      ensures res == Wrote ==> Holds(g, St(), inum, Splice(c, at, data))
      ensures res != Wrote ==> Holds(g, St(), inum, c)
      ensures res == NoSpace ==> Full(g, St())
      ensures res == Faulted ==> fault
      ensures LogStep(g, old(logged), logged, old(inodes[inum].addrs[NDIRECT]), inodes[inum].addrs[NDIRECT], addr)
      ensures Framed(g, old(blocks), old(logged), blocks, logged)
    {
      ghost var b0, lg, ind := blocks, logged, inodes[inum].addrs[NDIRECT];
      var a := MapForWrite(inum, at / BSIZE, c, st0);
      addr := a;
      if a == 0 {
        res := NoSpace;
      } else if fault {
        res := Faulted;
      } else {
        LogData(g, lg, logged, ind, inodes[inum].addrs[NDIRECT], a);
        ghost var b1, lg1 := blocks, logged;
        StoreChunk(inum, at, data, a, c, st0);
        FramedTrans(g, b0, lg, b1, lg1, blocks, logged);
        res := Wrote;
      }
    }

    // bmap, as writei uses it: file contents are as before.
    method MapForWrite(inum: nat, bn: nat, ghost c: seq<byte>, ghost st0: Store) returns (addr: nat)
      requires Owned() && Holds(g, St(), inum, c) && OthersHold(g, st0, St(), inum) && bn < MAXFILE
      modifies this`blocks, this`inodes, this`owner, this`logged
      ensures Owned() && SameSizes(old(St()), St(), inum) && OthersHold(g, st0, St(), inum) && Holds(g, St(), inum, c)
      ensures addr == BlockAt(g, St(), inum, bn)
      ensures addr == 0 ==> Full(g, St())
      ensures LogStep(g, old(logged), logged, old(inodes[inum].addrs[NDIRECT]), inodes[inum].addrs[NDIRECT], addr)
      ensures Framed(g, old(blocks), old(logged), blocks, logged)
    {
      ghost var st := St();
      addr := Bmap(inum, bn);
      ExtendsHolds(g, st, St(), inum, c);
      OthersExtend(g, st0, st, St(), inum);
    }

    // memmove into the mapped block, and log_write it.
    method StoreChunk(inum: nat, at: nat, data: seq<byte>, a: nat, ghost c: seq<byte>, ghost st0: Store)
      requires Owned() && Holds(g, St(), inum, c) && OthersHold(g, st0, St(), inum)
      requires 0 < |data| && at % BSIZE + |data| <= BSIZE && at <= |c| && at + |data| <= MAXFILE * BSIZE
      requires a == BlockAt(g, St(), inum, at / BSIZE) && a != 0
      modifies this`blocks, this`logged
      ensures Owned() && OthersHold(g, st0, St(), inum) && Holds(g, St(), inum, Splice(c, at, data))
      ensures logged == old(logged) + {a}
      ensures Framed(g, old(blocks), old(logged), blocks, logged)
    {
      ghost var st1 := St();
      assert IsSlot(g, SlotOf(inum, at / BSIZE));
      OneFramed(g, blocks, logged, a, SpliceBlock(blocks[a], at % BSIZE, data));
      ChunkWritten(g, st1, owner, inum, at, data, c);
      OthersChunk(g, st0, st1, owner, inum, at, data);
      blocks := blocks[a := SpliceBlock(blocks[a], at % BSIZE, data)];
      logged := logged + {a};
      assert St() == PutChunk(g, st1, inum, at, data);
    }

    // One round, in terms of what has been written so far.
    method WriteMore(inum: nat, off: nat, src: seq<byte>, tot: nat, avail: nat, ghost c: seq<byte>, ghost st0: Store)
      returns (res: Outcome, tot': nat, ghost addr: nat)
      requires Owned() && Progress(g, st0, St(), inum, c, off, src, tot) && tot < |src|
      modifies this`blocks, this`inodes, this`owner, this`logged
      ensures Owned() && Progress(g, st0, St(), inum, c, off, src, tot')
      ensures tot' == if res == Wrote then tot + ChunkSize(|src| - tot, off + tot) else tot
      ensures res == NoSpace ==> Full(g, St())
      ensures res == Faulted ==> avail < |src|
      ensures LogStep(g, old(logged), logged, old(inodes[inum].addrs[NDIRECT]), inodes[inum].addrs[NDIRECT], addr)
      ensures Framed(g, old(blocks), old(logged), blocks, logged)
    {
      ghost var st, so := St(), Splice(c, off, src[..tot]);
      var m;
      res, m, addr := WriteChunk(inum, off, src, tot, avail, so, st0);
      MoreProgress(g, st0, st, St(), inum, c, off, src, tot, m, res == Wrote);
      tot' := if res == Wrote then tot + m else tot;
    }

    // ... and of what has been logged.
    method WriteRound(inum: nat, off: nat, src: seq<byte>, tot: nat, avail: nat,
                      ghost c: seq<byte>, ghost st0: Store, ghost lg0: set<nat>, ghost used: set<nat>)
      returns (res: Outcome, tot': nat, ghost used': set<nat>)
      requires Owned() && Progress(g, st0, St(), inum, c, off, src, tot) && tot < |src|
      requires LogProgress(g, lg0, logged, inodes[inum].addrs[NDIRECT], used, Spanned(off, tot))
      modifies this`blocks, this`inodes, this`owner, this`logged
      ensures Owned() && Progress(g, st0, St(), inum, c, off, src, tot')
      ensures res == Wrote ==>
        tot < tot' && LogProgress(g, lg0, logged, inodes[inum].addrs[NDIRECT], used', Spanned(off, tot'))
      ensures LogProgress(g, lg0, logged, inodes[inum].addrs[NDIRECT], used', Spanned(off, |src|))
      ensures res == NoSpace ==> Full(g, St())
      ensures res == Faulted ==> avail < |src|
      ensures Framed(g, old(blocks), old(logged), blocks, logged)
    {
      ghost var lg, ind := logged, inodes[inum].addrs[NDIRECT];
      ghost var addr;
      SpanGrows(off, |src|, tot, ChunkSize(|src| - tot, off + tot));
      res, tot', addr := WriteMore(inum, off, src, tot, avail, c, st0);
      used' := used + ({addr} - {0});
      LogMore(g, lg0, lg, logged, ind, inodes[inum].addrs[NDIRECT], used, addr);
    }

    method WriteLoop(inum: nat, off: nat, src: seq<byte>, avail: nat, ghost c: seq<byte>)
      returns (tot: nat, ghost used: set<nat>)
      requires Owned() && Progress(g, St(), St(), inum, c, off, src, 0)
      modifies this`blocks, this`inodes, this`owner, this`logged
      ensures Owned() && Progress(g, old(St()), St(), inum, c, off, src, tot)
      ensures LogProgress(g, old(logged), logged, inodes[inum].addrs[NDIRECT], used, Spanned(off, |src|))
      ensures tot < |src| ==> Full(g, St()) || avail < |src|
      ensures Framed(g, old(blocks), old(logged), blocks, logged)
    {
      tot := 0;
      used := {};
      ghost var st0, lg0 := St(), logged;
      while tot < |src|
        invariant tot <= |src| && Owned() && Progress(g, st0, St(), inum, c, off, src, tot)
        invariant LogProgress(g, lg0, logged, inodes[inum].addrs[NDIRECT], used, Spanned(off, tot))
        invariant Framed(g, st0.blocks, lg0, blocks, logged)
        decreases |src| - tot
      {
        ghost var b1, lg1 := blocks, logged;
        var res, tot', used' := WriteRound(inum, off, src, tot, avail, c, st0, lg0, used);
        tot, used := tot', used';
        FramedTrans(g, st0.blocks, lg0, b1, lg1, blocks, logged);
        if res != Wrote {
          return;
        }
      }
    }

    // writei's loop, and how many blocks it and the iupdate to come will have logged.
    method WriteCounted(inum: nat, off: nat, src: seq<byte>, avail: nat, ghost c: seq<byte>) returns (tot: nat)
      requires Owned() && Progress(g, St(), St(), inum, c, off, src, 0)
      modifies this`blocks, this`inodes, this`owner, this`logged
      ensures Owned() && Progress(g, old(St()), St(), inum, c, off, src, tot)
      ensures |logged + {Iblock(g, inum)} - old(logged)| <= |BitmapBlocks(g)| + 2 + Spanned(off, |src|)
      ensures tot < |src| ==> Full(g, St()) || avail < |src|
      ensures Framed(g, old(blocks), old(logged), blocks, logged)
    {
      ghost var lg0 := logged;
      ghost var used;
      tot, used := WriteLoop(inum, off, src, avail, c);
      LogCount(g, lg0, logged, Iblock(g, inum), inodes[inum].addrs[NDIRECT], used, Spanned(off, |src|));
    }

    /**
     writei: -1 exactly when the range is out of bounds; otherwise the file's bytes
     from `off` on become the first `r` bytes of `src`, every other file keeps its
     content, and a short count means a full disk or a faulting copy.  `avail` is
     how many bytes of `src` can be read before a copy faults.
     */
    method Writei(inum: nat, off: nat, src: seq<byte>, avail: nat) returns (r: int)
      requires Valid() && inum < g.ninodes && off < 0x1_0000_0000 && |src| < 0x1_0000_0000
      modifies this`blocks, this`inodes, this`owner, this`logged
      ensures Valid() && -1 <= r <= |src|
      ensures Logged(old(blocks), old(logged), blocks, logged, g.inodestart)
      ensures r == -1 <==> off > old(inodes[inum].size) || off + |src| > MAXFILE * BSIZE
      ensures r == -1 ==> St() == old(St()) && logged == old(logged)
      ensures r >= 0 ==> Content(g, St(), inum) == Splice(old(Content(g, St(), inum)), off, src[..r])
      ensures forall m: nat :: m < g.ninodes && m != inum ==> Content(g, St(), m) == old(Content(g, St(), m))
      ensures 0 <= r < |src| ==> Full(g, St()) || avail < |src|
      ensures |logged - old(logged)| <= |BitmapBlocks(g)| + 2 + Spanned(off, |src|)
    {
      if off > inodes[inum].size || Wraps(off, |src|) {
        return -1;
      }
      if off + |src| > MAXFILE * BSIZE {
        return -1;
      }
      Started(g, St(), owner, inum, off, src);
      ghost var c := Content(g, St(), inum);
      var tot := WriteCounted(inum, off, src, avail, c);
      FramedSync(g, old(St()), St(), inum, old(logged), logged);
      ghost var b1, lg1 := blocks, logged;
      SetSize(inum, off + tot, c, off, src, tot, old(St()));
      IupdateLogged(g, old(blocks), old(logged), b1, lg1, inum, blocks[Iblock(g, inum)]);
      r := tot;
    }

    // writei's tail: the new size, then iupdate.
    method SetSize(inum: nat, end: nat, ghost c: seq<byte>, ghost off: nat, ghost src: seq<byte>, ghost tot: nat,
                   ghost st0: Store)
      requires Owned() && WellFormed(g, st0) && inum < g.ninodes && SyncedBut(g, St(), inum)
      requires Progress(g, st0, St(), inum, c, off, src, tot) && end == off + tot && |c| == st0.inodes[inum].size
      modifies this`blocks, this`inodes, this`logged
      ensures Valid() && Content(g, St(), inum) == Splice(c, off, src[..tot])
      ensures forall m: nat :: m < g.ninodes && m != inum ==> Content(g, St(), m) == Content(g, st0, m)
      ensures Iblock(g, inum) < g.bmapstart && blocks == old(blocks)[Iblock(g, inum) := blocks[Iblock(g, inum)]]
      ensures logged == old(logged) + {Iblock(g, inum)}
    {
      ghost var st := St();
      var size := if end > inodes[inum].size then end else inodes[inum].size;
      ResizeOwns(g, st, owner, inum, size);
      Finished(g, st0, st, inum, c, off, src, tot, size);
      ResizeSync(g, st, inum, size);
      inodes := inodes[inum := inodes[inum].(size := size)];
      assert St() == Resize(st, inum, size);
      Flush(inum);
    }

    // iupdate, once the inode is as it should be.
    method Flush(inum: nat)
      requires Owned() && NoHoles(g, St()) && inum < g.ninodes && SyncedBut(g, St(), inum)
      modifies this`blocks, this`logged
      ensures Valid() && Iblock(g, inum) < g.bmapstart
      ensures blocks == old(blocks)[Iblock(g, inum) := blocks[Iblock(g, inum)]]
      ensures forall m: nat :: m < g.ninodes ==> Content(g, St(), m) == old(Content(g, St(), m))
      ensures logged == old(logged) + {Iblock(g, inum)}
    {
      ghost var st := St();
      Fits32(g, st, inum);
      IblockIsMeta(g, inum);
      UpdatedInSync(g, st, inum);
      UpdatedKeeps(g, st, owner, inum);
      Iupdate(inum);
    }

    // itrunc's first loop.
    method FreeDirects(inum: nat) returns (ok: bool)
      requires Owned() && inum < g.ninodes
      modifies this`blocks, this`inodes, this`owner, this`logged
      ensures ok && Owned() && SameData(g, old(blocks), blocks) && SameSizes(old(St()), St(), inum)
      ensures forall i :: 0 <= i < NDIRECT ==> inodes[inum].addrs[i] == 0
      ensures inodes[inum].addrs[NDIRECT] == old(inodes[inum].addrs[NDIRECT])
      ensures logged <= old(logged) + BitmapBlocks(g)
      ensures Framed(g, old(blocks), old(logged), blocks, logged)
    {
      var i := 0;
      while i < NDIRECT
        invariant 0 <= i <= NDIRECT && Owned() && SameData(g, old(blocks), blocks) && SameSizes(old(St()), St(), inum)
        invariant forall j :: 0 <= j < i ==> inodes[inum].addrs[j] == 0
        invariant inodes[inum].addrs[NDIRECT] == old(inodes[inum].addrs[NDIRECT])
        invariant logged <= old(logged) + BitmapBlocks(g) && Framed(g, old(blocks), old(logged), blocks, logged)
      {
        if inodes[inum].addrs[i] != 0 {
          ghost var b1, lg1 := blocks, logged;
          ok := FreeAddr(inum, i);
          FramedTrans(g, old(blocks), old(logged), b1, lg1, blocks, logged);
          if !ok {
            return;
          }
        }
        i := i + 1;
      }
      ok := true;
    }

    method FreeAddr(inum: nat, i: nat) returns (ok: bool)
      requires Owned() && inum < g.ninodes && i < NDIRECT && inodes[inum].addrs[i] != 0
      modifies this`blocks, this`inodes, this`owner, this`logged
      ensures ok && Owned() && SameData(g, old(blocks), blocks)
      ensures inodes == old(PutAddr(St(), inum, i, 0).inodes)
      ensures logged <= old(logged) + BitmapBlocks(g)
      ensures Framed(g, old(blocks), old(logged), blocks, logged)
    {
      ghost var st := St();
      var b := inodes[inum].addrs[i];
      FreeDirect(g, st, owner, inum, i);
      FreedFramed(g, blocks, logged, b);
      ok := Bfree(b);
      inodes := inodes[inum := inodes[inum].(addrs := inodes[inum].addrs[i := 0])];
      owner := owner - {b};
      assert St() == Store(SetFree(g, st.blocks, b), PutAddr(st, inum, i, 0).inodes);
      assert IsBitmapBlock(g, Bblock(g, b));
    }

    // itrunc's second half: the blocks the indirect block lists, then the indirect block.
    method FreeIndirect(inum: nat) returns (ok: bool)
      requires Owned() && inum < g.ninodes && inodes[inum].addrs[NDIRECT] != 0
      modifies this`blocks, this`inodes, this`owner, this`logged
      ensures ok && Owned() && SameData(g, old(blocks), blocks)
      ensures inodes == old(PutAddr(St(), inum, NDIRECT, 0).inodes)
      ensures logged <= old(logged) + BitmapBlocks(g)
      ensures Framed(g, old(blocks), old(logged), blocks, logged)
    {
      ghost var st := St();
      var ind := inodes[inum].addrs[NDIRECT];
      var a := blocks[ind];
      DetachIndirect(g, st, owner, inum);
      ghost var rest, bare := owner - (ListedFrom(a, 0) + {ind}), PutAddr(st, inum, NDIRECT, 0).inodes;
      ok := FreeTransit(a, ind, rest, bare);
      inodes := inodes[inum := inodes[inum].(addrs := inodes[inum].addrs[NDIRECT := 0])];
      owner := rest;
      assert St() == Store(blocks, bare);
    }

    method FreeTransit(a: Block, ind: nat, ghost rest: map<nat, Slot>, ghost bare: seq<Inode>) returns (ok: bool)
      requires Owns(g, Store(blocks, bare), rest, ListedFrom(a, 0) + {ind}) && ind !in ListedFrom(a, 0)
      requires DistinctWords(a)
      modifies this`blocks, this`logged
      ensures ok && SameData(g, old(blocks), blocks) && Owns(g, Store(blocks, bare), rest, {})
      ensures logged <= old(logged) + BitmapBlocks(g)
      ensures Framed(g, old(blocks), old(logged), blocks, logged)
    {
      ok := FreeListed(a, ind, rest, bare);
      ghost var b1, lg1 := blocks, logged;
      ok := FreeExtra(ind, rest, {ind}, bare);
      FramedTrans(g, old(blocks), old(logged), b1, lg1, blocks, logged);
      assert {ind} - {ind} == {};
    }

    method FreeListed(a: Block, ind: nat, ghost rest: map<nat, Slot>, ghost bare: seq<Inode>) returns (ok: bool)
      requires Owns(g, Store(blocks, bare), rest, ListedFrom(a, 0) + {ind}) && ind !in ListedFrom(a, 0)
      requires DistinctWords(a)
      modifies this`blocks, this`logged
      ensures ok && SameData(g, old(blocks), blocks) && Owns(g, Store(blocks, bare), rest, {ind})
      ensures logged <= old(logged) + BitmapBlocks(g)
      ensures Framed(g, old(blocks), old(logged), blocks, logged)
    {
      var j := 0;
      ghost var extra := ListedFrom(a, 0) + {ind};
      while j < NINDIRECT
        invariant 0 <= j <= NINDIRECT && SameData(g, old(blocks), blocks)
        invariant extra == ListedFrom(a, j) + {ind} && ind !in ListedFrom(a, j)
        invariant Owns(g, Store(blocks, bare), rest, extra)
        invariant logged <= old(logged) + BitmapBlocks(g) && Framed(g, old(blocks), old(logged), blocks, logged)
      {
        ListedNext(a, j);
        if Word(a, j) != 0 {
          ghost var b1, lg1 := blocks, logged;
          ok := FreeExtra(Word(a, j), rest, extra, bare);
          FramedTrans(g, old(blocks), old(logged), b1, lg1, blocks, logged);
          if !ok {
            return;
          }
          extra := extra - {Word(a, j)};
        }
        j := j + 1;
      }
      ListedEnd(a);
      assert extra == {ind};
      ok := true;
    }

    // bfree of a block in transit: the panic cannot happen.
    method FreeExtra(b: nat, ghost rest: map<nat, Slot>, ghost extra: set<nat>, ghost bare: seq<Inode>)
      returns (ok: bool)
      requires Owns(g, Store(blocks, bare), rest, extra) && b in extra
      modifies this`blocks, this`logged
      ensures ok && SameData(g, old(blocks), blocks) && Owns(g, Store(blocks, bare), rest, extra - {b})
      ensures logged <= old(logged) + BitmapBlocks(g)
      ensures Framed(g, old(blocks), old(logged), blocks, logged)
    {
      Release(g, Store(blocks, bare), rest, extra, b);
      BblockIsMeta(g, b);
      FreedFramed(g, blocks, logged, b);
      ok := Bfree(b);
      assert IsBitmapBlock(g, Bblock(g, b));
    }

    /**
     itrunc: the file ends up empty and owns nothing, all its blocks are free again,
     every other file keeps its content, and "freeing free block" is unreachable.
     */
    method Itrunc(inum: nat) returns (ok: bool)
      requires Valid() && inum < g.ninodes
      modifies this`blocks, this`inodes, this`owner, this`logged
      ensures ok && Valid() && Content(g, St(), inum) == []
      ensures forall s :: IsSlot(g, s) && s.inum == inum ==> At(g, St(), s) == 0
      ensures forall m: nat :: m < g.ninodes && m != inum ==>
        inodes[m] == old(inodes[m]) && Content(g, St(), m) == old(Content(g, St(), m))
      ensures logged <= old(logged) + BitmapBlocks(g) + {Iblock(g, inum)}
      ensures Logged(old(blocks), old(logged), blocks, logged, g.inodestart)
    {
      ok := FreeAll(inum);
      FramedSync(g, old(St()), St(), inum, old(logged), logged);
      Emptied(inum, old(St()), old(owner));
      ghost var b1, lg1 := blocks, logged;
      Flush(inum);
      IupdateLogged(g, old(blocks), old(logged), b1, lg1, inum, blocks[Iblock(g, inum)]);
    }

    // ip->size = 0.
    method Emptied(inum: nat, ghost st0: Store, ghost owner0: map<nat, Slot>)
      requires Owned() && inum < g.ninodes && SyncedBut(g, St(), inum) && Owns(g, st0, owner0, {}) && NoHoles(g, st0)
      requires SameData(g, st0.blocks, blocks) && SameSizes(st0, St(), inum)
      requires forall i :: 0 <= i <= NDIRECT ==> inodes[inum].addrs[i] == 0
      modifies this`inodes
      ensures Owned() && NoHoles(g, St()) && SyncedBut(g, St(), inum) && Content(g, St(), inum) == []
      ensures forall s :: IsSlot(g, s) && s.inum == inum ==> At(g, St(), s) == 0
      ensures forall m: nat :: m < g.ninodes && m != inum ==>
        inodes[m] == st0.inodes[m] && Content(g, St(), m) == Content(g, st0, m)
    {
      ghost var st := St();
      ResizeOwns(g, st, owner, inum, 0);
      ResizeSync(g, st, inum, 0);
      inodes := inodes[inum := inodes[inum].(size := 0)];
      assert St() == Resize(st, inum, 0);
      forall m: nat | m < g.ninodes
        ensures NoHole(g, St(), m) && (m != inum ==> Content(g, St(), m) == Content(g, st0, m))
      {
        if m != inum {
          FileUntouched(g, st0, St(), owner0, m);
        }
      }
    }

    method FreeAll(inum: nat) returns (ok: bool)
      requires Owned() && inum < g.ninodes
      modifies this`blocks, this`inodes, this`owner, this`logged
      ensures ok && Owned() && SameData(g, old(blocks), blocks) && SameSizes(old(St()), St(), inum)
      ensures forall i :: 0 <= i <= NDIRECT ==> inodes[inum].addrs[i] == 0
      ensures logged <= old(logged) + BitmapBlocks(g)
      ensures Framed(g, old(blocks), old(logged), blocks, logged)
    {
      ok := FreeDirects(inum);
      if ok && inodes[inum].addrs[NDIRECT] != 0 {
        ghost var b1, lg1 := blocks, logged;
        ok := FreeIndirect(inum);
        FramedTrans(g, old(blocks), old(logged), b1, lg1, blocks, logged);
      }
    }
  }
}
