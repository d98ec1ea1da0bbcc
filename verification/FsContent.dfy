/**
 What a file contains: the bytes its inode's slots lead to.
 */
module FsContent {
  import opened Common
  import opened Bytes
  import opened FsBitmap
  import opened FsOwnership
  import opened FsDinode

  // The block holding the bn-th block of file `n`, 0 if it is not mapped.
  function BlockAt(g: Geometry, st: Store, n: nat, bn: nat): nat
    requires WellFormed(g, st) && n < g.ninodes && bn < MAXFILE
  {
    At(g, st, SlotOf(n, bn))
  }

  ghost predicate NoHole(g: Geometry, st: Store, n: nat)
    requires WellFormed(g, st) && n < g.ninodes
  {
    && st.inodes[n].size <= MAXFILE * BSIZE
    && forall bn: nat :: bn * BSIZE < st.inodes[n].size && bn < MAXFILE ==> BlockAt(g, st, n, bn) != 0
  }

  // Every block below the end of every file is mapped.
  ghost predicate NoHoles(g: Geometry, st: Store)
    requires WellFormed(g, st)
  {
    forall n: nat :: n < g.ninodes ==> NoHole(g, st, n)
  }

  function FileByte(g: Geometry, st: Store, n: nat, k: nat): byte
    requires WellFormed(g, st) && n < g.ninodes
  {
    if k / BSIZE < MAXFILE && BlockAt(g, st, n, k / BSIZE) < g.size
    then st.blocks[BlockAt(g, st, n, k / BSIZE)][k % BSIZE] else 0
  }

  function Content(g: Geometry, st: Store, n: nat): (c: seq<byte>)
    requires WellFormed(g, st) && n < g.ninodes
  {
    seq(st.inodes[n].size, k requires 0 <= k => FileByte(g, st, n, k))
  }

  // No file block but the one of `slot` is mapped differently.
  ghost predicate OnlyData(g: Geometry, st: Store, st': Store, slot: Slot) {
    && WellFormed(g, st) && WellFormed(g, st')
    && forall s :: IsSlot(g, s) && !s.Indirect? && s != slot ==> At(g, st', s) == At(g, st, s)
  }

  // Sizes, and all inodes but `n`, are as before.
  predicate SameSizes(st: Store, st': Store, n: nat) {
    && |st'.inodes| == |st.inodes|
    && forall m :: 0 <= m < |st.inodes| ==>
         st'.inodes[m].size == st.inodes[m].size && (m != n ==> st'.inodes[m] == st.inodes[m])
  }

  predicate IsBitmapBlock(g: Geometry, c: nat) {
    g.size > 0 && g.bmapstart <= c <= g.bmapstart + (g.size - 1) / BPB
  }

  function BitmapBlocks(g: Geometry): set<nat> {
    set c: nat | c < g.nmeta && IsBitmapBlock(g, c)
  }

  ghost predicate Full(g: Geometry, st: Store) {
    GoodGeometry(g) && WellFormed(g, st) && forall b: nat :: b < g.size ==> Used(g, st.blocks, b)
  }

  // Since blocks `b0` and log `lg0`: what has changed has been logged, and nothing before the bitmap has changed.
  ghost predicate Framed(g: Geometry, b0: seq<Block>, lg0: set<nat>, b1: seq<Block>, lg1: set<nat>) {
    && Logged(b0, lg0, b1, lg1, g.bmapstart)
    && forall b: nat :: b < g.bmapstart && b < |b0| ==> b1[b] == b0[b]
  }

  // What has changed has been logged, and what has been logged lies at `first` or above.
  ghost predicate Logged(b0: seq<Block>, lg0: set<nat>, b1: seq<Block>, lg1: set<nat>, first: nat) {
    && |b1| == |b0| && lg0 <= lg1
    && (forall b: nat :: b < |b0| && b !in lg1 ==> b1[b] == b0[b])
    && (forall b :: b in lg1 && b !in lg0 ==> first <= b < |b0|)
  }

  lemma FramedTrans(g: Geometry, b0: seq<Block>, lg0: set<nat>, b1: seq<Block>, lg1: set<nat>, b2: seq<Block>,
                    lg2: set<nat>)
    requires Framed(g, b0, lg0, b1, lg1) && Framed(g, b1, lg1, b2, lg2)
    ensures Framed(g, b0, lg0, b2, lg2)
  {
    forall b: nat | b < |b0| && b !in lg2 ensures b2[b] == b0[b] { assert b !in lg1; }
  }

  // One slot of file `n` has been looked up, and filled if it was empty and a block was free.
  ghost predicate MapStep(g: Geometry, st: Store, lg: set<nat>, st': Store, lg': set<nat>, n: nat, slot: Slot,
                          addr: nat) {
    && n < g.ninodes && IsSlot(g, slot) && slot.inum == n
    && Extends(g, st, st') && OnlySlot(g, st, st', slot) && SameSizes(st, st', n)
    && addr == At(g, st', slot)
    && (addr == 0 || At(g, st, slot) != 0 ==> st' == st && lg' == lg)
    && (addr == 0 ==> Full(g, st'))
    && (addr != 0 && At(g, st, slot) == 0 ==> addr < g.size && st'.blocks[addr] == Zeroed())
    && Framed(g, st.blocks, lg, st'.blocks, lg')
    && lg' <= lg + BitmapBlocks(g) + ({addr, st'.inodes[n].addrs[NDIRECT]} - {0})
  }

  // The same for the bn-th block of the file: its indirect slot may be filled along the way.
  ghost predicate BmapStep(g: Geometry, st: Store, lg: set<nat>, st': Store, lg': set<nat>,
                           n: nat, bn: nat, addr: nat) {
    && n < g.ninodes && bn < MAXFILE
    && Extends(g, st, st') && OnlyData(g, st, st', SlotOf(n, bn)) && SameSizes(st, st', n)
    && addr == BlockAt(g, st', n, bn)
    && (BlockAt(g, st, n, bn) != 0 ==> st' == st && lg' == lg)
    && (addr == 0 ==> Full(g, st'))
    && (addr != 0 && BlockAt(g, st, n, bn) == 0 ==> addr < g.size && st'.blocks[addr] == Zeroed())
    && Framed(g, st.blocks, lg, st'.blocks, lg')
    && (st.inodes[n].addrs[NDIRECT] != 0 ==> st'.inodes[n].addrs[NDIRECT] == st.inodes[n].addrs[NDIRECT])
    && lg' <= lg + BitmapBlocks(g) + ({addr, st'.inodes[n].addrs[NDIRECT]} - {0})
  }

  // A logged write at or above the bitmap.
  lemma OneFramed(g: Geometry, blocks: seq<Block>, lg: set<nat>, b: nat, data: Block)
    requires g.bmapstart <= b < |blocks|
    ensures Framed(g, blocks, lg, blocks[b := data], lg + {b})
  {
  }

  lemma TakenFramed(g: Geometry, st: Store, lg: set<nat>, b: nat)
    requires GoodGeometry(g) && WellFormed(g, st) && g.nmeta <= b < g.size && Bblock(g, b) < g.size
    ensures Framed(g, st.blocks, lg, Taken(g, st, b).blocks, lg + {Bblock(g, b), b})
  {
    var b1 := SetUsed(g, st.blocks, b);
    OneFramed(g, st.blocks, lg, Bblock(g, b), b1[Bblock(g, b)]);
    OneFramed(g, b1, lg + {Bblock(g, b)}, b, Zeroed());
    assert lg + {Bblock(g, b)} + {b} == lg + {Bblock(g, b), b};
    FramedTrans(g, st.blocks, lg, b1, lg + {Bblock(g, b)}, b1[b := Zeroed()], lg + {Bblock(g, b), b});
  }

  lemma ListedFramed(g: Geometry, st: Store, lg: set<nat>, b: nat, ind: nat, data: Block)
    requires GoodGeometry(g) && WellFormed(g, st) && g.nmeta <= b < g.size && Bblock(g, b) < g.size
    requires g.nmeta <= ind < g.size
    ensures Framed(g, st.blocks, lg, Taken(g, st, b).blocks[ind := data], lg + {Bblock(g, b), b, ind})
  {
    var b1, lg1 := Taken(g, st, b).blocks, lg + {Bblock(g, b), b};
    TakenFramed(g, st, lg, b);
    OneFramed(g, b1, lg1, ind, data);
    assert lg1 + {ind} == lg + {Bblock(g, b), b, ind};
    FramedTrans(g, st.blocks, lg, b1, lg1, b1[ind := data], lg1 + {ind});
  }

  lemma FillAddr(g: Geometry, st: Store, lg: set<nat>, owner: map<nat, Slot>, n: nat, i: nat, b: nat)
    requires Owns(g, st, owner, {}) && b < g.size && !Used(g, st.blocks, b)
    requires n < g.ninodes && i <= NDIRECT && st.inodes[n].addrs[i] == 0
    ensures Bblock(g, b) < g.size
    ensures var slot := if i < NDIRECT then Direct(n, i) else Indirect(n);
      var st' := PutAddr(Taken(g, st, b), n, i, b);
      Owns(g, st', owner[b := slot], {}) && MapStep(g, st, lg, st', lg + {Bblock(g, b), b}, n, slot, b)
  {
    Allocate(g, st, owner, {}, b);
    AllocateAddr(g, st, owner, n, i, b);
    BblockIsMeta(g, b);
    TakenFramed(g, st, lg, b);
    assert IsBitmapBlock(g, Bblock(g, b));
  }

  lemma FillListed(g: Geometry, st: Store, lg: set<nat>, owner: map<nat, Slot>, n: nat, j: nat, b: nat)
    requires Owns(g, st, owner, {}) && b < g.size && !Used(g, st.blocks, b)
    requires n < g.ninodes && j < NINDIRECT && st.inodes[n].addrs[NDIRECT] != 0 && At(g, st, Listed(n, j)) == 0
    ensures Bblock(g, b) < g.size
    ensures var ind := st.inodes[n].addrs[NDIRECT];
      var st' := PutListed(Taken(g, st, b), n, j, b);
      && Owns(g, st', owner[b := Listed(n, j)], {})
      && MapStep(g, st, lg, st', lg + {Bblock(g, b), b, ind}, n, Listed(n, j), b)
  {
    Allocate(g, st, owner, {}, b);
    AllocateListed(g, st, owner, n, j, b);
    BblockIsMeta(g, b);
    assert IsBitmapBlock(g, Bblock(g, b));
    var ind := st.inodes[n].addrs[NDIRECT];
    assert At(g, st, Indirect(n)) == ind;
    ListedFramed(g, st, lg, b, ind, PutWord(Taken(g, st, b).blocks[ind], j, b));
    WordOfPutWord(Taken(g, st, b).blocks[ind], j, b, j);
  }

  lemma DirectStep(g: Geometry, st: Store, lg: set<nat>, st': Store, lg': set<nat>, n: nat, bn: nat, addr: nat)
    requires bn < NDIRECT && MapStep(g, st, lg, st', lg', n, Direct(n, bn), addr)
    ensures BmapStep(g, st, lg, st', lg', n, bn, addr)
  {
    assert At(g, st', Indirect(n)) == At(g, st, Indirect(n));
  }

  // The indirect block could not be allocated.
  lemma NoIndirectStep(g: Geometry, st: Store, lg: set<nat>, st': Store, lg': set<nat>, n: nat, bn: nat)
    requires NDIRECT <= bn < MAXFILE && MapStep(g, st, lg, st', lg', n, Indirect(n), 0)
    ensures BmapStep(g, st, lg, st', lg', n, bn, 0)
  {
    assert At(g, st, Listed(n, bn - NDIRECT)) == 0;
  }

  lemma ListedStep(g: Geometry, st: Store, lg: set<nat>, st1: Store, lg1: set<nat>, ind: nat,
                   st2: Store, lg2: set<nat>, n: nat, bn: nat, addr: nat)
    requires NDIRECT <= bn < MAXFILE && ind != 0 && MapStep(g, st, lg, st1, lg1, n, Indirect(n), ind)
    requires MapStep(g, st1, lg1, st2, lg2, n, Listed(n, bn - NDIRECT), addr)
    ensures BmapStep(g, st, lg, st2, lg2, n, bn, addr)
  {
    ExtendsTrans(g, st, st1, st2);
    FramedTrans(g, st.blocks, lg, st1.blocks, lg1, st2.blocks, lg2);
    assert At(g, st2, Indirect(n)) == At(g, st1, Indirect(n)) == ind;
    assert At(g, st1, Listed(n, bn - NDIRECT)) == At(g, st, Listed(n, bn - NDIRECT));
    if BlockAt(g, st, n, bn) != 0 {
      assert At(g, st, Indirect(n)) != 0;
    }
  }

  // ----- the bytes of a file -----

  // The first |c| bytes of file `n` are mapped, and read `c`.
  ghost predicate Holds(g: Geometry, st: Store, n: nat, c: seq<byte>) {
    && WellFormed(g, st) && n < g.ninodes && |c| <= MAXFILE * BSIZE
    && forall k {:trigger HoldsByte(g, st, n, k, c[k])} :: 0 <= k < |c| ==> HoldsByte(g, st, n, k, c[k])
  }

  ghost predicate HoldsByte(g: Geometry, st: Store, n: nat, k: nat, x: byte)
    requires WellFormed(g, st) && n < g.ninodes && k < MAXFILE * BSIZE
  {
    var b := BlockAt(g, st, n, k / BSIZE);
    0 < b < g.size && st.blocks[b][k % BSIZE] == x
  }

  // A file without holes holds its content, and nothing else of that length.
  lemma HoldsContent(g: Geometry, st: Store, owner: map<nat, Slot>, n: nat)
    requires Owns(g, st, owner, {}) && n < g.ninodes && NoHole(g, st, n)
    ensures Holds(g, st, n, Content(g, st, n))
  {
    var c := Content(g, st, n);
    forall k | 0 <= k < |c| ensures HoldsByte(g, st, n, k, c[k]) {
      assert k / BSIZE * BSIZE <= k;
      assert BlockAt(g, st, n, k / BSIZE) != 0;
      assert IsSlot(g, SlotOf(n, k / BSIZE));
    }
  }

  lemma ContentHolds(g: Geometry, st: Store, n: nat, c: seq<byte>)
    requires Holds(g, st, n, c) && |c| == st.inodes[n].size
    ensures NoHole(g, st, n) && Content(g, st, n) == c
  {
    forall bn: nat | bn * BSIZE < |c| && bn < MAXFILE ensures BlockAt(g, st, n, bn) != 0 {
      assert HoldsByte(g, st, n, bn * BSIZE, c[bn * BSIZE]);
    }
    forall k | 0 <= k < |c| ensures Content(g, st, n)[k] == c[k] {
      assert HoldsByte(g, st, n, k, c[k]);
    }
  }

  lemma ExtendsHolds(g: Geometry, st: Store, st': Store, n: nat, c: seq<byte>)
    requires Extends(g, st, st') && Holds(g, st, n, c)
    ensures Holds(g, st', n, c)
  {
    forall k | 0 <= k < |c| ensures HoldsByte(g, st', n, k, c[k]) {
      assert HoldsByte(g, st, n, k, c[k]);
      assert IsSlot(g, SlotOf(n, k / BSIZE));
    }
  }

  function Splice(c: seq<byte>, off: nat, data: seq<byte>): (r: seq<byte>)
    requires off <= |c|
    ensures |r| == if off + |data| <= |c| then |c| else off + |data|
  {
    c[..off] + data + (if off + |data| <= |c| then c[off + |data|..] else [])
  }

  lemma SpliceAgain(c: seq<byte>, off: nat, a: seq<byte>, b: seq<byte>)
    requires off <= |c|
    ensures Splice(Splice(c, off, a), off + |a|, b) == Splice(c, off, a + b)
  {
  }

  lemma SpliceNext(c: seq<byte>, off: nat, src: seq<byte>, tot: nat, m: nat)
    requires off <= |c| && tot + m <= |src|
    ensures Splice(Splice(c, off, src[..tot]), off + tot, src[tot..tot + m]) == Splice(c, off, src[..tot + m])
  {
    SpliceAgain(c, off, src[..tot], src[tot..tot + m]);
    assert src[..tot + m] == src[..tot] + src[tot..tot + m];
  }

  // min(n - tot, BSIZE - off%BSIZE)
  function ChunkSize(left: nat, at: nat): (m: nat)
    ensures at % BSIZE + m <= BSIZE && m <= left && (left > 0 ==> m > 0)
    ensures m == left || at % BSIZE + m == BSIZE
  {
    if left < BSIZE - at % BSIZE then left else BSIZE - at % BSIZE
  }

  // Overwriting part of one block.
  function SpliceBlock(b: Block, at: nat, data: seq<byte>): Block
    requires at + |data| <= BSIZE
  {
    b[..at] + data + b[at + |data|..]
  }

  // The store after writei copies one chunk into the block of file `n` at offset `off`.
  function PutChunk(g: Geometry, st: Store, n: nat, off: nat, data: seq<byte>): Store
    requires WellFormed(g, st) && n < g.ninodes && off < MAXFILE * BSIZE && off % BSIZE + |data| <= BSIZE
    requires BlockAt(g, st, n, off / BSIZE) < g.size
  {
    var b := BlockAt(g, st, n, off / BSIZE);
    st.(blocks := st.blocks[b := SpliceBlock(st.blocks[b], off % BSIZE, data)])
  }

  lemma WithinChunk(off: nat, len: nat, k: nat)
    requires off % BSIZE + len <= BSIZE && off <= k < off + len
    ensures k / BSIZE == off / BSIZE && k % BSIZE == off % BSIZE + (k - off)
  {
  }

  lemma OutsideChunk(off: nat, len: nat, k: nat)
    requires off % BSIZE + len <= BSIZE && k / BSIZE == off / BSIZE && !(off <= k < off + len)
    ensures k % BSIZE < off % BSIZE || k % BSIZE >= off % BSIZE + len
  {
  }

  // One byte of a file after a chunk has been written into it.
  lemma ByteInsideChunk(g: Geometry, st: Store, st': Store, n: nat, off: nat, data: seq<byte>, k: nat)
    requires WellFormed(g, st) && n < g.ninodes && off + |data| <= MAXFILE * BSIZE
    requires off % BSIZE + |data| <= BSIZE && off <= k < off + |data| && 0 < BlockAt(g, st, n, off / BSIZE) < g.size
    requires st' == PutChunk(g, st, n, off, data) && WellFormed(g, st')
    requires BlockAt(g, st', n, off / BSIZE) == BlockAt(g, st, n, off / BSIZE)
    ensures HoldsByte(g, st', n, k, data[k - off])
  {
    WithinChunk(off, |data|, k);
  }

  lemma ByteOutsideChunk(g: Geometry, st: Store, st': Store, owner: map<nat, Slot>, n: nat, off: nat, data: seq<byte>,
                         k: nat, x: byte)
    requires Owns(g, st, owner, {}) && n < g.ninodes && off < MAXFILE * BSIZE && k < MAXFILE * BSIZE
    requires off % BSIZE + |data| <= BSIZE && !(off <= k < off + |data|) && 0 < BlockAt(g, st, n, off / BSIZE) < g.size
    requires st' == PutChunk(g, st, n, off, data) && WellFormed(g, st')
    requires BlockAt(g, st', n, k / BSIZE) == BlockAt(g, st, n, k / BSIZE)
    requires HoldsByte(g, st, n, k, x)
    ensures HoldsByte(g, st', n, k, x)
  {
    assert IsSlot(g, SlotOf(n, k / BSIZE)) && IsSlot(g, SlotOf(n, off / BSIZE));
    if k / BSIZE == off / BSIZE {
      OutsideChunk(off, |data|, k);
    } else {
      assert SlotOf(n, k / BSIZE) != SlotOf(n, off / BSIZE);
    }
  }

  lemma ByteAfterChunk(g: Geometry, st: Store, st': Store, owner: map<nat, Slot>, n: nat, off: nat, data: seq<byte>,
                       c: seq<byte>, k: nat)
    requires Owns(g, st, owner, {}) && Holds(g, st, n, c) && off <= |c| && off + |data| <= MAXFILE * BSIZE
    requires 0 < |data| && off % BSIZE + |data| <= BSIZE && 0 < BlockAt(g, st, n, off / BSIZE) < g.size
    requires st' == PutChunk(g, st, n, off, data) && WellFormed(g, st')
    requires k < |Splice(c, off, data)|
    requires BlockAt(g, st', n, off / BSIZE) == BlockAt(g, st, n, off / BSIZE)
    requires k / BSIZE < MAXFILE && BlockAt(g, st', n, k / BSIZE) == BlockAt(g, st, n, k / BSIZE)
    ensures HoldsByte(g, st', n, k, Splice(c, off, data)[k])
  {
    if off <= k < off + |data| {
      ByteInsideChunk(g, st, st', n, off, data, k);
    } else {
      assert HoldsByte(g, st, n, k, c[k]);
      ByteOutsideChunk(g, st, st', owner, n, off, data, k, c[k]);
    }
  }

  lemma ChunkWritten(g: Geometry, st: Store, owner: map<nat, Slot>, n: nat, off: nat, data: seq<byte>, c: seq<byte>)
    requires Owns(g, st, owner, {}) && Holds(g, st, n, c) && off <= |c| && off + |data| <= MAXFILE * BSIZE
    requires 0 < |data| && off % BSIZE + |data| <= BSIZE && 0 < BlockAt(g, st, n, off / BSIZE) < g.size
    ensures var st' := PutChunk(g, st, n, off, data);
      Owns(g, st', owner, {}) && Holds(g, st', n, Splice(c, off, data))
  {
    var st' := PutChunk(g, st, n, off, data);
    DataWrite(g, st, owner, SlotOf(n, off / BSIZE), st'.blocks[BlockAt(g, st, n, off / BSIZE)]);
    forall k | 0 <= k < |Splice(c, off, data)| ensures HoldsByte(g, st', n, k, Splice(c, off, data)[k]) {
      assert k / BSIZE < MAXFILE && IsSlot(g, SlotOf(n, k / BSIZE)) && IsSlot(g, SlotOf(n, off / BSIZE));
      ByteAfterChunk(g, st, st', owner, n, off, data, c, k);
    }
  }

  lemma ChunkLeavesOthers(g: Geometry, st: Store, owner: map<nat, Slot>, n: nat, off: nat, data: seq<byte>, m: nat,
                          c: seq<byte>)
    requires Owns(g, st, owner, {}) && Holds(g, st, m, c) && m != n && n < g.ninodes
    requires off < MAXFILE * BSIZE && off % BSIZE + |data| <= BSIZE && 0 < BlockAt(g, st, n, off / BSIZE) < g.size
    ensures Holds(g, PutChunk(g, st, n, off, data), m, c)
  {
    var st' := PutChunk(g, st, n, off, data);
    var b := BlockAt(g, st, n, off / BSIZE);
    DataWrite(g, st, owner, SlotOf(n, off / BSIZE), st'.blocks[b]);
    forall k | 0 <= k < |c| ensures HoldsByte(g, st', m, k, c[k]) {
      assert HoldsByte(g, st, m, k, c[k]);
      assert IsSlot(g, SlotOf(m, k / BSIZE)) && SlotOf(m, k / BSIZE) != SlotOf(n, off / BSIZE);
    }
  }

  // What readi copies out of one block.
  lemma ChunkRead(g: Geometry, st: Store, n: nat, c: seq<byte>, off: nat, m: nat)
    requires Holds(g, st, n, c) && 0 < m && off % BSIZE + m <= BSIZE && off + m <= |c|
    ensures 0 < BlockAt(g, st, n, off / BSIZE) < g.size
    ensures st.blocks[BlockAt(g, st, n, off / BSIZE)][off % BSIZE..off % BSIZE + m] == c[off..off + m]
  {
    assert HoldsByte(g, st, n, off, c[off]);
    var got := st.blocks[BlockAt(g, st, n, off / BSIZE)][off % BSIZE..off % BSIZE + m];
    var want := c[off..off + m];
    forall i | 0 <= i < m ensures got[i] == want[i] {
      WithinChunk(off, m, off + i);
      assert HoldsByte(g, st, n, off + i, c[off + i]);
    }
  }

  // Blocks that the byte range [off, off + n) touches.
  function Spanned(off: nat, n: nat): nat {
    if n == 0 then 0 else (off + n - 1) / BSIZE - off / BSIZE + 1
  }

  // Each round of the copy loops touches one block more.
  lemma SpanGrows(off: nat, n: nat, tot: nat, m: nat)
    requires tot < n && 0 < m <= n - tot && (off + tot) % BSIZE + m <= BSIZE
    requires tot > 0 ==> (off + tot) % BSIZE == 0
    requires m == n - tot || (off + tot) % BSIZE + m == BSIZE
    ensures Spanned(off, tot + m) == Spanned(off, tot) + 1 <= Spanned(off, n)
    ensures tot + m < n ==> (off + (tot + m)) % BSIZE == 0
  {
  }

  // Since `lg0`, only bitmap blocks, the indirect block `ind` and the data blocks `used` have been logged.
  ghost predicate LoggedOnly(g: Geometry, lg0: set<nat>, lg: set<nat>, ind: nat, used: set<nat>) {
    lg <= lg0 + BitmapBlocks(g) + ({ind} - {0}) + used
  }

  // One round of writei logs bitmap blocks, the indirect block, and the data block `addr`.
  ghost predicate LogStep(g: Geometry, lg: set<nat>, lg': set<nat>, ind: nat, ind': nat, addr: nat) {
    (ind != 0 ==> ind' == ind) && lg' <= lg + BitmapBlocks(g) + ({addr, ind'} - {0})
  }

  lemma LogData(g: Geometry, lg: set<nat>, lg': set<nat>, ind: nat, ind': nat, addr: nat)
    requires LogStep(g, lg, lg', ind, ind', addr) && addr != 0
    ensures LogStep(g, lg, lg' + {addr}, ind, ind', addr)
  {
  }

  lemma LogMore(g: Geometry, lg0: set<nat>, lg1: set<nat>, lg2: set<nat>, ind1: nat, ind2: nat, used: set<nat>,
                addr: nat)
    requires LoggedOnly(g, lg0, lg1, ind1, used) && LogStep(g, lg1, lg2, ind1, ind2, addr)
    ensures LoggedOnly(g, lg0, lg2, ind2, used + ({addr} - {0}))
    ensures |used + ({addr} - {0})| <= |used| + 1
  {
    var more := {addr} - {0};
    assert |more| <= 1 by { assert more == {} || more == {addr}; }
    UnionSize(used, more);
  }

  // How many blocks one call of writei can log.
  lemma LogCount(g: Geometry, lg0: set<nat>, lg: set<nat>, iblock: nat, ind: nat, used: set<nat>, span: nat)
    requires LogProgress(g, lg0, lg, ind, used, span)
    ensures |lg + {iblock} - lg0| <= |BitmapBlocks(g)| + 2 + span
  {
    var most := BitmapBlocks(g) + {ind} + used + {iblock};
    SubsetSize(lg + {iblock} - lg0, most);
    UnionSize(BitmapBlocks(g) + {ind} + used, {iblock});
    UnionSize(BitmapBlocks(g) + {ind}, used);
    UnionSize(BitmapBlocks(g), {ind});
  }

  // A file system of at most BPB blocks has one bitmap block.
  lemma OneBitmapBlock(g: Geometry)
    requires GoodGeometry(g) && g.size <= BPB
    ensures BitmapBlocks(g) == {g.bmapstart}
  {
  }

  lemma UnionSize(a: set<nat>, b: set<nat>)
    ensures |a + b| <= |a| + |b|
  {
    assert |a + b| + |a * b| == |a| + |b|;
  }

  // writei, started in `st0` on file `n` with content `c`, has copied `tot` bytes of `src` to offset `off`.
  ghost predicate Progress(g: Geometry, st0: Store, st: Store, n: nat, c: seq<byte>,
                           off: nat, src: seq<byte>, tot: nat) {
    && off <= |c| && tot <= |src| && off + |src| <= MAXFILE * BSIZE
    && SameSizes(st0, st, n) && OthersHold(g, st0, st, n)
    && Holds(g, st, n, Splice(c, off, src[..tot]))
    && (0 < tot < |src| ==> (off + tot) % BSIZE == 0)
  }

  ghost predicate LogProgress(g: Geometry, lg0: set<nat>, lg: set<nat>, ind: nat, used: set<nat>, span: nat) {
    LoggedOnly(g, lg0, lg, ind, used) && |used| <= span
  }

  lemma NextProgress(g: Geometry, st0: Store, st: Store, st': Store, n: nat, c: seq<byte>, off: nat, src: seq<byte>,
                     tot: nat, m: nat)
    requires Progress(g, st0, st, n, c, off, src, tot) && tot < |src| && m == ChunkSize(|src| - tot, off + tot)
    requires SameSizes(st, st', n) && OthersHold(g, st0, st', n)
    requires Holds(g, st', n, Splice(Splice(c, off, src[..tot]), off + tot, src[tot..tot + m]))
    ensures Progress(g, st0, st', n, c, off, src, tot + m)
  {
    SameSizesTrans(st0, st, st', n);
    SpliceNext(c, off, src, tot, m);
    SpanGrows(off, |src|, tot, m);
  }

  lemma SameProgress(g: Geometry, st0: Store, st: Store, st': Store, n: nat, c: seq<byte>, off: nat, src: seq<byte>,
                     tot: nat)
    requires Progress(g, st0, st, n, c, off, src, tot)
    requires SameSizes(st, st', n) && OthersHold(g, st0, st', n) && Holds(g, st', n, Splice(c, off, src[..tot]))
    ensures Progress(g, st0, st', n, c, off, src, tot)
  {
    SameSizesTrans(st0, st, st', n);
  }

  // `c` with the `m` bytes of `src` from `tot` on put in at `at`, if they have been written.
  function WithChunk(c: seq<byte>, at: nat, src: seq<byte>, tot: nat, m: nat, wrote: bool): seq<byte>
    requires at <= |c| && tot + m <= |src|
  {
    if wrote then Splice(c, at, src[tot..tot + m]) else c
  }

  lemma MoreProgress(g: Geometry, st0: Store, st: Store, st': Store, n: nat, c: seq<byte>, off: nat, src: seq<byte>,
                     tot: nat, m: nat, wrote: bool)
    requires Progress(g, st0, st, n, c, off, src, tot) && tot < |src| && m == ChunkSize(|src| - tot, off + tot)
    requires SameSizes(st, st', n) && OthersHold(g, st0, st', n)
    requires Holds(g, st', n, WithChunk(Splice(c, off, src[..tot]), off + tot, src, tot, m, wrote))
    ensures Progress(g, st0, st', n, c, off, src, if wrote then tot + m else tot)
  {
    if wrote {
      NextProgress(g, st0, st, st', n, c, off, src, tot, m);
    } else {
      SameProgress(g, st0, st, st', n, c, off, src, tot);
    }
  }

  lemma SameSizesTrans(st: Store, st1: Store, st2: Store, n: nat)
    requires SameSizes(st, st1, n) && SameSizes(st1, st2, n)
    ensures SameSizes(st, st2, n)
  {
  }

  // 32-bit unsigned addition wraps.
  predicate Wraps(off: nat, n: nat) {
    (off + n) % 0x1_0000_0000 < off
  }

  // All files but `n` hold in `st'` what they contained in `st`.
  ghost predicate OthersHold(g: Geometry, st: Store, st': Store, n: nat) {
    WellFormed(g, st) && forall m: nat :: m < g.ninodes && m != n ==> Holds(g, st', m, Content(g, st, m))
  }

  lemma OthersExtend(g: Geometry, st: Store, st1: Store, st2: Store, n: nat)
    requires OthersHold(g, st, st1, n) && Extends(g, st1, st2)
    ensures OthersHold(g, st, st2, n)
  {
    forall m: nat | m < g.ninodes && m != n ensures Holds(g, st2, m, Content(g, st, m)) {
      ExtendsHolds(g, st1, st2, m, Content(g, st, m));
    }
  }

  lemma OthersChunk(g: Geometry, st: Store, st1: Store, owner: map<nat, Slot>, n: nat, off: nat, data: seq<byte>)
    requires OthersHold(g, st, st1, n) && Owns(g, st1, owner, {}) && n < g.ninodes
    requires off < MAXFILE * BSIZE && off % BSIZE + |data| <= BSIZE && 0 < BlockAt(g, st1, n, off / BSIZE) < g.size
    ensures OthersHold(g, st, PutChunk(g, st1, n, off, data), n)
  {
    forall m: nat | m < g.ninodes && m != n ensures Holds(g, PutChunk(g, st1, n, off, data), m, Content(g, st, m)) {
      ChunkLeavesOthers(g, st1, owner, n, off, data, m, Content(g, st, m));
    }
  }

  function Resize(st: Store, n: nat, size: nat): Store
    requires n < |st.inodes|
  {
    st.(inodes := st.inodes[n := st.inodes[n].(size := size)])
  }

  lemma ResizeHolds(g: Geometry, st: Store, n: nat, size: nat, m: nat, c: seq<byte>)
    requires Holds(g, st, m, c) && n < g.ninodes
    ensures Holds(g, Resize(st, n, size), m, c)
  {
    var st' := Resize(st, n, size);
    assert WellFormed(g, st');
    forall k | 0 <= k < |c| ensures HoldsByte(g, st', m, k, c[k]) {
      assert HoldsByte(g, st, m, k, c[k]);
    }
  }

  lemma ResizeOwns(g: Geometry, st: Store, owner: map<nat, Slot>, n: nat, size: nat)
    requires Owns(g, st, owner, {}) && n < g.ninodes
    ensures Owns(g, Resize(st, n, size), owner, {})
  {
    var st' := Resize(st, n, size);
    assert WellFormed(g, st');
    assert forall s :: IsSlot(g, s) ==> At(g, st', s) == At(g, st, s);
    Reassign(g, st, st', owner, {}, {});
  }

  // What writei leaves behind once it has set the size.
  lemma Finished(g: Geometry, st0: Store, st: Store, n: nat, c: seq<byte>, off: nat, src: seq<byte>, tot: nat,
                 size: nat)
    requires n < g.ninodes && Progress(g, st0, st, n, c, off, src, tot) && WellFormed(g, st0) && WellFormed(g, st)
    requires size == |Splice(c, off, src[..tot])|
    ensures var st' := Resize(st, n, size);
      && WellFormed(g, st') && NoHoles(g, st')
      && Content(g, st', n) == Splice(c, off, src[..tot])
      && forall m: nat :: m < g.ninodes && m != n ==> Content(g, st', m) == Content(g, st0, m)
  {
    var st' := Resize(st, n, size);
    forall m: nat | m < g.ninodes
      ensures NoHole(g, st', m)
      ensures Content(g, st', m) == if m == n then Splice(c, off, src[..tot]) else Content(g, st0, m)
    {
      var cm := if m == n then Splice(c, off, src[..tot]) else Content(g, st0, m);
      ResizeHolds(g, st, n, size, m, cm);
      ContentHolds(g, st', m, cm);
    }
  }

  lemma Started(g: Geometry, st: Store, owner: map<nat, Slot>, n: nat, off: nat, src: seq<byte>)
    requires Owns(g, st, owner, {}) && NoHoles(g, st) && n < g.ninodes
    requires off <= st.inodes[n].size && off + |src| <= MAXFILE * BSIZE
    ensures Progress(g, st, st, n, Content(g, st, n), off, src, 0)
  {
    forall m: nat | m < g.ninodes ensures Holds(g, st, m, Content(g, st, m)) {
      HoldsContent(g, st, owner, m);
    }
    var c := Content(g, st, n);
    assert src[..0] == [] && Splice(c, off, []) == c;
  }

  // ----- truncation -----

  // Blocks outside the metadata are untouched.
  ghost predicate SameData(g: Geometry, a: seq<Block>, b: seq<Block>) {
    |a| == |b| && forall i :: g.nmeta <= i < |a| ==> a[i] == b[i]
  }

  // A file whose inode and whose blocks are untouched.
  lemma FileUntouched(g: Geometry, st: Store, st': Store, owner: map<nat, Slot>, n: nat)
    requires Owns(g, st, owner, {}) && WellFormed(g, st') && SameData(g, st.blocks, st'.blocks)
    requires n < g.ninodes && st'.inodes[n] == st.inodes[n] && NoHole(g, st, n)
    ensures NoHole(g, st', n) && Content(g, st', n) == Content(g, st, n)
  {
    var c := Content(g, st, n);
    HoldsContent(g, st, owner, n);
    assert At(g, st, Indirect(n)) == st.inodes[n].addrs[NDIRECT];
    forall k | 0 <= k < |c| ensures HoldsByte(g, st', n, k, c[k]) {
      assert HoldsByte(g, st, n, k, c[k]);
      assert IsSlot(g, SlotOf(n, k / BSIZE));
    }
    ContentHolds(g, st', n, c);
  }

  // A direct block is freed and its slot cleared.
  lemma FreeDirect(g: Geometry, st: Store, owner: map<nat, Slot>, n: nat, i: nat)
    requires Owns(g, st, owner, {}) && n < g.ninodes && i < NDIRECT && st.inodes[n].addrs[i] != 0
    ensures var b := st.inodes[n].addrs[i];
      && b < g.size && Used(g, st.blocks, b) && Bblock(g, b) < g.nmeta
      && Owns(g, Store(SetFree(g, st.blocks, b), PutAddr(st, n, i, 0).inodes), owner - {b}, {})
  {
    var b := st.inodes[n].addrs[i];
    var st1 := PutAddr(st, n, i, 0);
    assert At(g, st, Direct(n, i)) == b;
    assert WellFormed(g, st1);
    Detach(g, st, st1, owner, {}, {b});
    assert {} + {b} == {b} && {b} - {b} == {};
    Release(g, st1, owner - {b}, {b}, b);
    BblockIsMeta(g, b);
  }

  // The blocks listed in an indirect block from word `j` on.
  function ListedFrom(b: Block, j: nat): set<nat> {
    set k: nat | j <= k < NINDIRECT && Word(b, k) != 0 :: Word(b, k)
  }

  ghost predicate DistinctWords(b: Block) {
    forall i, k :: 0 <= i < k < NINDIRECT && Word(b, i) != 0 ==> Word(b, i) != Word(b, k)
  }

  // Forgetting the indirect block of file `n` puts it and the blocks it lists in transit.
  lemma DetachIndirect(g: Geometry, st: Store, owner: map<nat, Slot>, n: nat)
    requires Owns(g, st, owner, {}) && n < g.ninodes && st.inodes[n].addrs[NDIRECT] != 0
    ensures var ind := st.inodes[n].addrs[NDIRECT];
      var gone := ListedFrom(st.blocks[ind], 0) + {ind};
      && gone <= owner.Keys && ind !in ListedFrom(st.blocks[ind], 0)
      && Owns(g, PutAddr(st, n, NDIRECT, 0), owner - gone, gone)
      && DistinctWords(st.blocks[ind])
  {
    var ind := st.inodes[n].addrs[NDIRECT];
    var st1 := PutAddr(st, n, NDIRECT, 0);
    var gone := ListedFrom(st.blocks[ind], 0) + {ind};
    assert At(g, st, Indirect(n)) == ind;
    assert WellFormed(g, st1);
    forall j: nat | j < NINDIRECT && Word(st.blocks[ind], j) != 0
      ensures Word(st.blocks[ind], j) in owner && owner[Word(st.blocks[ind], j)] == Listed(n, j)
    {
      assert At(g, st, Listed(n, j)) == Word(st.blocks[ind], j);
    }
    forall s | IsSlot(g, s) ensures At(g, st1, s) == if At(g, st, s) in gone then 0 else At(g, st, s) {
      if s.Listed? && s.inum == n && At(g, st, s) != 0 {
        assert At(g, st, s) in ListedFrom(st.blocks[ind], 0);
      }
    }
    Detach(g, st, st1, owner, {}, gone);
    assert {} + gone == gone;
  }

  lemma ListedNext(b: Block, j: nat)
    requires j < NINDIRECT
    requires DistinctWords(b)
    ensures ListedFrom(b, j + 1) == if Word(b, j) == 0 then ListedFrom(b, j) else ListedFrom(b, j) - {Word(b, j)}
    ensures Word(b, j) != 0 ==> Word(b, j) in ListedFrom(b, j)
  {
    var w := Word(b, j);
    assert forall x :: x in ListedFrom(b, j) ==> x in ListedFrom(b, j + 1) || x == w;
    assert w != 0 ==> w !in ListedFrom(b, j + 1);
  }

  lemma ListedEnd(b: Block)
    ensures ListedFrom(b, NINDIRECT) == {}
  {
  }

  lemma FreedFramed(g: Geometry, blocks: seq<Block>, lg: set<nat>, b: nat)
    requires GoodGeometry(g) && |blocks| == g.size && b < g.size && Bblock(g, b) < g.size
    ensures Framed(g, blocks, lg, SetFree(g, blocks, b), lg + {Bblock(g, b)})
  {
    OneFramed(g, blocks, lg, Bblock(g, b), ClearBit(blocks[Bblock(g, b)], b % BPB));
  }

  // ----- inodes on disk -----

  // Until iupdate, the disk's inodes are as they were.
  lemma FramedSync(g: Geometry, st0: Store, st: Store, n: nat, lg0: set<nat>, lg: set<nat>)
    requires Synced(g, st0) && WellFormed(g, st) && SameSizes(st0, st, n) && n < g.ninodes
    requires Framed(g, st0.blocks, lg0, st.blocks, lg)
    ensures SyncedBut(g, st, n)
  {
    forall m: nat | m < g.ninodes && m != n ensures InSync(g, st, m) {
      IblockIsMeta(g, m);
      assert InSync(g, st0, m);
    }
  }

  lemma ResizeSync(g: Geometry, st: Store, n: nat, size: nat)
    requires SyncedBut(g, st, n) && n < g.ninodes
    ensures SyncedBut(g, Resize(st, n, size), n)
  {
    var st' := Resize(st, n, size);
    forall m: nat | m < g.ninodes && m != n ensures InSync(g, st', m) { assert InSync(g, st, m); }
  }

  lemma Fits32(g: Geometry, st: Store, n: nat)
    requires GoodGeometry(g) && WellFormed(g, st) && n < g.ninodes && NoHole(g, st, n)
    ensures Storable(st.inodes[n])
  {
    assert GoodInode(g, st.inodes[n]);
  }

  // Writing an inode block disturbs no file.
  lemma UpdatedKeeps(g: Geometry, st: Store, owner: map<nat, Slot>, n: nat)
    requires Owns(g, st, owner, {}) && NoHoles(g, st) && n < g.ninodes && Storable(st.inodes[n])
    requires g.inodestart <= Iblock(g, n) < g.bmapstart
    ensures var st' := Updated(g, st, n);
      && Owns(g, st', owner, {}) && NoHoles(g, st')
      && forall m: nat :: m < g.ninodes ==> Content(g, st', m) == Content(g, st, m)
  {
    var st' := Updated(g, st, n);
    SameSlots(g, st, st', owner, {});
    forall c: nat | c < g.size ensures Used(g, st'.blocks, c) <==> Used(g, st.blocks, c) { BblockIsMeta(g, c); }
    Reassign(g, st, st', owner, {}, {});
    forall m: nat | m < g.ninodes ensures NoHole(g, st', m) && Content(g, st', m) == Content(g, st, m) {
      FileUntouched(g, st, st', owner, m);
    }
  }

  lemma IupdateLogged(g: Geometry, b0: seq<Block>, lg0: set<nat>, b1: seq<Block>, lg1: set<nat>, n: nat, data: Block)
    requires Framed(g, b0, lg0, b1, lg1) && g.inodestart <= Iblock(g, n) < g.bmapstart <= |b0|
    ensures Logged(b0, lg0, b1[Iblock(g, n) := data], lg1 + {Iblock(g, n)}, g.inodestart)
  {
    var ib := Iblock(g, n);
    forall b: nat | b < |b0| && b !in lg1 + {ib} ensures b1[ib := data][b] == b0[b] { assert b !in lg1; }
  }
}
