/**
 The on-disk inode: 64 bytes, of which words 2 to 13 are the size and the block
 addresses.  The first two words (type, device numbers, link count) and the last two
 (mode and padding) are left as they are.
 */
module FsDinode {
  import opened Bytes
  import opened FsBitmap
  import opened FsOwnership

  const DWORDS: nat := 16

  // What the 32-bit fields of a dinode can hold.
  predicate Storable(ip: Inode) {
    && ip.size < 0x1_0000_0000 && |ip.addrs| == NDIRECT + 1
    && forall i :: 0 <= i < |ip.addrs| ==> ip.addrs[i] < 0x1_0000_0000
  }

  // The k-th inode of an inode block.
  function DinodeAt(b: Block, k: nat): Inode
    requires k < IPB
  {
    Inode(Word(b, DWORDS * k + 2), seq<nat>(NDIRECT + 1, i requires 0 <= i < NDIRECT + 1 => AddrAt(b, k, i)))
  }

  function AddrAt(b: Block, k: nat, i: nat): nat
    requires k < IPB && i < NDIRECT + 1
  {
    Word(b, DWORDS * k + 3 + i)
  }

  // The first `n` of the words `ws` stored from word `at` on.
  function PutWords(b: Block, at: nat, ws: seq<nat>, n: nat): Block
    requires n <= |ws| && at + |ws| <= WORDS && forall i :: 0 <= i < |ws| ==> ws[i] < 0x1_0000_0000
  {
    if n == 0 then b else PutWord(PutWords(b, at, ws, n - 1), at + n - 1, ws[n - 1])
  }

  lemma {:induction false} WordOfPutWords(b: Block, at: nat, ws: seq<nat>, n: nat, j: nat)
    requires n <= |ws| && at + |ws| <= WORDS && (forall i :: 0 <= i < |ws| ==> ws[i] < 0x1_0000_0000) && j < WORDS
    ensures Word(PutWords(b, at, ws, n), j) == if at <= j < at + n then ws[j - at] else Word(b, j)
  {
    if n > 0 {
      WordOfPutWords(b, at, ws, n - 1, j);
      WordOfPutWord(PutWords(b, at, ws, n - 1), at + n - 1, ws[n - 1], j);
    }
  }

  // The inode block once the k-th inode is stored in it.
  function PutDinode(b: Block, k: nat, ip: Inode): Block
    requires k < IPB && Storable(ip)
  {
    PutWords(PutWord(b, DWORDS * k + 2, ip.size), DWORDS * k + 3, ip.addrs, |ip.addrs|)
  }

  lemma WordOfPutDinode(b: Block, k: nat, ip: Inode, j: nat)
    requires k < IPB && Storable(ip) && j < WORDS
    ensures Word(PutDinode(b, k, ip), j) ==
      if j == DWORDS * k + 2 then ip.size
      else if DWORDS * k + 3 <= j < DWORDS * k + 14 then ip.addrs[j - (DWORDS * k + 3)]
      else Word(b, j)
  {
    WordOfPutWords(PutWord(b, DWORDS * k + 2, ip.size), DWORDS * k + 3, ip.addrs, |ip.addrs|, j);
    WordOfPutWord(b, DWORDS * k + 2, ip.size, j);
  }

  lemma AddrOfPutDinode(b: Block, k: nat, ip: Inode, j: nat, i: nat)
    requires k < IPB && j < IPB && Storable(ip) && i < NDIRECT + 1
    ensures AddrAt(PutDinode(b, k, ip), j, i) == if j == k then ip.addrs[i] else AddrAt(b, j, i)
  {
    WordOfPutDinode(b, k, ip, DWORDS * j + 3 + i);
  }

  lemma SizeOfPutDinode(b: Block, k: nat, ip: Inode, j: nat)
    requires k < IPB && j < IPB && Storable(ip)
    ensures DinodeAt(PutDinode(b, k, ip), j).size == if j == k then ip.size else DinodeAt(b, j).size
  {
    WordOfPutDinode(b, k, ip, DWORDS * j + 2);
  }

  /** What iupdate stores is what ilock reads back, and the block's other inodes are as they were. */
  lemma DinodeRoundTrip(b: Block, k: nat, ip: Inode, j: nat)
    requires k < IPB && j < IPB && Storable(ip)
    ensures DinodeAt(PutDinode(b, k, ip), j) == if j == k then ip else DinodeAt(b, j)
  {
    var b' := PutDinode(b, k, ip);
    SizeOfPutDinode(b, k, ip, j);
    var addrs := if j == k then ip.addrs else DinodeAt(b, j).addrs;
    forall i | 0 <= i < NDIRECT + 1 ensures DinodeAt(b', j).addrs[i] == addrs[i] {
      AddrOfPutDinode(b, k, ip, j, i);
    }
    assert DinodeAt(b', j).addrs == addrs;
  }

  // The inode `n` as the disk has it.
  function OnDisk(g: Geometry, blocks: seq<Block>, n: nat): Inode
    requires Iblock(g, n) < |blocks|
  {
    DinodeAt(blocks[Iblock(g, n)], n % IPB)
  }

  // The inodes in memory are those on disk, but for inode `except`.
  ghost predicate SyncedBut(g: Geometry, st: Store, except: nat) {
    && GoodGeometry(g) && WellFormed(g, st)
    && forall n: nat :: n < g.ninodes && n != except ==> InSync(g, st, n)
  }

  ghost predicate InSync(g: Geometry, st: Store, n: nat)
    requires n < |st.inodes|
  {
    Iblock(g, n) < |st.blocks| && OnDisk(g, st.blocks, n) == st.inodes[n]
  }

  ghost predicate Synced(g: Geometry, st: Store) {
    SyncedBut(g, st, g.ninodes)
  }

  lemma IblockIsMeta(g: Geometry, n: nat)
    requires GoodGeometry(g) && n < g.ninodes
    ensures g.inodestart <= Iblock(g, n) < g.bmapstart
  {
    assert n / IPB <= g.ninodes / IPB;
  }

  // The store once inode `n` is written to its block.
  function Updated(g: Geometry, st: Store, n: nat): Store
    requires n < |st.inodes| && Iblock(g, n) < |st.blocks| && Storable(st.inodes[n])
  {
    st.(blocks := st.blocks[Iblock(g, n) := PutDinode(st.blocks[Iblock(g, n)], n % IPB, st.inodes[n])])
  }

  lemma UpdatedInSync(g: Geometry, st: Store, n: nat)
    requires SyncedBut(g, st, n) && n < g.ninodes && Iblock(g, n) < g.size && Storable(st.inodes[n])
    ensures Synced(g, Updated(g, st, n))
  {
    var st' := Updated(g, st, n);
    forall m: nat | m < g.ninodes ensures InSync(g, st', m) {
      IblockIsMeta(g, m);
      if Iblock(g, m) == Iblock(g, n) {
        DinodeRoundTrip(st.blocks[Iblock(g, n)], n % IPB, st.inodes[n], m % IPB);
        SameInode(m, n);
      }
      if m != n { assert InSync(g, st, m); }
    }
  }

  lemma SameInode(m: nat, n: nat)
    requires m / IPB == n / IPB
    ensures m % IPB == n % IPB <==> m == n
  {
    assert m == IPB * (m / IPB) + m % IPB && n == IPB * (n / IPB) + n % IPB;
  }
}
