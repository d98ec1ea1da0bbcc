/**
 The file system as a reader of the raw disk finds it: 64-byte inodes from block
 `inodestart` on, with the size at byte 8 and eleven block addresses from byte 12
 on, the last of them an indirect block, and one bit for each block from block
 `bmapstart` on.
 */
module FsLayout {
  import opened Bytes
  import opened FsBitmap
  import opened FsOwnership
  import opened FsDinode
  import opened FsContent

  // Four bytes, the lowest first.
  function Long(b: Block, at: nat): nat
    requires at + 4 <= 1024
  {
    var b0: int, b1: int, b2: int, b3: int := b[at], b[at + 1], b[at + 2], b[at + 3];
    b0 + 256 * b1 + 65536 * b2 + 16777216 * b3
  }

  // A field of inode `n`.
  function Field(g: Geometry, blocks: seq<Block>, n: nat, at: nat): nat
    requires g.inodestart + n / 16 < |blocks| && at + 4 <= 64
  {
    Long(blocks[g.inodestart + n / 16], 64 * (n % 16) + at)
  }

  // The block that holds the bn-th block of file `n`, 0 for none.
  function RawBlock(g: Geometry, blocks: seq<Block>, n: nat, bn: nat): nat
    requires g.inodestart + n / 16 < |blocks| && bn < 266
  {
    if bn < 10 then Field(g, blocks, n, 12 + 4 * bn)
    else var ind := Field(g, blocks, n, 52); if 0 < ind < |blocks| then Long(blocks[ind], 4 * (bn - 10)) else 0
  }

  lemma RawInode(g: Geometry, st: Store, n: nat, i: nat)
    requires Synced(g, st) && n < g.ninodes && i <= 10
    ensures g.inodestart + n / 16 < |st.blocks|
    ensures st.inodes[n].size == Field(g, st.blocks, n, 8)
    ensures st.inodes[n].addrs[i] == Field(g, st.blocks, n, 12 + 4 * i)
  {
    IblockIsMeta(g, n);
    assert InSync(g, st, n);
    var b := st.blocks[Iblock(g, n)];
    assert st.inodes[n].addrs[i] == AddrAt(b, n % IPB, i);
  }

  lemma RawBlockIsBlock(g: Geometry, st: Store, n: nat, bn: nat)
    requires Synced(g, st) && n < g.ninodes && bn < 266
    ensures g.inodestart + n / 16 < |st.blocks| && RawBlock(g, st.blocks, n, bn) == BlockAt(g, st, n, bn)
  {
    RawInode(g, st, n, if bn < 10 then bn else 10);
  }

  /**
   The content of every file can be read off the raw disk: as many bytes as the size
   field says, each in the block that the address fields lead to.
   */
  lemma FileOnDisk(g: Geometry, st: Store, owner: map<nat, Slot>, n: nat, k: nat)
    requires Owns(g, st, owner, {}) && Synced(g, st) && n < g.ninodes && NoHole(g, st, n)
    ensures g.inodestart + n / 16 < |st.blocks| && |Content(g, st, n)| == Field(g, st.blocks, n, 8) <= 266 * 1024
    ensures k < |Content(g, st, n)| ==> var b := RawBlock(g, st.blocks, n, k / 1024);
      0 < b < |st.blocks| && Content(g, st, n)[k] == st.blocks[b][k % 1024]
  {
    RawInode(g, st, n, 0);
    if k < |Content(g, st, n)| {
      HoldsContent(g, st, owner, n);
      assert HoldsByte(g, st, n, k, Content(g, st, n)[k]);
      RawBlockIsBlock(g, st, n, k / 1024);
    }
  }

  /** And so can which blocks are in use: bit b % 8 of byte b % 8192 / 8 of block bmapstart + b / 8192. */
  lemma BitOnDisk(g: Geometry, blocks: seq<Block>, b: nat)
    requires GoodGeometry(g) && |blocks| == g.size && b < g.size
    ensures g.bmapstart + b / 8192 < |blocks|
    ensures Used(g, blocks, b) <==> BitSet(blocks[g.bmapstart + b / 8192][b % 8192 / 8], b % 8)
  {
    BblockIsMeta(g, b);
    BitInBlock(b);
  }

  lemma BitInBlock(b: nat)
    ensures b % 8192 % 8 == b % 8
  {
    assert b == 8 * (1024 * (b / 8192)) + b % 8192;
  }
}
