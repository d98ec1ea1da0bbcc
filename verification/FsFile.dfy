/**
 Open files on inodes: file.c's read, one of the transactions that a write is cut
 into, and sys_lseek, which sets the offset to anything.
 */
module FsFile {
  import opened Bytes
  import opened FsBitmap
  import opened FsOwnership
  import opened FsContent
  import opened FsInode
  import LogProtocol

  // Bytes filewrite writes per transaction.
  const MAXWRITE: nat := ((LogProtocol.MAXOPBLOCKS - 1 - 1 - 2) / 2) * BSIZE

  const UINT: nat := 0x1_0000_0000

  datatype Whence = Set | Cur | End | Other

  // A 32-bit int converted to unsigned.
  function Unsigned(n: int): nat
    requires -0x8000_0000 <= n < 0x8000_0000
  {
    if n < 0 then n + UINT else n
  }

  /** One filewrite transaction logs fewer than MAXOPBLOCKS distinct blocks, wherever it starts. */
  lemma ChunkWithinBudget(g: Geometry, off: nat, n: nat)
    requires GoodGeometry(g) && g.size <= BPB && n <= MAXWRITE
    ensures |BitmapBlocks(g)| + 2 + Spanned(off, n) <= 7 < LogProtocol.MAXOPBLOCKS
  {
    OneBitmapBlock(g);
  }

  class File {
    const inum: nat
    const readable: bool
    const writable: bool
    var off: nat

    constructor (inum: nat, readable: bool, writable: bool)
      ensures this.inum == inum && this.readable == readable && this.writable == writable && off == 0
    {
      this.inum, this.readable, this.writable, off := inum, readable, writable, 0;
    }
  }

  /** fileread: the bytes at the file's offset, which advances over them; outside any transaction. */
  method FileRead(fs: Fs, f: File, n: int, room: nat) returns (r: int, dst: seq<byte>)
    requires fs.Valid() && f.inum < fs.g.ninodes && f.off < UINT && -0x8000_0000 <= n < 0x8000_0000
    modifies fs`blocks, fs`inodes, fs`owner, fs`logged, f`off
    ensures fs.Valid() && fs.St() == old(fs.St()) && fs.logged == old(fs.logged) && f.off < UINT
    ensures !f.readable ==> r == -1 && f.off == old(f.off)
    ensures r >= -1 && f.off == old(f.off) + if r > 0 then r else 0
    ensures f.readable ==>
      var c, u := Content(fs.g, fs.St(), f.inum), if n < 0 then n + 0x1_0000_0000 else n;
      && (old(f.off) <= |c| && old(f.off) + u < 0x1_0000_0000 ==>
        var k := if u <= |c| - old(f.off) then u else |c| - old(f.off);
        if k > room then r == -1 else r == k && dst == c[old(f.off)..f.off])
      && (old(f.off) > |c| || old(f.off) + u >= 0x1_0000_0000 ==> r == 0 && dst == [])
  {
    if !f.readable {
      return -1, [];
    }
    FileFits(fs, f.inum);
    r, dst := fs.Readi(f.inum, f.off, Unsigned(n), room);
    if r > 0 {
      f.off := f.off + r;
    }
  }

  /** sys_lseek: any 32-bit offset can result, beyond the end of the file too. */
  method Lseek(fs: Fs, f: File, offset: int, whence: Whence) returns (r: int)
    requires f.inum < |fs.inodes| && f.off < UINT && -0x8000_0000 <= offset < 0x8000_0000
    modifies f`off
    ensures f.off < UINT && r == if f.readable && f.writable && !whence.Other? then f.off else -1
    ensures r == -1 ==> f.off == old(f.off)
    ensures f.readable && f.writable && whence.Set? ==> f.off == Unsigned(offset)
    ensures f.readable && f.writable && whence.Cur? ==> f.off == (old(f.off) + offset) % UINT
    ensures f.readable && f.writable && whence.End? ==> f.off == (fs.inodes[f.inum].size + offset) % UINT
  {
    if !f.readable || !f.writable {
      return -1;
    }
    match whence {
      case Set => f.off := offset % UINT;
      case Cur => f.off := (f.off + offset) % UINT;
      case End => f.off := (fs.inodes[f.inum].size + offset) % UINT;
      case Other => return -1;
    }
    r := f.off;
  }

  // A file's content once the first `done` bytes of `src` are in place at `off`.
  function Overwritten(c: seq<byte>, off: nat, src: seq<byte>, done: nat): seq<byte>
    requires done <= |src|
  {
    if done == 0 || off > |c| then c else Splice(c, off, src[..done])
  }

  lemma OverwrittenMore(c: seq<byte>, off: nat, src: seq<byte>, i: nat, n1: nat, r: nat)
    requires i + n1 <= |src| && r <= n1 && (i > 0 ==> off <= |c|)
    requires r > 0 ==> off + i <= |Overwritten(c, off, src, i)|
    ensures r > 0 ==> off <= |c|
    ensures Overwritten(Overwritten(c, off, src, i), off + i, src[i..i + n1], r) == Overwritten(c, off, src, i + r)
  {
    var part := src[i..i + n1];
    if r > 0 {
      assert src[..i + r] == src[..i] + part[..r];
      if i > 0 {
        SpliceAgain(c, off, src[..i], part[..r]);
      } else {
        assert src[..r] == part[..r];
      }
    }
  }

  // How far a write has come: the file holds the first `done` bytes of `src` at `off`.
  ghost predicate Written(g: Geometry, st0: Store, st: Store, n: nat, off: nat, src: seq<byte>, done: nat) {
    && WellFormed(g, st0) && WellFormed(g, st) && n < g.ninodes && done <= |src|
    && (done > 0 ==> off <= |Content(g, st0, n)|)
    && Content(g, st, n) == Overwritten(Content(g, st0, n), off, src, done)
    && forall m: nat :: m < g.ninodes && m != n ==> Content(g, st, m) == Content(g, st0, m)
  }

  lemma FileFits(fs: Fs, n: nat)
    requires fs.Valid() && n < fs.g.ninodes
    ensures |Content(fs.g, fs.St(), n)| <= MAXFILE * BSIZE < UINT
  {
    assert NoHole(fs.g, fs.St(), n);
  }

  // begin_op and writei of the `n1` bytes of `src` from `i` on.
  method WriteLogged(fs: Fs, inum: nat, off: nat, src: seq<byte>, i: nat, n1: nat, avail: nat)
    returns (r: int, ghost k: nat)
    requires fs.Valid() && inum < fs.g.ninodes && off < UINT && n1 <= MAXWRITE && i + n1 <= |src|
    modifies fs`blocks, fs`inodes, fs`owner, fs`logged
    ensures fs.Valid() && -1 <= r <= n1 && k == if r > 0 then r else 0
    ensures PartWritten(fs.g, old(fs.St()), fs.St(), inum, off, src, i, n1, k)
    ensures off + k < UINT
    ensures fs.g.size <= BPB ==> |fs.logged| < LogProtocol.MAXOPBLOCKS
    ensures Logged(old(fs.blocks), {}, fs.blocks, fs.logged, fs.g.inodestart)
  {
    var part := src[i..i + n1];
    fs.logged := {};
    r := fs.Writei(inum, off, part, avail);
    k := if r > 0 then r else 0;
    assert fs.logged - {} == fs.logged;
    if fs.g.size <= BPB {
      ChunkWithinBudget(fs.g, off, |part|);
    }
    if r == 0 {
      NothingWritten(old(Content(fs.g, fs.St(), inum)), off, part);
    }
  }

  // The first `k` of the `n1` bytes of `src` from `i` on are in place at `off`.
  ghost predicate PartWritten(g: Geometry, st0: Store, st: Store, n: nat, off: nat, src: seq<byte>, i: nat, n1: nat,
                              k: nat) {
    i + n1 <= |src| && Written(g, st0, st, n, off, src[i..i + n1], k)
  }

  lemma NothingWritten(c: seq<byte>, off: nat, part: seq<byte>)
    requires off <= |c|
    ensures Splice(c, off, part[..0]) == c
  {
    assert part[..0] == [];
  }

  // Consecutive transactions add up.
  lemma WrittenMore(g: Geometry, st0: Store, st1: Store, st2: Store, n: nat, off: nat, src: seq<byte>, i: nat, n1: nat,
                    r: nat)
    requires Written(g, st0, st1, n, off, src, i) && PartWritten(g, st1, st2, n, off + i, src, i, n1, r)
    ensures Written(g, st0, st2, n, off, src, i + r)
  {
    OverwrittenMore(Content(g, st0, n), off, src, i, n1, r);
  }

  // One transaction of filewrite, `i` bytes into `src`.
  method WriteTransaction(fs: Fs, inum: nat, src: seq<byte>, i: nat, n1: nat, avail: nat, ghost st0: Store, off: nat)
    returns (r: int, ghost done: nat)
    requires fs.Valid() && inum < fs.g.ninodes && off + i < UINT
    requires Written(fs.g, st0, fs.St(), inum, off, src, i) && 0 < n1 <= MAXWRITE && i + n1 <= |src|
    modifies fs`blocks, fs`inodes, fs`owner, fs`logged
    ensures fs.Valid() && off + done < UINT && -1 <= r <= n1 && done == if r > 0 then i + r else i
    ensures Written(fs.g, st0, fs.St(), inum, off, src, done)
    ensures fs.g.size <= BPB ==> |fs.logged| < LogProtocol.MAXOPBLOCKS
    ensures Logged(old(fs.blocks), {}, fs.blocks, fs.logged, fs.g.inodestart)
  {
    ghost var st1 := fs.St();
    ghost var k;
    r, k := WriteLogged(fs, inum, off + i, src, i, n1, avail);
    done := i + k;
    WrittenMore(fs.g, st0, st1, fs.St(), inum, off, src, i, n1, k);
  }
}
