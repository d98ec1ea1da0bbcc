/**
 The file system over the log: filewrite and truncation with begin_op and end_op
 around each transaction, one call at a time.  Wherever the machine stops, the log on
 disk replays to the block map after a whole number of transactions, and the file
 system found there is consistent.
 */
module FsCrash {
  import opened Common
  import opened Bytes
  import opened FsBitmap
  import opened FsOwnership
  import opened FsDinode
  import opened FsContent
  import opened FsInode
  import opened FsFile
  import opened LogDevice
  import LP = LogProtocol

  // ----- what is on a disk -----

  // The store a disk holds: its blocks, and the inodes in its inode blocks.
  ghost function StoreOn(g: Geometry, d: seq<Block>): Store
    requires GoodGeometry(g) && |d| == g.size
  {
    Store(d, seq(g.ninodes, n requires 0 <= n < g.ninodes => (IblockIsMeta(g, n); OnDisk(g, d, n))))
  }

  // Every set bit is accounted for by metadata or one slot, and every block below the end of a file is mapped.
  ghost predicate Consistent(g: Geometry, d: seq<Block>) {
    && GoodGeometry(g) && |d| == g.size
    && exists owner :: Owns(g, StoreOn(g, d), owner, {}) && NoHoles(g, StoreOn(g, d))
  }

  lemma SyncedStore(g: Geometry, st: Store)
    requires Synced(g, st)
    ensures StoreOn(g, st.blocks) == st
  {
    forall n: nat | n < g.ninodes ensures StoreOn(g, st.blocks).inodes[n] == st.inodes[n] {
      IblockIsMeta(g, n);
      assert InSync(g, st, n);
    }
    assert StoreOn(g, st.blocks).inodes == st.inodes;
  }

  function LayoutOf(g: Geometry): LP.Layout {
    LP.Layout(g.logstart, g.nlog)
  }

  // Every block from the inode blocks on lies outside the log.
  lemma HomeBlocks(g: Geometry, d: seq<Block>, b: nat)
    requires GoodGeometry(g) && g.inodestart <= b < |d|
    ensures LP.Home(LayoutOf(g), d, b)
  {
  }

  /** Disks that agree outside the log hold the same files, and are consistent together. */
  lemma SameFiles(g: Geometry, d: seq<Block>, h: seq<Block>)
    requires Consistent(g, h) && LP.SameHome(LayoutOf(g), d, h)
    ensures Consistent(g, d) && StoreOn(g, d).inodes == StoreOn(g, h).inodes
    ensures forall n: nat :: n < g.ninodes ==> Content(g, StoreOn(g, d), n) == Content(g, StoreOn(g, h), n)
  {
    forall b: nat | g.inodestart <= b < g.size ensures d[b] == h[b] { HomeBlocks(g, d, b); }
    SameInodes(g, d, h);
    var owner :| Owns(g, StoreOn(g, h), owner, {}) && NoHoles(g, StoreOn(g, h));
    SameOwners(g, d, h, owner);
  }

  lemma SameInodes(g: Geometry, d: seq<Block>, h: seq<Block>)
    requires GoodGeometry(g) && |d| == |h| == g.size && forall b: nat :: g.inodestart <= b < g.size ==> d[b] == h[b]
    ensures StoreOn(g, d).inodes == StoreOn(g, h).inodes
  {
    forall n: nat | n < g.ninodes ensures StoreOn(g, d).inodes[n] == StoreOn(g, h).inodes[n] { IblockIsMeta(g, n); }
  }

  lemma SameOwners(g: Geometry, d: seq<Block>, h: seq<Block>, owner: map<nat, Slot>)
    requires GoodGeometry(g) && |d| == |h| == g.size && forall b: nat :: g.inodestart <= b < g.size ==> d[b] == h[b]
    requires StoreOn(g, d).inodes == StoreOn(g, h).inodes
    requires Owns(g, StoreOn(g, h), owner, {}) && NoHoles(g, StoreOn(g, h))
    ensures Owns(g, StoreOn(g, d), owner, {}) && NoHoles(g, StoreOn(g, d))
    ensures forall n: nat :: n < g.ninodes ==> Content(g, StoreOn(g, d), n) == Content(g, StoreOn(g, h), n)
  {
    var st, st' := StoreOn(g, h), StoreOn(g, d);
    SameSlots(g, st, st', owner, {});
    forall c: nat | c < g.size ensures Used(g, st'.blocks, c) <==> Used(g, st.blocks, c) { BblockIsMeta(g, c); }
    Reassign(g, st, st', owner, {}, {});
    forall n: nat | n < g.ninodes ensures NoHole(g, st', n) && Content(g, st', n) == Content(g, st, n) {
      FileUntouched(g, st, st', owner, n);
    }
  }

  // ----- the log between calls -----

  // The log is empty, and the disk holds the block map `home`.
  ghost predicate Clean(g: Geometry, log: Log, home: seq<Block>)
    reads log, log.block
  {
    && log.Valid() && log.l == LayoutOf(g) && |log.disk| == g.size && log.n == 0 && log.cache == map[]
    && LP.Header(log.disk[log.l.start]) == [] && LP.RecoversTo(log.l, log.disk, home)
  }

  ghost predicate Mounted(fs: Fs, log: Log)
    reads fs, log, log.block
  {
    fs.Valid() && Clean(fs.g, log, fs.blocks)
  }

  // ----- end_op -----

  // The blocks of `done` are listed and pinned with their contents in `blocks`.
  ghost predicate Pinned(list: seq<nat>, cache: map<nat, Block>, blocks: seq<Block>, done: set<nat>) {
    && cache.Keys == done && Elems(list) == done
    && forall b :: b in cache ==> b < |blocks| && cache[b] == blocks[b]
  }

  lemma PinNext(list: seq<nat>, cache: map<nat, Block>, blocks: seq<Block>, done: set<nat>, b: nat)
    requires Pinned(list, cache, blocks, done) && b < |blocks|
    ensures b in list <==> b in done
    ensures b !in done ==> Pinned(list + [b], cache[b := blocks[b]], blocks, done + {b})
  {
    assert Elems(list + [b]) == Elems(list) + {b};
  }

  // log_write of one changed block.
  method PinOne(log: Log, b: nat, blocks: seq<Block>, ghost done: set<nat>) returns (ok: bool)
    requires log.Valid() && Pinned(log.block[..log.n], log.cache, blocks, done)
    requires b !in done && b < |blocks| && LP.Home(log.l, log.disk, b)
    modifies log`n, log`cache, log.block
    ensures log.Valid() && (ok ==> Pinned(log.block[..log.n], log.cache, blocks, done + {b}))
    ensures |done| < LP.LOGSIZE && |done| < log.l.nlog - 1 ==> ok
  {
    ghost var list := log.block[..log.n];
    DistinctSize(list);
    PinNext(list, log.cache, blocks, done, b);
    ok := log.LogWrite(b, blocks[b], 1);
  }

  lemma OneLess(all: set<nat>, todo: set<nat>, b: nat)
    requires todo <= all && b in todo
    ensures all - (todo - {b}) == (all - todo) + {b} && |all - todo| < |all|
  {
    SubsetSize((all - todo) + {b}, all);
    assert b !in all - todo;
  }

  // The log_write calls of a transaction, in any order.
  method PinAll(log: Log, blocks: seq<Block>, logged: set<nat>) returns (ok: bool)
    requires log.Valid() && log.n == 0 && log.cache == map[]
    requires forall b :: b in logged ==> b < |blocks| && LP.Home(log.l, log.disk, b)
    modifies log`n, log`cache, log.block
    ensures log.Valid() && (ok ==> Pinned(log.block[..log.n], log.cache, blocks, logged))
    ensures |logged| <= LP.LOGSIZE && |logged| <= log.l.nlog - 1 ==> ok
  {
    ok := true;
    var todo := logged;
    ghost var done: set<nat> := {};
    assert log.block[..log.n] == [];
    while todo != {}
      invariant log.Valid() && todo <= logged && done == logged - todo
      invariant Pinned(log.block[..log.n], log.cache, blocks, done)
    {
      var b :| b in todo;
      OneLess(logged, todo, b);
      ok := PinOne(log, b, blocks, done);
      if !ok {
        return;
      }
      todo, done := todo - {b}, done + {b};
    }
    assert done == logged;
  }

  // What the transaction makes of the block map is what the log will make of it.
  lemma PinnedApplies(g: Geometry, home: seq<Block>, list: seq<nat>, cache: map<nat, Block>, blocks: seq<Block>,
                      logged: set<nat>)
    requires Logged(home, {}, blocks, logged, g.inodestart) && Pinned(list, cache, blocks, logged)
    ensures Applies(LayoutOf(g), home, list, cache, blocks)
  {
    forall b: nat | LP.Home(LayoutOf(g), home, b) && b !in list ensures blocks[b] == home[b] {
      assert b !in Elems(list);
    }
    forall j | 0 <= j < |list| ensures list[j] in cache && list[j] < |blocks| && blocks[list[j]] == cache[list[j]] {
      assert list[j] in Elems(list);
    }
  }

  lemma LoggedAtHome(g: Geometry, home: seq<Block>, d: seq<Block>, blocks: seq<Block>, logged: set<nat>)
    requires GoodGeometry(g) && |d| == |home| && Logged(home, {}, blocks, logged, g.inodestart)
    ensures forall b :: b in logged ==> b < |blocks| && LP.Home(LayoutOf(g), d, b)
  {
    forall b | b in logged ensures b < |blocks| && LP.Home(LayoutOf(g), d, b) { HomeBlocks(g, d, b); }
  }

  /**
   end_op of the only call: the blocks logged go through the log.  The disks before one
   write still stand for the old block map, from it on for the new one; where log_write
   panics nothing has been written.
   */
  method EndOp(fs: Fs, log: Log, ghost home: seq<Block>) returns (ok: bool, ghost k: nat)
    requires GoodGeometry(fs.g) && |home| == fs.g.size && Clean(fs.g, log, home)
    requires Logged(home, {}, fs.blocks, fs.logged, fs.g.inodestart)
    modifies log, log.block
    ensures log.block == old(log.block)
    ensures |fs.logged| <= LP.LOGSIZE && |fs.logged| <= log.l.nlog - 1 ==> ok
    ensures !ok ==> log.trace == old(log.trace)
    ensures ok ==> Clean(fs.g, log, fs.blocks) && old(log.trace) <= log.trace && |old(log.trace)| <= k <= |log.trace|
    ensures ok ==>
      AllRecoverTo(log.l, log.trace[|old(log.trace)|..k], home) && AllRecoverTo(log.l, log.trace[k..], fs.blocks)
  {
    LoggedAtHome(fs.g, home, log.disk, fs.blocks, fs.logged);
    k := 0;
    ok := PinAll(log, fs.blocks, fs.logged);
    if ok {
      PinnedApplies(fs.g, home, log.block[..log.n], log.cache, fs.blocks, fs.logged);
      k := log.Commit(home, fs.blocks);
      NowClean(fs.g, log, fs.blocks);
    }
  }

  lemma NowClean(g: Geometry, log: Log, h: seq<Block>)
    requires LP.GoodLayout(log.l, log.disk) && LP.GoodHeader(log.l, log.disk) && LP.Header(log.disk[log.l.start]) == []
    requires log.n == 0 && log.cache == map[] && log.block.Length == LP.LOGSIZE && LP.SameHome(log.l, log.disk, h)
    requires log.l == LayoutOf(g) && |log.disk| == g.size
    ensures Clean(g, log, h)
  {
    assert log.block[..log.n] == [];
  }

  // ----- stages -----

  // The block maps before, between and after the transactions of a run, and which of them each disk written stands for.
  datatype Past = Past(homes: seq<seq<Block>>, stage: seq<nat>)

  // Every disk stands for one of the block maps, never for an earlier one than the disk before it did.
  ghost predicate Staged(l: LP.Layout, ds: seq<LP.Disk>, past: Past) {
    && |past.homes| > 0 && |past.stage| == |ds|
    && (forall i :: 0 <= i < |ds| ==> StagedAt(l, ds, past, i))
    && (forall i, j :: 0 <= i < j < |ds| ==> past.stage[i] <= past.stage[j])
  }

  ghost predicate StagedAt(l: LP.Layout, ds: seq<LP.Disk>, past: Past, i: nat)
    requires i < |ds| && |past.stage| == |ds|
  {
    && past.stage[i] < |past.homes| && LP.GoodLayout(l, ds[i]) && LP.GoodHeader(l, ds[i])
    && LP.RecoversTo(l, ds[i], past.homes[past.stage[i]])
  }

  // One transaction more: `a` disks on stay at the last block map, `b` are at the new one.
  function Later(past: Past, h: seq<Block>, a: nat, b: nat): Past
    requires |past.homes| > 0
  {
    var k := |past.homes|;
    Past(past.homes + [h], past.stage + seq<nat>(a, _ => k - 1) + seq<nat>(b, _ => k))
  }

  lemma StageNext(l: LP.Layout, ds: seq<LP.Disk>, past: Past, ds1: seq<LP.Disk>, ds2: seq<LP.Disk>, h: seq<Block>)
    requires Staged(l, ds, past) && AllRecoverTo(l, ds1, past.homes[|past.homes| - 1]) && AllRecoverTo(l, ds2, h)
    ensures Staged(l, ds + ds1 + ds2, Later(past, h, |ds1|, |ds2|))
  {
    var all, past' := ds + ds1 + ds2, Later(past, h, |ds1|, |ds2|);
    forall i | 0 <= i < |all| ensures StagedAt(l, all, past', i) && (i < |ds| ==> past'.stage[i] == past.stage[i]) {
      if i < |ds| { assert StagedAt(l, ds, past, i); }
    }
    forall i, j | 0 <= i < j < |all| ensures past'.stage[i] <= past'.stage[j] {
      if i < |ds| { assert StagedAt(l, ds, past, i); }
    }
  }

  // A run followed by another that starts from the block map it ends with.
  function Then(past: Past, next: Past): Past
    requires |past.homes| > 0 && |next.homes| > 0
  {
    var k := |past.homes| - 1;
    Past(past.homes + next.homes[1..],
         past.stage + seq(|next.stage|, i requires 0 <= i < |next.stage| => k + next.stage[i]))
  }

  lemma StageThen(l: LP.Layout, ds: seq<LP.Disk>, past: Past, ds': seq<LP.Disk>, next: Past)
    requires Staged(l, ds, past) && Staged(l, ds', next) && next.homes[0] == past.homes[|past.homes| - 1]
    ensures Staged(l, ds + ds', Then(past, next))
  {
    var all, both, k := ds + ds', Then(past, next), |past.homes| - 1;
    forall i | 0 <= i < |all| ensures StagedAt(l, all, both, i) {
      if i < |ds| {
        assert StagedAt(l, ds, past, i);
      } else {
        assert StagedAt(l, ds', next, i - |ds|);
      }
    }
    forall i, j | 0 <= i < j < |all| ensures both.stage[i] <= both.stage[j] {
      if i < |ds| { assert StagedAt(l, ds, past, i); }
      if j >= |ds| { assert StagedAt(l, ds', next, j - |ds|); }
    }
  }

  // The disks written since `t0` make up `past`.
  ghost predicate Since(log: Log, t0: nat, past: Past)
    reads log
  {
    t0 <= |log.trace| && Staged(log.l, log.trace[t0..], past)
  }

  function LastHome(past: Past): seq<Block> {
    if |past.homes| > 0 then past.homes[|past.homes| - 1] else []
  }

  // They end with the block map in memory.
  ghost predicate UpTo(fs: Fs, log: Log, t0: nat, past: Past)
    reads fs, log
  {
    Since(log, t0, past) && LastHome(past) == fs.blocks
  }

  lemma NoneSince(log: Log, home: seq<Block>)
    ensures Since(log, |log.trace|, Past([home], []))
  {
    assert log.trace[|log.trace|..] == [];
  }

  lemma Slices<T>(before: seq<T>, now: seq<T>, t0: nat, k: nat)
    requires before <= now && t0 <= |before| <= k <= |now|
    ensures now[t0..] == before[t0..] + now[|before|..k] + now[k..]
    ensures now[t0..] == before[t0..] + now[|before|..]
  {
  }

  // end_op, and the run it makes longer.
  method Conclude(fs: Fs, log: Log, ghost home: seq<Block>, ghost t0: nat, ghost past: Past)
    returns (ok: bool, ghost past': Past)
    requires fs.Valid() && |home| == fs.g.size && Clean(fs.g, log, home)
    requires Logged(home, {}, fs.blocks, fs.logged, fs.g.inodestart)
    requires Since(log, t0, past) && LastHome(past) == home
    modifies log, log.block
    ensures log.block == old(log.block) && old(log.trace) <= log.trace && Since(log, t0, past')
    ensures |fs.logged| < LP.MAXOPBLOCKS < log.l.nlog ==> ok
    ensures ok ==> Clean(fs.g, log, fs.blocks) && past'.homes == past.homes + [fs.blocks]
    ensures !ok ==> past' == past
  {
    ghost var before := log.trace;
    ghost var k;
    ok, k := EndOp(fs, log, home);
    past' := past;
    if ok {
      ghost var now := log.trace;
      ghost var ds1, ds2 := now[|before|..k], now[k..];
      StageNext(log.l, before[t0..], past, ds1, ds2, fs.blocks);
      Slices(before, now, t0, k);
      past' := Later(past, fs.blocks, |ds1|, |ds2|);
    }
  }

  // ----- filewrite -----

  // Block map `h` is consistent, and its file `n` holds the first `done` bytes of `src` at `off`; other files are as in
  // `st0`.
  ghost predicate HoldsPart(g: Geometry, st0: Store, h: seq<Block>, n: nat, off: nat, src: seq<byte>, done: nat) {
    Consistent(g, h) && Written(g, st0, StoreOn(g, h), n, off, src, done)
  }

  // The bytes in `k` full chunks.
  function Chunks(k: nat): nat {
    k * MAXWRITE
  }

  lemma ChunksNext(k: nat)
    ensures Chunks(k + 1) == Chunks(k) + MAXWRITE && Chunks(0) == 0
  {
  }

  // The block maps of a write: each holds a whole number of chunks, but for the last, which holds `done` bytes.
  ghost predicate HoldParts(g: Geometry, st0: Store, homes: seq<seq<Block>>, n: nat, off: nat, src: seq<byte>,
                            done: nat) {
    && |homes| > 0 && homes[0] == st0.blocks
    && forall k :: 0 <= k < |homes| ==> PartAt(g, st0, homes, n, off, src, done, k)
  }

  ghost predicate PartAt(g: Geometry, st0: Store, homes: seq<seq<Block>>, n: nat, off: nat, src: seq<byte>, done: nat,
                         k: nat)
    requires k < |homes|
  {
    HoldsPart(g, st0, homes[k], n, off, src, if k < |homes| - 1 then Chunks(k) else done)
  }

  lemma NextPart(g: Geometry, st0: Store, homes: seq<seq<Block>>, h: seq<Block>, n: nat, off: nat, src: seq<byte>,
                 i: nat, done: nat)
    requires HoldParts(g, st0, homes, n, off, src, i) && i == Chunks(|homes| - 1)
    requires HoldsPart(g, st0, h, n, off, src, done)
    ensures HoldParts(g, st0, homes + [h], n, off, src, done)
  {
    var homes' := homes + [h];
    forall k | 0 <= k < |homes'| ensures PartAt(g, st0, homes', n, off, src, done, k) {
      if k < |homes| { assert PartAt(g, st0, homes, n, off, src, i, k); }
    }
  }

  lemma ValidPart(fs: Fs, st0: Store, n: nat, off: nat, src: seq<byte>, done: nat)
    requires fs.Valid() && Written(fs.g, st0, fs.St(), n, off, src, done)
    ensures HoldsPart(fs.g, st0, fs.blocks, n, off, src, done)
  {
    SyncedStore(fs.g, fs.St());
    assert Owns(fs.g, StoreOn(fs.g, fs.blocks), fs.owner, {});
  }

  // A write of `src` at `off`, started from `st0` when `t0` disk writes had been done, has come to byte `i`.
  ghost predicate Underway(fs: Fs, log: Log, inum: nat, off: nat, src: seq<byte>, i: nat, st0: Store, t0: nat,
                           past: Past)
    reads fs, log, log.block
  {
    && Mounted(fs, log) && UpTo(fs, log, t0, past) && inum < fs.g.ninodes && off + i < UINT
    && Written(fs.g, st0, fs.St(), inum, off, src, i) && HoldParts(fs.g, st0, past.homes, inum, off, src, i)
  }

  lemma Begun(fs: Fs, log: Log, inum: nat, off: nat, src: seq<byte>)
    requires Mounted(fs, log) && inum < fs.g.ninodes && off < UINT
    ensures Underway(fs, log, inum, off, src, 0, fs.St(), |log.trace|, Past([fs.blocks], []))
  {
    ValidPart(fs, fs.St(), inum, off, src, 0);
    var homes := [fs.blocks];
    assert PartAt(fs.g, fs.St(), homes, inum, off, src, 0, 0);
    NoneSince(log, fs.blocks);
  }

  // What a panic leaves: nothing of the transaction is on disk.
  ghost predicate Stopped(fs: Fs, log: Log, inum: nat, off: nat, src: seq<byte>, i: nat, done: nat, st0: Store,
                          t0: nat, past: Past)
    reads fs, log
  {
    && fs.Valid() && off + done < UINT && Written(fs.g, st0, fs.St(), inum, off, src, done)
    && Since(log, t0, past) && HoldParts(fs.g, st0, past.homes, inum, off, src, i)
  }

  // begin_op and writei of the chunk at `i`.
  method WriteAlone(fs: Fs, inum: nat, src: seq<byte>, i: nat, n1: nat, avail: nat, off: nat, ghost st0: Store,
                    ghost homes: seq<seq<Block>>)
    returns (r: int, ghost done: nat)
    requires fs.Valid() && inum < fs.g.ninodes && off + i < UINT && 0 < n1 <= MAXWRITE && i + n1 <= |src|
    requires Written(fs.g, st0, fs.St(), inum, off, src, i)
    requires HoldParts(fs.g, st0, homes, inum, off, src, i) && i == Chunks(|homes| - 1)
    modifies fs`blocks, fs`inodes, fs`owner, fs`logged
    ensures fs.Valid() && off + done < UINT && -1 <= r <= n1 && done == if r > 0 then i + r else i
    ensures Written(fs.g, st0, fs.St(), inum, off, src, done)
    ensures HoldParts(fs.g, st0, homes + [fs.blocks], inum, off, src, done)
    ensures Logged(old(fs.blocks), {}, fs.blocks, fs.logged, fs.g.inodestart)
    ensures fs.g.size <= BPB ==> |fs.logged| < LP.MAXOPBLOCKS
  {
    r, done := WriteTransaction(fs, inum, src, i, n1, avail, st0, off);
    ValidPart(fs, st0, inum, off, src, done);
    NextPart(fs.g, st0, homes, fs.blocks, inum, off, src, i, done);
  }

  // The chunk at `i`: begin_op, writei, end_op.
  method WriteChunkLogged(fs: Fs, log: Log, inum: nat, src: seq<byte>, i: nat, n1: nat, avail: nat, off: nat,
                          ghost st0: Store, ghost t0: nat, ghost past: Past)
    returns (ok: bool, r: int, ghost done: nat, ghost past': Past)
    requires Underway(fs, log, inum, off, src, i, st0, t0, past) && i == Chunks(|past.homes| - 1)
    requires 0 < n1 <= MAXWRITE && i + n1 <= |src|
    modifies fs`blocks, fs`inodes, fs`owner, fs`logged, log, log.block
    ensures log.block == old(log.block) && old(log.trace) <= log.trace
    ensures -1 <= r <= n1 && done == if r > 0 then i + r else i
    ensures ok ==> Underway(fs, log, inum, off, src, done, st0, t0, past') && |past'.homes| == |past.homes| + 1
    ensures !ok ==> Stopped(fs, log, inum, off, src, i, done, st0, t0, past')
    ensures fs.g.size <= BPB && LP.MAXOPBLOCKS < fs.g.nlog ==> ok
  {
    ghost var home := fs.blocks;
    r, done := WriteAlone(fs, inum, src, i, n1, avail, off, st0, past.homes);
    ok, past' := Conclude(fs, log, home, t0, past);
  }

  /**
   filewrite: however it is cut into transactions, the effect is that of one write
   at the file's offset.  -1 stands for an incomplete write, of which `done` bytes
   are in the file.  Stop the machine after any of the disk writes: the log found
   there stands for a consistent file system in which the file holds a whole number
   of chunks, and every other file is as it was.  log_write does not panic.
   */
  method FileWrite(fs: Fs, log: Log, f: File, src: seq<byte>, n: int, avail: nat)
    returns (ok: bool, ret: int, ghost done: nat, ghost durable: nat, ghost past: Past)
    requires Mounted(fs, log) && f.inum < fs.g.ninodes && f.off < UINT && n < 0x8000_0000 && (n < 0 || n == |src|)
    modifies fs`blocks, fs`inodes, fs`owner, fs`logged, f`off, log, log.block
    ensures fs.Valid() && f.off < UINT && f.off == old(f.off) + done && log.block == old(log.block)
    ensures Written(fs.g, old(fs.St()), fs.St(), f.inum, old(f.off), src, done)
    ensures old(log.trace) <= log.trace && Since(log, |old(log.trace)|, past)
    ensures HoldParts(fs.g, old(fs.St()), past.homes, f.inum, old(f.off), src, durable)
    ensures ok ==> Mounted(fs, log) && UpTo(fs, log, |old(log.trace)|, past) && durable == done
    ensures ok ==> ret == if f.writable && n >= 0 && done == |src| then n else -1
    ensures fs.g.size <= BPB && LP.MAXOPBLOCKS < fs.g.nlog ==> ok
  {
    ok, ret, done, durable, past := true, -1, 0, 0, Past([fs.blocks], []);
    Begun(fs, log, f.inum, f.off, src);
    if f.writable && n > 0 {
      ok, ret, done, durable, past := WriteLoop(fs, log, f, src, avail);
    } else if f.writable {
      ret := if n == 0 then 0 else -1;
    }
  }

  // One round of filewrite's loop; `full` unless it is the last one, cut short.
  method WriteRound(fs: Fs, log: Log, f: File, src: seq<byte>, i: nat, avail: nat, ghost off: nat, ghost st0: Store,
                    ghost t0: nat, ghost past: Past)
    returns (ok: bool, full: bool, r: int, ghost done: nat, ghost past': Past)
    requires Underway(fs, log, f.inum, off, src, i, st0, t0, past) && i == Chunks(|past.homes| - 1)
    requires i < |src| && f.off == off + i
    modifies fs`blocks, fs`inodes, fs`owner, fs`logged, f`off, log, log.block
    ensures log.block == old(log.block) && old(log.trace) <= log.trace
    ensures f.off == off + done && (full ==> r == done - i)
    ensures ok ==> Underway(fs, log, f.inum, off, src, done, st0, t0, past')
    ensures !ok ==> Stopped(fs, log, f.inum, off, src, i, done, st0, t0, past')
    ensures full ==> ok && i < done <= |src| && (done < |src| ==> done == Chunks(|past'.homes| - 1))
    ensures !full && ok ==> done < |src|
    ensures fs.g.size <= BPB && LP.MAXOPBLOCKS < fs.g.nlog ==> ok
  {
    ChunksNext(|past.homes| - 1);
    var n1 := if |src| - i > MAXWRITE then MAXWRITE else |src| - i;
    ok, r, done, past' := WriteChunkLogged(fs, log, f.inum, src, i, n1, if avail > i then avail - i else 0, f.off - i,
                                           st0, t0, past);
    f.off := if r > 0 then f.off + r else f.off;
    full := ok && r == n1;
  }

  // filewrite's loop.
  method WriteLoop(fs: Fs, log: Log, f: File, src: seq<byte>, avail: nat)
    returns (ok: bool, ret: int, ghost done: nat, ghost durable: nat, ghost past: Past)
    requires Mounted(fs, log) && f.inum < fs.g.ninodes && f.off < UINT && 0 < |src|
    modifies fs`blocks, fs`inodes, fs`owner, fs`logged, f`off, log, log.block
    ensures f.off == old(f.off) + done && log.block == old(log.block) && old(log.trace) <= log.trace
    ensures ok ==>
      Underway(fs, log, f.inum, old(f.off), src, done, old(fs.St()), |old(log.trace)|, past) && durable == done
    ensures !ok ==> Stopped(fs, log, f.inum, old(f.off), src, durable, done, old(fs.St()), |old(log.trace)|, past)
    ensures ok ==> ret == if done == |src| then |src| else -1
    ensures fs.g.size <= BPB && LP.MAXOPBLOCKS < fs.g.nlog ==> ok
  {
    ghost var st0, t0 := fs.St(), |log.trace|;
    Begun(fs, log, f.inum, f.off, src);
    ok, done, durable, past := true, 0, 0, Past([fs.blocks], []);
    var i := 0;
    ghost var off := f.off;
    ChunksNext(0);
    while i < |src|
      invariant 0 <= i <= |src| && done == durable == i && ok && f.off == off + i
      invariant log.block == old(log.block) && old(log.trace) <= log.trace
      invariant Underway(fs, log, f.inum, off, src, i, st0, t0, past) && (i < |src| ==> i == Chunks(|past.homes| - 1))
    {
      var full, r;
      ok, full, r, done, past := WriteRound(fs, log, f, src, i, avail, off, st0, t0, past);
      durable := if ok then done else i;
      if !full {
        return ok, -1, done, durable, past;
      }
      i := i + r;
    }
    ret := |src|;
  }

  // ----- any sequence of calls -----

  datatype Call = Read(n: int, room: nat) | Write(src: seq<byte>, avail: nat)
    | Seek(offset: int, whence: Whence) | Truncate

  predicate InRange(call: Call) {
    match call
    case Read(n, _) => -0x8000_0000 <= n < 0x8000_0000
    case Write(src, _) => |src| < 0x8000_0000
    case Seek(offset, _) => -0x8000_0000 <= offset < 0x8000_0000
    case Truncate => true
  }

  ghost predicate Open(fs: Fs, f: File)
    reads f
  {
    f.inum < fs.g.ninodes && f.off < UINT
  }

  ghost predicate AllConsistent(g: Geometry, homes: seq<seq<Block>>) {
    forall k :: 0 <= k < |homes| ==> Consistent(g, homes[k])
  }

  // begin_op and itrunc.
  method TruncateAlone(fs: Fs, inum: nat)
    requires fs.Valid() && inum < fs.g.ninodes
    modifies fs
    ensures fs.Valid() && Content(fs.g, fs.St(), inum) == []
    ensures Logged(old(fs.blocks), {}, fs.blocks, fs.logged, fs.g.inodestart)
    ensures fs.g.size <= BPB ==> |fs.logged| < LP.MAXOPBLOCKS
  {
    fs.logged := {};
    var ok := fs.Itrunc(inum);
    if fs.g.size <= BPB { TruncateWithinBudget(fs.g, fs.logged, Iblock(fs.g, inum)); }
  }

  // Truncation between begin_op and end_op.
  method TruncateLogged(fs: Fs, log: Log, inum: nat) returns (ok: bool, ghost past: Past)
    requires Mounted(fs, log) && inum < fs.g.ninodes
    modifies fs, log, log.block
    ensures fs.Valid() && log.block == old(log.block)
    ensures old(log.trace) <= log.trace && Since(log, |old(log.trace)|, past)
    ensures past.homes == if ok then [old(fs.blocks), fs.blocks] else [old(fs.blocks)]
    ensures AllConsistent(fs.g, past.homes)
    ensures ok ==> Mounted(fs, log) && UpTo(fs, log, |old(log.trace)|, past) && Content(fs.g, fs.St(), inum) == []
    ensures fs.g.size <= BPB && LP.MAXOPBLOCKS < fs.g.nlog ==> ok
  {
    ghost var home, t0 := fs.blocks, |log.trace|;
    ValidConsistent(fs);
    NoneSince(log, home);
    TruncateAlone(fs, inum);
    ValidConsistent(fs);
    ok, past := Conclude(fs, log, home, t0, Past([home], []));
  }

  lemma ValidConsistent(fs: Fs)
    requires fs.Valid()
    ensures Consistent(fs.g, fs.blocks)
  {
    SyncedStore(fs.g, fs.St());
    assert Owns(fs.g, StoreOn(fs.g, fs.blocks), fs.owner, {});
  }

  lemma TruncateWithinBudget(g: Geometry, logged: set<nat>, ib: nat)
    requires GoodGeometry(g) && g.size <= BPB && logged <= {} + BitmapBlocks(g) + {ib}
    ensures |logged| < LP.MAXOPBLOCKS
  {
    OneBitmapBlock(g);
    SubsetSize(logged, {g.bmapstart, ib});
  }

  lemma PartsConsistent(g: Geometry, st0: Store, homes: seq<seq<Block>>, n: nat, off: nat, src: seq<byte>, done: nat)
    requires HoldParts(g, st0, homes, n, off, src, done)
    ensures AllConsistent(g, homes)
  {
    forall k | 0 <= k < |homes| ensures Consistent(g, homes[k]) { assert PartAt(g, st0, homes, n, off, src, done, k); }
  }

  // A call on one open file.
  method RunCall(fs: Fs, log: Log, f: File, call: Call) returns (ok: bool, ghost past: Past)
    requires Mounted(fs, log) && Open(fs, f) && InRange(call)
    modifies fs, f`off, log, log.block
    ensures fs.Valid() && Open(fs, f) && log.block == old(log.block)
    ensures old(log.trace) <= log.trace && Since(log, |old(log.trace)|, past)
    ensures past.homes[0] == old(fs.blocks) && AllConsistent(fs.g, past.homes)
    ensures ok ==> Mounted(fs, log) && UpTo(fs, log, |old(log.trace)|, past)
    ensures fs.g.size <= BPB && LP.MAXOPBLOCKS < fs.g.nlog ==> ok
  {
    ValidConsistent(fs);
    ok, past := true, Past([fs.blocks], []);
    assert log.trace[|log.trace|..] == [];
    match call
    case Read(n, room) =>
      var r, dst := FileRead(fs, f, n, room);
    case Write(src, avail) =>
      var ret;
      ghost var done, durable;
      ok, ret, done, durable, past := FileWrite(fs, log, f, src, |src|, avail);
      PartsConsistent(fs.g, old(fs.St()), past.homes, f.inum, old(f.off), src, durable);
    case Seek(offset, whence) =>
      var r := Lseek(fs, f, offset, whence);
    case Truncate =>
      ok, past := TruncateLogged(fs, log, f.inum);
  }

  /**
   Whatever is read, written, truncated or sought, through whichever open files on
   whichever inodes, and in whatever order: no file ever has a hole, and wherever the
   machine stops, the log on disk stands for a consistent file system, one of those
   between two transactions.
   */
  method RunCalls(fs: Fs, log: Log, files: seq<File>, on: seq<nat>, calls: seq<Call>)
    returns (ok: bool, ghost past: Past)
    requires Mounted(fs, log) && |on| == |calls| && (forall f :: f in files ==> Open(fs, f))
    requires forall i :: 0 <= i < |calls| ==> on[i] < |files| && InRange(calls[i])
    modifies fs, log, log.block, set f | f in files
    ensures fs.Valid() && NoHoles(fs.g, fs.St()) && forall f :: f in files ==> Open(fs, f)
    ensures old(log.trace) <= log.trace && Since(log, |old(log.trace)|, past)
    ensures past.homes[0] == old(fs.blocks) && AllConsistent(fs.g, past.homes)
    ensures ok ==> Mounted(fs, log) && past.homes[|past.homes| - 1] == fs.blocks
    ensures fs.g.size <= BPB && LP.MAXOPBLOCKS < fs.g.nlog ==> ok
  {
    ghost var t0 := |log.trace|;
    ok, past := true, Past([fs.blocks], []);
    ValidConsistent(fs);
    assert log.trace[t0..] == [];
    for i := 0 to |calls|
      invariant ok && Mounted(fs, log) && log.block == old(log.block) && old(log.trace) <= log.trace
      invariant forall f :: f in files ==> Open(fs, f)
      invariant UpTo(fs, log, t0, past) && past.homes[0] == old(fs.blocks) && AllConsistent(fs.g, past.homes)
    {
      ok, past := RunNext(fs, log, files[on[i]], calls[i], t0, past);
      if !ok {
        return;
      }
    }
  }

  // One call more.
  method RunNext(fs: Fs, log: Log, f: File, call: Call, ghost t0: nat, ghost past: Past)
    returns (ok: bool, ghost past': Past)
    requires Mounted(fs, log) && Open(fs, f) && InRange(call) && UpTo(fs, log, t0, past)
    requires AllConsistent(fs.g, past.homes)
    modifies fs, f`off, log, log.block
    ensures fs.Valid() && Open(fs, f) && log.block == old(log.block)
    ensures old(log.trace) <= log.trace && Since(log, t0, past')
    ensures past'.homes[0] == past.homes[0] && AllConsistent(fs.g, past'.homes)
    ensures ok ==> Mounted(fs, log) && UpTo(fs, log, t0, past')
    ensures fs.g.size <= BPB && LP.MAXOPBLOCKS < fs.g.nlog ==> ok
  {
    ghost var before := log.trace;
    ghost var next;
    ok, next := RunCall(fs, log, f, call);
    Slices(before, log.trace, t0, |before|);
    StageThen(log.l, before[t0..], past, log.trace[|before|..], next);
    past' := Then(past, next);
  }

  // ----- booting -----

  // Every inode read from its block.
  method LoadInodes(g: Geometry, d: seq<Block>) returns (inodes: seq<Inode>)
    requires GoodGeometry(g) && |d| == g.size
    ensures inodes == StoreOn(g, d).inodes
  {
    inodes := [];
    for n := 0 to g.ninodes
      invariant |inodes| == n && forall m :: 0 <= m < n ==> inodes[m] == StoreOn(g, d).inodes[m]
    {
      IblockIsMeta(g, n);
      inodes := inodes + [OnDisk(g, d, n)];
    }
  }

  /**
   After a crash: from a disk whose log stands for a consistent block map, recovery and
   reading the inodes give a file system with that map's files, ready for calls; and a
   crash on the way leaves a disk that stands for the same.
   */
  method Mount(g: Geometry, log: Log, ghost home: seq<Block>) returns (fs: Fs)
    requires Consistent(g, home) && log.l == LayoutOf(g) && |log.disk| == g.size
    requires LP.GoodLayout(log.l, log.disk) && LP.GoodHeader(log.l, log.disk) && LP.RecoversTo(log.l, log.disk, home)
    requires log.block.Length == LP.LOGSIZE && log.cache == map[]
    modifies log, log.block
    ensures fresh(fs) && fs.g == g && Mounted(fs, log)
    ensures forall n: nat :: n < g.ninodes ==> Content(g, fs.St(), n) == Content(g, StoreOn(g, home), n)
    ensures old(log.trace) <= log.trace && AllRecoverTo(log.l, log.trace[|old(log.trace)|..], home)
  {
    log.RecoverFromLog(home);
    SameFiles(g, log.disk, home);
    NowClean(g, log, log.disk);
    var inodes := LoadInodes(g, log.disk);
    ghost var owner :| Owns(g, StoreOn(g, log.disk), owner, {}) && NoHoles(g, StoreOn(g, log.disk));
    fs := new Fs(g, log.disk, inodes, owner);
    assert fs.St() == StoreOn(g, log.disk);
    StoreSynced(g, log.disk);
  }

  lemma StoreSynced(g: Geometry, d: seq<Block>)
    requires GoodGeometry(g) && |d| == g.size && WellFormed(g, StoreOn(g, d))
    ensures Synced(g, StoreOn(g, d))
  {
    forall n: nat | n < g.ninodes ensures InSync(g, StoreOn(g, d), n) { IblockIsMeta(g, n); }
  }
}
