/**
 Who owns which disk block.  A slot is a place that can name a block: a direct
 entry of an inode, its indirect entry, or a word of its indirect block.  The
 invariant says that slots and set bitmap bits match one to one; `extra` holds
 blocks in transit, marked used but named by no slot.
 */
module FsOwnership {
  import opened Bytes
  import opened FsBitmap

  const NDIRECT: nat := 10
  const NINDIRECT: nat := 256
  const MAXFILE: nat := 266
  const IPB: nat := 16

  datatype Inode = Inode(size: nat, addrs: seq<nat>)

  datatype Store = Store(blocks: seq<Block>, inodes: seq<Inode>)

  // The superblock: log, inode blocks and bitmap blocks follow one another, and the blocks from `nmeta` on hold data.
  datatype Geometry = Geometry(size: nat, nlog: nat, logstart: nat, inodestart: nat,
                               bmapstart: nat, nmeta: nat, ninodes: nat)

  ghost predicate GoodGeometry(g: Geometry) {
    && 1 <= g.nmeta <= g.size < 0x8000_0000
    && g.logstart + g.nlog <= g.inodestart
    && g.inodestart + g.ninodes / IPB < g.bmapstart
    && g.bmapstart + (g.size - 1) / BPB < g.nmeta
  }

  ghost predicate WellFormed(g: Geometry, st: Store) {
    && |st.blocks| == g.size && |st.inodes| == g.ninodes
    && forall n :: 0 <= n < g.ninodes ==> GoodInode(g, st.inodes[n])
  }

  ghost predicate GoodInode(g: Geometry, ip: Inode) {
    |ip.addrs| == NDIRECT + 1 && forall i :: 0 <= i < NDIRECT + 1 ==> ip.addrs[i] < g.size
  }

  datatype Slot = Direct(inum: nat, i: nat) | Indirect(inum: nat) | Listed(inum: nat, j: nat)

  predicate IsSlot(g: Geometry, s: Slot) {
    && s.inum < g.ninodes
    && (s.Direct? ==> s.i < NDIRECT)
    && (s.Listed? ==> s.j < NINDIRECT)
  }

  // The block a slot names, 0 for none.
  function At(g: Geometry, st: Store, s: Slot): nat
    requires WellFormed(g, st) && IsSlot(g, s)
  {
    var ip := st.inodes[s.inum];
    match s
    case Direct(_, i) => ip.addrs[i]
    case Indirect(_) => ip.addrs[NDIRECT]
    case Listed(_, j) => if ip.addrs[NDIRECT] == 0 then 0 else Word(st.blocks[ip.addrs[NDIRECT]], j)
  }

  // BBLOCK(b, sb)
  function Bblock(g: Geometry, b: nat): nat {
    b / BPB + g.bmapstart
  }

  // IBLOCK(n, sb)
  function Iblock(g: Geometry, n: nat): nat {
    n / IPB + g.inodestart
  }

  ghost predicate Used(g: Geometry, blocks: seq<Block>, b: nat)
    requires GoodGeometry(g) && |blocks| == g.size && b < g.size
  {
    Bit(blocks[Bblock(g, b)], b % BPB)
  }

  ghost predicate Owns(g: Geometry, st: Store, owner: map<nat, Slot>, extra: set<nat>) {
    && GoodGeometry(g) && WellFormed(g, st)
    && (forall b :: b in owner ==>
          g.nmeta <= b < g.size && b !in extra && IsSlot(g, owner[b]) && At(g, st, owner[b]) == b)
    && (forall b :: b in extra ==> g.nmeta <= b < g.size)
    && (forall s :: IsSlot(g, s) && At(g, st, s) != 0 ==> At(g, st, s) in owner && owner[At(g, st, s)] == s)
    && (forall b: nat :: b < g.size ==> (Used(g, st.blocks, b) <==> b < g.nmeta || b in owner || b in extra))
  }

  /** The set bits of the bitmap are the metadata blocks and the slots' blocks, and no block has two slots. */
  lemma OwnershipExact(g: Geometry, st: Store, owner: map<nat, Slot>)
    requires Owns(g, st, owner, {})
    ensures forall b: nat :: b < g.size ==>
              (Used(g, st.blocks, b) <==> b < g.nmeta || exists s :: IsSlot(g, s) && At(g, st, s) == b)
    ensures forall s, s' :: IsSlot(g, s) && IsSlot(g, s') && At(g, st, s) == At(g, st, s') != 0 ==> s == s'
    ensures forall s :: IsSlot(g, s) && At(g, st, s) != 0 ==> g.nmeta <= At(g, st, s) < g.size
  {
    forall b: nat | b < g.size
      ensures Used(g, st.blocks, b) <==> b < g.nmeta || exists s :: IsSlot(g, s) && At(g, st, s) == b
    {
      if b in owner { assert IsSlot(g, owner[b]) && At(g, st, owner[b]) == b; }
    }
  }

  // ----- changing one bit -----

  lemma UsedAfterSet(g: Geometry, blocks: seq<Block>, b: nat, c: nat)
    requires GoodGeometry(g) && |blocks| == g.size && b < g.size && c < g.size
    ensures Used(g, blocks[Bblock(g, b) := SetBit(blocks[Bblock(g, b)], b % BPB)], c) <==> c == b || Used(g, blocks, c)
  {
    BitOfSetBit(blocks[Bblock(g, b)], b % BPB, c % BPB);
  }

  lemma UsedAfterClear(g: Geometry, blocks: seq<Block>, b: nat, c: nat)
    requires GoodGeometry(g) && |blocks| == g.size && b < g.size && c < g.size
    ensures Used(g, blocks[Bblock(g, b) := ClearBit(blocks[Bblock(g, b)], b % BPB)], c) <==>
      c != b && Used(g, blocks, c)
  {
    BitOfClearBit(blocks[Bblock(g, b)], b % BPB, c % BPB);
  }

  lemma BblockIsMeta(g: Geometry, b: nat)
    requires GoodGeometry(g) && b < g.size
    ensures Bblock(g, b) < g.nmeta
  {
  }

  lemma BitOfBlock(g: Geometry, b: nat, bi: nat)
    requires b % BPB == 0 && bi < BPB
    ensures Bblock(g, b + bi) == Bblock(g, b) && (b + bi) % BPB == bi
  {
  }

  // Slots see only the inodes and the indirect blocks.
  lemma SameSlots(g: Geometry, st: Store, st': Store, owner: map<nat, Slot>, extra: set<nat>)
    requires Owns(g, st, owner, extra) && |st'.blocks| == g.size && st'.inodes == st.inodes
    requires forall b :: b in owner && owner[b].Indirect? ==> st'.blocks[b] == st.blocks[b]
    ensures WellFormed(g, st') && forall s :: IsSlot(g, s) ==> At(g, st', s) == At(g, st, s)
  {
    forall s | IsSlot(g, s) ensures At(g, st', s) == At(g, st, s) {
      if s.Listed? && st.inodes[s.inum].addrs[NDIRECT] != 0 {
        assert At(g, st, Indirect(s.inum)) in owner;
      }
    }
  }

  // The slots stay, the set of blocks in transit changes.
  lemma Reassign(g: Geometry, st: Store, st': Store, owner: map<nat, Slot>, extra: set<nat>, extra': set<nat>)
    requires Owns(g, st, owner, extra) && WellFormed(g, st')
    requires forall s :: IsSlot(g, s) ==> At(g, st', s) == At(g, st, s)
    requires forall b :: b in extra' ==> g.nmeta <= b < g.size && b !in owner
    requires forall b: nat :: b < g.size ==> (Used(g, st'.blocks, b) <==> b < g.nmeta || b in owner || b in extra')
    ensures Owns(g, st', owner, extra')
  {
  }

  function SetUsed(g: Geometry, blocks: seq<Block>, b: nat): seq<Block>
    requires Bblock(g, b) < |blocks|
  {
    blocks[Bblock(g, b) := SetBit(blocks[Bblock(g, b)], b % BPB)]
  }

  function SetFree(g: Geometry, blocks: seq<Block>, b: nat): seq<Block>
    requires Bblock(g, b) < |blocks|
  {
    blocks[Bblock(g, b) := ClearBit(blocks[Bblock(g, b)], b % BPB)]
  }

  // balloc: mark a free block and zero it.
  lemma Allocate(g: Geometry, st: Store, owner: map<nat, Slot>, extra: set<nat>, b: nat)
    requires Owns(g, st, owner, extra) && b < g.size && !Used(g, st.blocks, b)
    ensures g.nmeta <= b && b !in owner && b !in extra
    ensures Owns(g, Store(SetUsed(g, st.blocks, b)[b := Zeroed()], st.inodes), owner, extra + {b})
  {
    var st' := Store(SetUsed(g, st.blocks, b)[b := Zeroed()], st.inodes);
    BblockIsMeta(g, b);
    SameSlots(g, st, st', owner, extra);
    forall c: nat | c < g.size
      ensures Used(g, st'.blocks, c) <==> c < g.nmeta || c in owner || c in extra + {b}
    {
      UsedAfterAllocate(g, st.blocks, b, c);
    }
    Reassign(g, st, st', owner, extra, extra + {b});
  }

  lemma UsedAfterAllocate(g: Geometry, blocks: seq<Block>, b: nat, c: nat)
    requires GoodGeometry(g) && |blocks| == g.size && g.nmeta <= b < g.size && c < g.size
    ensures Bblock(g, b) < g.size
    ensures Used(g, SetUsed(g, blocks, b)[b := Zeroed()], c) <==> c == b || Used(g, blocks, c)
  {
    BblockIsMeta(g, b);
    BblockIsMeta(g, c);
    UsedAfterSet(g, blocks, b, c);
  }

  // bfree: clear the bit of a block no slot names.
  lemma Release(g: Geometry, st: Store, owner: map<nat, Slot>, extra: set<nat>, b: nat)
    requires Owns(g, st, owner, extra) && b in extra
    ensures Used(g, st.blocks, b)
    ensures Owns(g, Store(SetFree(g, st.blocks, b), st.inodes), owner, extra - {b})
  {
    var st' := Store(SetFree(g, st.blocks, b), st.inodes);
    SameSlots(g, st, st', owner, extra);
    forall c: nat | c < g.size ensures Used(g, st'.blocks, c) <==> c != b && Used(g, st.blocks, c) {
      UsedAfterClear(g, st.blocks, b, c);
    }
  }

  // Storing block `b` in an empty slot, whatever kind of slot it is.
  lemma Attach(g: Geometry, st: Store, st': Store, owner: map<nat, Slot>, extra: set<nat>, b: nat, slot: Slot)
    requires Owns(g, st, owner, extra) && b in extra && IsSlot(g, slot) && At(g, st, slot) == 0
    requires WellFormed(g, st') && At(g, st', slot) == b
    requires forall s :: IsSlot(g, s) && s != slot ==> At(g, st', s) == At(g, st, s)
    requires forall c: nat :: c < g.size ==> (Used(g, st'.blocks, c) <==> Used(g, st.blocks, c))
    ensures Owns(g, st', owner[b := slot], extra - {b})
  {
  }

  // Emptying all the slots that name blocks of `gone`.
  lemma Detach(g: Geometry, st: Store, st': Store, owner: map<nat, Slot>, extra: set<nat>, gone: set<nat>)
    requires Owns(g, st, owner, extra) && gone <= owner.Keys && WellFormed(g, st')
    requires forall s :: IsSlot(g, s) ==> At(g, st', s) == if At(g, st, s) in gone then 0 else At(g, st, s)
    requires forall c: nat :: c < g.size ==> (Used(g, st'.blocks, c) <==> Used(g, st.blocks, c))
    ensures Owns(g, st', owner - gone, extra + gone)
  {
    assert 0 !in gone;
  }

  // ----- what data writes and allocations leave alone -----

  // The slot of the bn-th block of a file.
  function SlotOf(n: nat, bn: nat): Slot {
    if bn < NDIRECT then Direct(n, bn) else Listed(n, bn - NDIRECT)
  }

  // Every mapped file block keeps its place and its bytes.
  ghost predicate Extends(g: Geometry, st: Store, st': Store) {
    && WellFormed(g, st) && WellFormed(g, st')
    && forall s :: IsSlot(g, s) && !s.Indirect? && 0 < At(g, st, s) < g.size ==>
         At(g, st', s) == At(g, st, s) && st'.blocks[At(g, st, s)] == st.blocks[At(g, st, s)]
  }

  // No slot but `slot` names a different block.
  ghost predicate OnlySlot(g: Geometry, st: Store, st': Store, slot: Slot) {
    && WellFormed(g, st) && WellFormed(g, st')
    && forall s :: IsSlot(g, s) && s != slot ==> At(g, st', s) == At(g, st, s)
  }

  lemma AllocateExtends(g: Geometry, st: Store, owner: map<nat, Slot>, extra: set<nat>, b: nat)
    requires Owns(g, st, owner, extra) && b < g.size && !Used(g, st.blocks, b)
    ensures Extends(g, st, Store(SetUsed(g, st.blocks, b)[b := Zeroed()], st.inodes))
    ensures forall s :: IsSlot(g, s) ==>
              At(g, Store(SetUsed(g, st.blocks, b)[b := Zeroed()], st.inodes), s) == At(g, st, s)
  {
    BblockIsMeta(g, b);
    SameSlots(g, st, Store(SetUsed(g, st.blocks, b)[b := Zeroed()], st.inodes), owner, extra);
  }

  function PutAddr(st: Store, n: nat, i: nat, b: nat): Store
    requires n < |st.inodes| && i < |st.inodes[n].addrs|
  {
    Store(st.blocks, st.inodes[n := st.inodes[n].(addrs := st.inodes[n].addrs[i := b])])
  }

  // A fresh zeroed block goes into a slot.
  lemma AttachAddr(g: Geometry, st: Store, owner: map<nat, Slot>, extra: set<nat>, n: nat, i: nat, b: nat)
    requires Owns(g, st, owner, extra) && b in extra && st.blocks[b] == Zeroed()
    requires n < g.ninodes && i <= NDIRECT && st.inodes[n].addrs[i] == 0
    ensures var slot := if i < NDIRECT then Direct(n, i) else Indirect(n);
      && Owns(g, PutAddr(st, n, i, b), owner[b := slot], extra - {b})
      && OnlySlot(g, st, PutAddr(st, n, i, b), slot) && Extends(g, st, PutAddr(st, n, i, b))
  {
    var slot := if i < NDIRECT then Direct(n, i) else Indirect(n);
    var st' := PutAddr(st, n, i, b);
    assert WellFormed(g, st');
    forall s | IsSlot(g, s) && s != slot ensures At(g, st', s) == At(g, st, s) {
      if s.Listed? && s.inum == n && i == NDIRECT { ZeroWord(s.j); }
    }
    Attach(g, st, st', owner, extra, b, slot);
  }

  lemma ZeroWord(j: nat)
    requires j < WORDS
    ensures Word(Zeroed(), j) == 0
  {
  }

  function PutListed(st: Store, n: nat, j: nat, b: nat): Store
    requires n < |st.inodes| && |st.inodes[n].addrs| == NDIRECT + 1 && st.inodes[n].addrs[NDIRECT] < |st.blocks|
    requires j < NINDIRECT && b < 0x8000_0000
  {
    var ind := st.inodes[n].addrs[NDIRECT];
    st.(blocks := st.blocks[ind := PutWord(st.blocks[ind], j, b)])
  }

  // a[bn] = addr in the indirect block.
  lemma AttachListed(g: Geometry, st: Store, owner: map<nat, Slot>, extra: set<nat>, n: nat, j: nat, b: nat)
    requires Owns(g, st, owner, extra) && b in extra
    requires n < g.ninodes && j < NINDIRECT && st.inodes[n].addrs[NDIRECT] != 0 && At(g, st, Listed(n, j)) == 0
    ensures var st' := PutListed(st, n, j, b);
      && Owns(g, st', owner[b := Listed(n, j)], extra - {b})
      && OnlySlot(g, st, st', Listed(n, j)) && Extends(g, st, st')
  {
    var st' := PutListed(st, n, j, b);
    var ind := st.inodes[n].addrs[NDIRECT];
    assert At(g, st, Indirect(n)) == ind && owner[ind] == Indirect(n);
    assert WellFormed(g, st');
    forall s | IsSlot(g, s) ensures At(g, st', s) == if s == Listed(n, j) then b else At(g, st, s) {
      if s.Listed? && st.inodes[s.inum].addrs[NDIRECT] != 0 {
        assert At(g, st, Indirect(s.inum)) == st.inodes[s.inum].addrs[NDIRECT];
        WordOfPutWord(st.blocks[ind], j, b, s.j);
      }
    }
    forall c: nat | c < g.size ensures Used(g, st'.blocks, c) <==> Used(g, st.blocks, c) {
      BblockIsMeta(g, c);
    }
    Attach(g, st, st', owner, extra, b, Listed(n, j));
  }

  // Writing the data of a mapped file block.
  lemma DataWrite(g: Geometry, st: Store, owner: map<nat, Slot>, s: Slot, data: Block)
    requires Owns(g, st, owner, {}) && IsSlot(g, s) && !s.Indirect? && At(g, st, s) != 0
    ensures var st' := st.(blocks := st.blocks[At(g, st, s) := data]);
      && Owns(g, st', owner, {})
      && forall s' :: IsSlot(g, s') ==> At(g, st', s') == At(g, st, s')
  {
    var b := At(g, st, s);
    var st' := st.(blocks := st.blocks[b := data]);
    assert owner[b] == s;
    SameSlots(g, st, st', owner, {});
    forall c: nat | c < g.size ensures Used(g, st'.blocks, c) <==> Used(g, st.blocks, c) {
      BblockIsMeta(g, c);
    }
  }

  lemma ExtendsTrans(g: Geometry, st: Store, st1: Store, st2: Store)
    requires Extends(g, st, st1) && Extends(g, st1, st2)
    ensures Extends(g, st, st2)
  {
  }

  // An allocation followed by storing its address in slot `slot`.
  lemma ThenAttach(g: Geometry, st: Store, st1: Store, st2: Store, slot: Slot)
    requires Extends(g, st, st1) && Extends(g, st1, st2) && OnlySlot(g, st1, st2, slot)
    requires forall s :: IsSlot(g, s) ==> At(g, st1, s) == At(g, st, s)
    ensures Extends(g, st, st2) && OnlySlot(g, st, st2, slot)
  {
  }

  // balloc's effect on the blocks.
  function Taken(g: Geometry, st: Store, b: nat): Store
    requires Bblock(g, b) < |st.blocks| && b < |st.blocks|
  {
    st.(blocks := SetUsed(g, st.blocks, b)[b := Zeroed()])
  }

  lemma AllocateAddr(g: Geometry, st: Store, owner: map<nat, Slot>, n: nat, i: nat, b: nat)
    requires Owns(g, st, owner, {}) && b < g.size && !Used(g, st.blocks, b)
    requires n < g.ninodes && i <= NDIRECT && st.inodes[n].addrs[i] == 0
    ensures Bblock(g, b) < g.size
    ensures var slot := if i < NDIRECT then Direct(n, i) else Indirect(n);
      var st' := PutAddr(Taken(g, st, b), n, i, b);
      Owns(g, st', owner[b := slot], {}) && OnlySlot(g, st, st', slot) && Extends(g, st, st')
  {
    BblockIsMeta(g, b);
    Allocate(g, st, owner, {}, b);
    AllocateExtends(g, st, owner, {}, b);
    AttachAddr(g, Taken(g, st, b), owner, {} + {b}, n, i, b);
    ThenAttach(g, st, Taken(g, st, b), PutAddr(Taken(g, st, b), n, i, b),
               if i < NDIRECT then Direct(n, i) else Indirect(n));
    assert {} + {b} - {b} == {};
  }

  lemma AllocateListed(g: Geometry, st: Store, owner: map<nat, Slot>, n: nat, j: nat, b: nat)
    requires Owns(g, st, owner, {}) && b < g.size && !Used(g, st.blocks, b)
    requires n < g.ninodes && j < NINDIRECT && st.inodes[n].addrs[NDIRECT] != 0 && At(g, st, Listed(n, j)) == 0
    ensures Bblock(g, b) < g.size && st.inodes[n].addrs[NDIRECT] != b
    ensures var st' := PutListed(Taken(g, st, b), n, j, b);
      Owns(g, st', owner[b := Listed(n, j)], {}) && OnlySlot(g, st, st', Listed(n, j)) && Extends(g, st, st')
  {
    BblockIsMeta(g, b);
    Allocate(g, st, owner, {}, b);
    AllocateExtends(g, st, owner, {}, b);
    assert At(g, st, Indirect(n)) in owner;
    AttachListed(g, Taken(g, st, b), owner, {} + {b}, n, j, b);
    ThenAttach(g, st, Taken(g, st, b), PutListed(Taken(g, st, b), n, j, b), Listed(n, j));
    assert {} + {b} - {b} == {};
  }
}
