/**
 The free bitmap of fs.c: bit `bi` of a bitmap block is bit `bi % 8` of its byte
 `bi / 8`, read and changed with C's bitwise operators.
 */
module FsBitmap {
  import opened Bytes

  const BPB: nat := 8192

  // (x & (1 << k)) != 0
  predicate BitSet(x: nat, k: nat)
    decreases k
  {
    if k == 0 then x % 2 == 1 else BitSet(x / 2, k - 1)
  }

  // x | (1 << k)
  function OrMask(x: nat, k: nat): nat
    decreases k
  {
    if k == 0 then 2 * (x / 2) + 1 else 2 * OrMask(x / 2, k - 1) + x % 2
  }

  // x & ~(1 << k)
  function AndNotMask(x: nat, k: nat): nat
    decreases k
  {
    if k == 0 then 2 * (x / 2) else 2 * AndNotMask(x / 2, k - 1) + x % 2
  }

  lemma {:induction false} OrMaskBits(x: nat, k: nat, j: nat)
    ensures BitSet(OrMask(x, k), j) <==> j == k || BitSet(x, j)
    decreases k
  {
    assert OrMask(x, k) / 2 == if k == 0 then x / 2 else OrMask(x / 2, k - 1);
    if k > 0 && j > 0 { OrMaskBits(x / 2, k - 1, j - 1); }
  }

  lemma {:induction false} AndNotMaskBits(x: nat, k: nat, j: nat)
    ensures BitSet(AndNotMask(x, k), j) <==> j != k && BitSet(x, j)
    decreases k
  {
    assert AndNotMask(x, k) / 2 == if k == 0 then x / 2 else AndNotMask(x / 2, k - 1);
    if k > 0 && j > 0 { AndNotMaskBits(x / 2, k - 1, j - 1); }
  }

  // A byte stays a byte.
  lemma {:induction false} MaskedFits(x: nat, k: nat, bits: nat)
    requires k < bits && x < Pow2(bits)
    ensures OrMask(x, k) < Pow2(bits) && AndNotMask(x, k) < Pow2(bits)
    decreases k
  {
    var half := Pow2(bits - 1);
    assert Pow2(bits) == 2 * half && x / 2 < half;
    if k > 0 { MaskedFits(x / 2, k - 1, bits - 1); }
  }

  function Pow2(n: nat): nat {
    if n == 0 then 1 else 2 * Pow2(n - 1)
  }

  predicate Bit(b: Block, bi: nat)
    requires bi < BPB
  {
    BitSet(b[bi / 8], bi % 8)
  }

  function SetBit(b: Block, bi: nat): Block
    requires bi < BPB
  {
    assert Pow2(8) == 256;
    MaskedFits(b[bi / 8], bi % 8, 8);
    b[bi / 8 := OrMask(b[bi / 8], bi % 8)]
  }

  function ClearBit(b: Block, bi: nat): Block
    requires bi < BPB
  {
    assert Pow2(8) == 256;
    MaskedFits(b[bi / 8], bi % 8, 8);
    b[bi / 8 := AndNotMask(b[bi / 8], bi % 8)]
  }

  lemma BitOfSetBit(b: Block, bi: nat, bj: nat)
    requires bi < BPB && bj < BPB
    ensures Bit(SetBit(b, bi), bj) <==> bj == bi || Bit(b, bj)
  {
    OrMaskBits(b[bi / 8], bi % 8, bj % 8);
  }

  lemma BitOfClearBit(b: Block, bi: nat, bj: nat)
    requires bi < BPB && bj < BPB
    ensures Bit(ClearBit(b, bi), bj) <==> bj != bi && Bit(b, bj)
  {
    AndNotMaskBits(b[bi / 8], bi % 8, bj % 8);
  }
}
