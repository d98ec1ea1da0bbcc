/**
 Disk blocks as byte strings, and the 32-bit little-endian words the kernel
 overlays on them (the log header and the indirect block).
 */
module Bytes {

  const BSIZE: nat := 1024
  const WORDS: nat := 256

  type byte = x: int | 0 <= x < 256
  type word = x: int | 0 <= x < 0x1_0000_0000

  type Block = b: seq<byte> | |b| == BSIZE witness seq(BSIZE, _ => 0)

  function Zeroed(): Block {
    seq(BSIZE, _ => 0)
  }

  /** The i-th 32-bit word of a block. */
  function Word(b: Block, i: nat): word
    requires i < WORDS
  {
    var b0: int, b1: int, b2: int, b3: int := b[4 * i], b[4 * i + 1], b[4 * i + 2], b[4 * i + 3];
    b0 + 0x100 * b1 + 0x1_0000 * b2 + 0x100_0000 * b3
  }

  /** The block with its i-th 32-bit word overwritten. */
  function PutWord(b: Block, i: nat, w: word): Block
    requires i < WORDS
  {
    b[4 * i := w % 0x100]
     [4 * i + 1 := w / 0x100 % 0x100]
     [4 * i + 2 := w / 0x1_0000 % 0x100]
     [4 * i + 3 := w / 0x100_0000]
  }

  lemma WordOfPutWord(b: Block, i: nat, w: word, j: nat)
    requires i < WORDS && j < WORDS
    ensures Word(PutWord(b, i, w), j) == if i == j then w else Word(b, j)
  {
    var lo, hi := w % 0x1_0000, w / 0x1_0000;
    assert lo == lo % 0x100 + 0x100 * (lo / 0x100);
    assert w % 0x100 == lo % 0x100 && w / 0x100 % 0x100 == lo / 0x100;
    assert w / 0x1_0000 % 0x100 == hi % 0x100 && w / 0x100_0000 == hi / 0x100;
  }
}
