/** Machine integer types of the decoder and the instruction-length helpers.
    A RISC-V instruction word is fetched as a 32-bit unsigned value; its two
    lowest bits tell a 4-byte instruction (binary 11) from a 2-byte compressed
    one (anything else). Longer encodings (48/64-bit) are not distinguished. */
module Encoding {

  /** A `uint32_t`: instruction words, codes and masks, used with bitwise operators. */
  type Word = bv32

  /** An `unsigned` (32-bit) count, size or index. */
  newtype Unsigned = x: int | 0 <= x < 0x1_0000_0000

  /** The two lowest bits of a word, as its remainder modulo 4. */
  function LowBits(w: Word): (r: Word)
    ensures r < 4
  {
    w % 4
  }

  /** True if the word is a 4-byte (full size) instruction. */
  function IsFullSizeInst(w: Word): (b: bool)
    ensures b <==> LowBits(w) == 3
  {
    (w & 3) == 3
  }

  /** True if the word is a 2-byte (compressed) instruction. */
  function IsCompressedInst(w: Word): (b: bool)
    ensures b <==> !IsFullSizeInst(w)
    ensures b <==> LowBits(w) in {0, 1, 2}
  {
    (w & 3) != 3
  }

  /** The size in bytes of the instruction starting with word `w`. */
  function InstructionSize(w: Word): (r: Unsigned)
    ensures r == 2 || r == 4
    ensures r == 4 <==> IsFullSizeInst(w)
    ensures r == 2 <==> IsCompressedInst(w)
  {
    if (w & 3) == 3 then 4 else 2
  }

  /** The length is decided by the first 16-bit parcel alone, in fact by its
      two lowest bits: a decoder may size an instruction before fetching its
      upper half. */
  lemma SizeFromFirstParcel(w: Word)
    ensures InstructionSize(w) == InstructionSize(w & 0xFFFF)
    ensures InstructionSize(w) == InstructionSize(w & 3)
  {
    assert (w & 0xFFFF) & 3 == w & 3;
    assert (w & 3) & 3 == w & 3;
  }

  /** The worked cases: 0x3 and 0xFFFFFFFF are full size, 0x0 and 0x1 are
      compressed. */
  lemma SizeExamples()
    ensures IsFullSizeInst(0x3) && InstructionSize(0x3) == 4
    ensures IsFullSizeInst(0xFFFF_FFFF) && InstructionSize(0xFFFF_FFFF) == 4
    ensures IsCompressedInst(0x0) && InstructionSize(0x0) == 2
    ensures IsCompressedInst(0x1) && InstructionSize(0x1) == 2
  {
  }
}
