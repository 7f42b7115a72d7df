/** Fixed-width registers and the byte/bit views the command engine takes of them.
    Counters are integers kept in range by an explicit modulus (the hardware
    wraps); data bytes and words are bit-vectors, so that Cat/bit_select/&
    are the bit-vector operators. */
module Bits {

  type U2 = x: int | 0 <= x < 4
  type U3 = x: int | 0 <= x < 8
  type U4 = x: int | 0 <= x < 16
  type U6 = x: int | 0 <= x < 64
  type U7 = x: int | 0 <= x < 128
  type U8 = x: int | 0 <= x < 256
  type U12 = x: int | 0 <= x < 4096
  type U16 = x: int | 0 <= x < 65536

  /** The 7-byte receive block `rxBlock` (opcode + up to 6 parameter bytes). */
  type Bytes7 = b: seq<bv8> | |b| == 7 witness seq(7, _ => 0)
  /** The 14-byte (112-bit) transmit block `txBlock`. */
  type Bytes14 = b: seq<bv8> | |b| == 14 witness seq(14, _ => 0)

  /** Byte `i` of a block; a selection past the end reads 0. */
  function ByteAt(block: seq<bv8>, i: int): (r: bv8)
    ensures 0 <= i < |block| ==> r == block[i]
    ensures !(0 <= i < |block|) ==> r == 0
  {
    if 0 <= i < |block| then block[i] else 0
  }

  /** Assign byte `i` of a block; a selection past the end assigns nothing. */
  function PutByte(block: seq<bv8>, i: int, x: bv8): (r: seq<bv8>)
    ensures |r| == |block|
    ensures forall j :: 0 <= j < |r| ==> r[j] == if j == i then x else block[j]
  {
    if 0 <= i < |block| then block[i := x] else block
  }

  /** Assign the bytes `at .. at + |bytes|` of a block (a `txBlock[a:b].eq(Cat(...))`). */
  function PutBytes(block: seq<bv8>, at: nat, bytes: seq<bv8>): (r: seq<bv8>)
    requires at + |bytes| <= |block|
    ensures |r| == |block|
    ensures r[at..at + |bytes|] == bytes
    ensures forall j :: 0 <= j < |r| && !(at <= j < at + |bytes|) ==> r[j] == block[j]
  {
    block[..at] + bytes + block[at + |bytes|..]
  }

  /** A 16-bit value as its two little-endian bytes. */
  function LE16(x: bv16): (r: seq<bv8>)
    ensures |r| == 2
  {
    [(x & 0xFF) as bv8, (x >> 8) as bv8]
  }

  /** Bit `k` (0 = least significant) of a byte. */
  function BitOf(b: bv8, k: nat): bool
    requires k < 8
  {
    b & Mask(k) != 0
  }

  /** The byte with only bit `k` set. */
  function Mask(k: nat): bv8
    requires k < 8
  {
    if k == 0 then 0x01 else if k == 1 then 0x02 else if k == 2 then 0x04 else if k == 3 then 0x08
    else if k == 4 then 0x10 else if k == 5 then 0x20 else if k == 6 then 0x40 else 0x80
  }

  function SetBitOf(b: bv8, k: nat, v: bool): (r: bv8)
    requires k < 8
    ensures BitOf(r, k) == v
  {
    if v then b | Mask(k) else b & !Mask(k)
  }

  /** Setting one bit leaves every other bit as it was. */
  lemma SetBitOfKeeps(b: bv8, k: nat, v: bool, j: nat)
    requires k < 8 && j < 8 && j != k
    ensures BitOf(SetBitOf(b, k, v), j) == BitOf(b, j)
  {
  }

  /** `block.bit_select(pos, 1)` read as a boolean; past the end reads 0. */
  function BitAt(block: seq<bv8>, pos: nat): bool
  {
    BitOf(ByteAt(block, pos / 8), pos % 8)
  }

  /** `block.bit_select(pos, 1).eq(v)`; past the end assigns nothing. */
  function SetBitAt(block: seq<bv8>, pos: nat, v: bool): (r: seq<bv8>)
    ensures |r| == |block|
    ensures pos / 8 < |block| ==> BitAt(r, pos) == v
    ensures forall j :: 0 <= j < |r| && j != pos / 8 ==> r[j] == block[j]
  {
    if pos / 8 < |block| then block[pos / 8 := SetBitOf(block[pos / 8], pos % 8, v)] else block
  }

  /** Byte `k` of a 32-bit word (`word_select(k, 8)`). */
  function WordByte(w: bv32, k: int): bv8
    requires 0 <= k < 4
  {
    if k == 0 then (w & 0xFF) as bv8
    else if k == 1 then ((w >> 8) & 0xFF) as bv8
    else if k == 2 then ((w >> 16) & 0xFF) as bv8
    else (w >> 24) as bv8
  }

  /** A 32-bit word as its four little-endian bytes. */
  function LE32(w: bv32): (r: seq<bv8>)
    ensures |r| == 4
  {
    [WordByte(w, 0), WordByte(w, 1), WordByte(w, 2), WordByte(w, 3)]
  }

  /** Element `k` of `LE32` is byte `k`. */
  lemma LE32At(w: bv32, k: nat)
    requires k < 4
    ensures LE32(w)[k] == WordByte(w, k)
  {
  }

  /** The little-endian 32-bit word made of four bytes (a `Cat` of bytes). */
  function Word(b0: bv8, b1: bv8, b2: bv8, b3: bv8): bv32
  {
    (b0 as bv32) | ((b1 as bv32) << 8) | ((b2 as bv32) << 16) | ((b3 as bv32) << 24)
  }

  /** Bytes 0..3 of `Word` are its arguments, in order. */
  lemma LE32OfWord(b0: bv8, b1: bv8, b2: bv8, b3: bv8)
    ensures LE32(Word(b0, b1, b2, b3)) == [b0, b1, b2, b3]
  {
  }

  /** Assign byte `k` of a 32-bit word (`w.word_select(k, 8).eq(x)`). */
  function SetWordByte(w: bv32, k: int, x: bv8): (r: bv32)
    requires 0 <= k < 4
    ensures WordByte(r, k) == x
    ensures forall j :: 0 <= j < 4 && j != k ==> WordByte(r, j) == WordByte(w, j)
  {
    if k == 0 then (w & 0xFFFF_FF00) | (x as bv32)
    else if k == 1 then (w & 0xFFFF_00FF) | ((x as bv32) << 8)
    else if k == 2 then (w & 0xFF00_FFFF) | ((x as bv32) << 16)
    else (w & 0x00FF_FFFF) | ((x as bv32) << 24)
  }

  /** An int as a bit-vector byte: the low 8 bits (assignment to an 8-bit field). */
  function Low8(x: int): bv8
  {
    (x % 256) as bv8
  }

  function Low16(x: int): U16
  {
    x % 65536
  }
}
