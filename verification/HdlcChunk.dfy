/**
 The receiver's chunk register: the newest 24 bits of a frame, of which 16 are always held
 back because they may turn out to be its check sequence.
*/
module HdlcChunk {
  import opened BitSeq
  import opened HdlcWord

  function Byte0(c: bv32): Byte { Byte((c & 0xFF) as bv8) }
  function Byte1(c: bv32): Byte { Byte(((c >> 8) & 0xFF) as bv8) }
  function Byte2(c: bv32): Byte { Byte(((c >> 16) & 0xFF) as bv8) }

  /** The `n` newest bits, oldest first. */
  function ChunkBits(c: bv32, n: nat): (r: Bits)
    requires n <= 24
    ensures |r| == n
  {
    (ByteBits(Byte2(c)) + ByteBits(Byte1(c)) + ByteBits(Byte0(c)))[24 - n..]
  }

  /** `hdlcChunk <<= 1`, and `|= 1` for a one. */
  function Push(c: bv32, x: bool): bv32 { (c << 1) | (if x then 1 else 0) }

  lemma PushParts(c: bv32, x: bool)
    ensures Byte0(Push(c, x)) == AppendBit(Byte0(c), x)
    ensures Byte1(Push(c, x)) == AppendBit(Byte1(c), TopSet(Byte0(c)))
    ensures Byte2(Push(c, x)) == AppendBit(Byte2(c), TopSet(Byte1(c)))
  {
  }

  lemma PushBits(c: bv32, x: bool, n: nat)
    requires n < 24
    ensures ChunkBits(Push(c, x), n + 1) == ChunkBits(c, n) + [x]
  {
    hide ByteBits, Byte0, Byte1, Byte2, Push, AppendBit, TopSet;
    PushParts(c, x);
    EndBits(Byte0(c));
    EndBits(Byte1(c));
    ShiftIn(Byte0(c), x);
    ShiftIn(Byte1(c), TopSet(Byte0(c)));
    ShiftIn(Byte2(c), TopSet(Byte1(c)));
    var b2, b1, b0 := ByteBits(Byte2(c)), ByteBits(Byte1(c)), ByteBits(Byte0(c));
    assert (b2[1..] + [b1[0]]) + (b1[1..] + [b0[0]]) + (b0[1..] + [x]) == (b2 + b1 + b0)[1..] + [x];
  }

  /** A full chunk is its oldest byte and the 16 bits held back. */
  lemma FullChunk(c: bv32)
    ensures ChunkBits(c, 24) == ByteBits(Byte2(c)) + ChunkBits(c, 16)
  {
    hide ByteBits, Byte0, Byte1, Byte2;
  }

  lemma HeldBytes(c: bv32)
    ensures ChunkBits(c, 16) == ByteBits(Byte1(c)) + ByteBits(Byte0(c))
  {
    hide ByteBits, Byte0, Byte1, Byte2;
  }
}
