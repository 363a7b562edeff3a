/** The 16-bit shift word of the `HDLC` methods: a byte being filled and the byte feeding it. */
module HdlcWord {
  import opened BitSeq

  function Hi(w: bv16): Byte { Byte(((w >> 8) & 0xFF) as bv8) }
  function Lo(w: bv16): Byte { Byte((w & 0xFF) as bv8) }

  /** The word as 16 bits. */
  function WordBits(w: bv16): (r: Bits)
    ensures |r| == 16
  {
    ByteBits(Hi(w)) + ByteBits(Lo(w))
  }

  /** The word whose upper byte is `a`. */
  function Up(a: Byte): bv16 { (a.v as bv16) << 8 }

  /** The word with `b` loaded into its empty lower byte. */
  function Join(w: bv16, b: Byte): bv16 { w | (b.v as bv16) }

  /** The word with a zero put in after its upper byte, the lower byte staying. */
  function PutZero(w: bv16): bv16 { ((w & 0xFF00) << 1) | (w & 0xFF) }

  /** `w <<= j`, one place at a time, and `w >>= j`. */
  function Shl(w: bv16, j: nat): bv16 { if j == 0 then w else Shl1(Shl(w, j - 1)) }
  function Shr(w: bv16, j: nat): bv16 { if j == 0 then w else Shr1(Shr(w, j - 1)) }
  function Shl1(w: bv16): bv16 { w << 1 }
  function Shr1(w: bv16): bv16 { w >> 1 }

  predicate Newest(w: bv16) { w & 0x100 != 0 }
  predicate Oldest(w: bv16) { w & 0x8000 != 0 }

  lemma UpParts(a: Byte)
    ensures Hi(Up(a)) == a && Lo(Up(a)) == Byte(0)
  {
  }

  lemma JoinParts(w: bv16, b: Byte)
    requires Lo(w) == Byte(0)
    ensures Hi(Join(w, b)) == Hi(w) && Lo(Join(w, b)) == b
  {
  }

  predicate TopSet(b: Byte) { b.v & 0x80 != 0 }
  predicate LowSet(b: Byte) { b.v & 0x01 != 0 }

  lemma EndBits(b: Byte)
    ensures TopSet(b) == ByteBits(b)[0] && LowSet(b) == ByteBits(b)[7]
  {
  }

  lemma Shl1Parts(w: bv16)
    ensures Hi(Shl1(w)) == AppendBit(Hi(w), TopSet(Lo(w)))
    ensures Lo(Shl1(w)) == AppendBit(Lo(w), false)
  {
  }

  /** Shifting the word moves one bit from the lower byte to the upper one. */
  lemma ShiftBits(w: bv16)
    ensures ByteBits(Hi(Shl1(w))) == ByteBits(Hi(w))[1..] + [ByteBits(Lo(w))[0]]
    ensures ByteBits(Lo(Shl1(w))) == ByteBits(Lo(w))[1..] + [false]
  {
    hide ByteBits, Hi, Lo, Shl1, AppendBit, TopSet;
    Shl1Parts(w);
    EndBits(Lo(w));
    ShiftIn(Hi(w), TopSet(Lo(w)));
    ShiftIn(Lo(w), false);
  }

  lemma PutZeroParts(w: bv16)
    ensures Hi(PutZero(w)) == AppendBit(Hi(w), false) && Lo(PutZero(w)) == Lo(w)
  {
  }

  lemma StuffBits(w: bv16)
    ensures ByteBits(Hi(PutZero(w))) == ByteBits(Hi(w))[1..] + [false] && Lo(PutZero(w)) == Lo(w)
  {
    hide ByteBits, Hi, Lo, PutZero, AppendBit;
    PutZeroParts(w);
    ShiftIn(Hi(w), false);
  }

  lemma EndsOfWord(w: bv16)
    ensures Newest(w) == LowSet(Hi(w)) && Oldest(w) == TopSet(Hi(w))
  {
  }

  lemma NewestBit(w: bv16)
    ensures Newest(w) == ByteBits(Hi(w))[7]
    ensures Oldest(w) == ByteBits(Hi(w))[0]
  {
    hide ByteBits, Hi, Newest, Oldest, TopSet, LowSet;
    EndsOfWord(w);
    EndBits(Hi(w));
  }

  lemma {:induction false} ShlBits(w: bv16, j: nat)
    requires j <= 16
    ensures WordBits(Shl(w, j)) == WordBits(w)[j..] + Zeros(j)
  {
    hide WordBits, Shl1;
    if j > 0 {
      ShlBits(w, j - 1);
      ShlOne(Shl(w, j - 1));
    }
  }

  lemma ShlOne(w: bv16)
    ensures WordBits(Shl1(w)) == WordBits(w)[1..] + [false]
  {
    hide ByteBits, Hi, Lo, Shl1;
    ShiftBits(w);
  }

  function PrependBit(b: Byte, x: bool): Byte { Byte((b.v >> 1) | (if x then 0x80 else 0)) }

  /** `y` is `x` and the bits of `v` but the last. */
  predicate IsDown(y: bv8, x: bool, v: bv8) {
    && (y & 0x80 != 0) == x && (y & 0x40 != 0) == (v & 0x80 != 0) && (y & 0x20 != 0) == (v & 0x40 != 0)
    && (y & 0x10 != 0) == (v & 0x20 != 0) && (y & 0x08 != 0) == (v & 0x10 != 0) && (y & 0x04 != 0) == (v & 0x08 != 0)
    && (y & 0x02 != 0) == (v & 0x04 != 0) && (y & 0x01 != 0) == (v & 0x02 != 0)
  }

  lemma DownOne(v: bv8)
    ensures IsDown((v >> 1) | 0x80, true, v)
  {
  }

  lemma DownZero(v: bv8)
    ensures IsDown((v >> 1) | 0, false, v)
  {
  }

  lemma PrependIs(b: Byte, x: bool)
    ensures IsDown(PrependBit(b, x).v, x, b.v)
  {
    hide IsDown;
    if x { DownOne(b.v); } else { DownZero(b.v); }
  }

  lemma DownBits(y: Byte, x: bool, b: Byte)
    requires IsDown(y.v, x, b.v)
    ensures ByteBits(y)[0] == x && forall i :: 0 <= i < 7 ==> ByteBits(y)[i + 1] == ByteBits(b)[i]
  {
  }

  lemma ShiftDown(b: Byte, x: bool)
    ensures ByteBits(PrependBit(b, x)) == [x] + ByteBits(b)[..7]
  {
    hide PrependBit, ByteBits, IsDown;
    PrependIs(b, x);
    DownBits(PrependBit(b, x), x, b);
    assert forall i :: 0 <= i < 7 ==> ByteBits(PrependBit(b, x))[1..][i] == ByteBits(b)[i];
  }

  lemma Shr1Parts(w: bv16)
    ensures Hi(Shr1(w)) == PrependBit(Hi(w), false)
    ensures Lo(Shr1(w)) == PrependBit(Lo(w), LowSet(Hi(w)))
  {
  }

  lemma ShrOne(w: bv16)
    ensures WordBits(Shr1(w)) == [false] + WordBits(w)[..15]
  {
    hide ByteBits, Hi, Lo, Shr1, PrependBit, LowSet;
    Shr1Parts(w);
    EndBits(Hi(w));
    ShiftDown(Hi(w), false);
    ShiftDown(Lo(w), LowSet(Hi(w)));
  }

  lemma {:induction false} ShrBits(w: bv16, j: nat)
    requires j <= 16
    ensures WordBits(Shr(w, j)) == Zeros(j) + WordBits(w)[..16 - j]
  {
    hide WordBits, Shr1;
    if j > 0 {
      ShrBits(w, j - 1);
      ShrOne(Shr(w, j - 1));
    }
  }

  lemma ZeroByte(b: Byte)
    requires ByteBits(b) == Zeros(8)
    ensures b == Byte(0)
  {
    ByteBitsInjective(b, Byte(0));
    assert ByteBits(Byte(0)) == Zeros(8);
  }

  /** The pending bits of `a` and all of `b`, moved to the top of the word. */
  lemma LoadPending(a: Byte, n: nat, b: Byte)
    requires n <= 8
    ensures WordBits(Shl(Join(Up(a), b), 8 - n)) == LowBits(a, n) + ByteBits(b) + Zeros(8 - n)
  {
    hide ByteBits, Hi, Lo, Up, Join, Shl;
    UpParts(a);
    JoinParts(Up(a), b);
    ShlBits(Join(Up(a), b), 8 - n);
  }

  /** Moving the word back leaves the newest of its bits in its lower byte. */
  lemma BackBits(w: bv16, bits: Bits, j: nat, n: nat)
    requires j <= 16 && |bits| == 16 - j && WordBits(w) == bits + Zeros(j)
    requires n <= 8 && n <= |bits|
    ensures LowBits(Lo(Shr(w, j)), n) == bits[|bits| - n..]
  {
    hide ByteBits, Hi, Lo, Shr;
    ShrBits(w, j);
    assert WordBits(Shr(w, j)) == Zeros(j) + bits;
    assert WordBits(Shr(w, j))[8..] == ByteBits(Lo(Shr(w, j)));
  }

  /** The upper byte of the word is the window of the next eight bits. */
  lemma WindowBits(w: bv16, bits: Bits, j: nat)
    requires j <= 8 && |bits| == 16 - j && WordBits(w) == bits + Zeros(j)
    ensures bits[..8] == ByteBits(Hi(w))
    ensures WordBits(Shl1(w)) == bits[1..] + Zeros(j + 1)
  {
    hide ByteBits, Hi, Lo, Shl1;
    assert WordBits(w)[..8] == ByteBits(Hi(w));
    hide WordBits;
    ShlOne(w);
  }
}
