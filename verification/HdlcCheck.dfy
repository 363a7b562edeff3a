/** The comparison in `isFcsOK`, in terms of the codeword the frame is. */
module HdlcCheck {
  import opened BitSeq
  import opened HdlcWord
  import opened HdlcChunk
  import opened Fcs
  import opened FcsDetection

  /** The lower half of the chunk register, as a `WORD`. */
  function LowWord(c: bv32): bv16 { (c & 0xFFFF) as bv16 }

  function Low16(c: bv32): bv32 { c & 0xFFFF }

  /** A frame is good: whole bytes, with check bits that are those of its data. */
  predicate Good(d: Bits) {
    |d| >= 16 && |d| % 8 == 0 && Accepted(d)
  }

  function Raise(c: bv32, k: nat): bv32 { if k == 0 then c else HdlcChunk.Push(Raise(c, k - 1), false) }

  lemma {:induction false} RaiseBits(c: bv32, k: nat)
    requires k <= 16
    ensures ChunkBits(Raise(c, k), 16) == ChunkBits(c, 16 - k) + Zeros(k)
    decreases k
  {
    hide ChunkBits, HdlcChunk.Push;
    if k > 0 {
      RaiseBits(c, k - 1);
      PushBits(Raise(c, k - 1), false, 16);
      PushBits(Raise(c, k - 1), false, 15);
      ChunkTail(Raise(c, k), 17);
      ChunkTail(Raise(c, k - 1), 16);
      ChunkTail(c, 16 - k + 1);
    }
  }

  lemma ChunkTail(c: bv32, n: nat)
    requires 0 < n <= 24
    ensures ChunkBits(c, n)[1..] == ChunkBits(c, n - 1)
  {
    hide ByteBits, Byte0, Byte1, Byte2;
  }

  lemma TopOfChunk(c: bv32)
    ensures ChunkBits(c, 16)[0] == TopSet(Byte1(c))
  {
    hide ByteBits, Byte0, Byte1, Byte2, TopSet;
    HeldBytes(c);
    EndBits(Byte1(c));
  }

  lemma PutTop(u: bv32)
    ensures FcsDetection.Push(TopSet(Byte1(u)), Low16(HdlcChunk.Push(u, false))) == Low16(u)
  {
    if TopSet(Byte1(u)) {
      PutTopBv(u, 1);
    } else {
      PutTopBv(u, 0);
    }
  }

  lemma PutTopBv(u: bv32, x: bv32)
    requires x == (u >> 15) & 1
    ensures (x << 15) | (((u << 1) & 0xFFFF) >> 1) == u & 0xFFFF
  {
  }

  lemma LowZero(c: bv32)
    requires ChunkBits(c, 16) == Zeros(16)
    ensures Low16(c) == 0
  {
    hide ByteBits, Byte0, Byte1, Byte2, Low16;
    HeldBytes(c);
    assert ByteBits(Byte1(c)) == ChunkBits(c, 16)[..8] == Zeros(8);
    assert ByteBits(Byte0(c)) == ChunkBits(c, 16)[8..] == Zeros(8);
    ZeroByte(Byte1(c));
    ZeroByte(Byte0(c));
    LowParts(c);
  }

  lemma LowParts(c: bv32)
    requires Byte1(c) == Byte(0) && Byte0(c) == Byte(0)
    ensures Low16(c) == 0
  {
  }

  /** The held-back bits, as a number, are the lower half of the register. */
  lemma {:induction false} WordOfChunk(c: bv32, n: nat)
    requires n <= 16
    ensures Word(ChunkBits(c, n)) == Low16(Raise(c, 16 - n))
    decreases n
  {
    hide ChunkBits, HdlcChunk.Push, FcsDetection.Push, Low16, TopSet;
    RaiseBits(c, 16 - n);
    if n == 0 {
      LowZero(Raise(c, 16));
    } else {
      var u := Raise(c, 16 - n);
      WordOfChunk(c, n - 1);
      ChunkTail(c, n);
      TopOfChunk(u);
      assert ChunkBits(c, n)[0] == ChunkBits(u, 16)[0];
      PutTop(u);
    }
  }

  function Narrow(x: bv32): bv16
    requires x & 0xFFFF == x
  {
    x as bv16
  }

  function Wide(x: bv16): bv32 { x as bv32 }

  lemma NarrowWide(x: bv32)
    requires x & 0xFFFF == x
    ensures Wide(Narrow(x)) == x
  {
  }

  lemma LowWordParts(c: bv32, f: bv32)
    requires f & 0xFFFF == f
    ensures Low16(c) & 0xFFFF == Low16(c) && LowWord(c) == Narrow(Low16(c))
    ensures Add(f, INIT) & 0xFFFF == Add(f, INIT) && Value(f) == Narrow(Add(f, INIT))
  {
    ComplementBv(f);
  }

  lemma ComplementBv(f: bv32)
    requires f & 0xFFFF == f
    ensures (f ^ 0xFFFF) & 0xFFFF == f ^ 0xFFFF
  {
  }

  lemma LowWordIs(c: bv32, f: bv32)
    requires f & 0xFFFF == f
    ensures LowWord(c) == Value(f) <==> Low16(c) == Add(f, INIT)
  {
    hide LowWord, Value, Low16, Add, Narrow, Wide;
    LowWordParts(c, f);
    NarrowWide(Low16(c));
    NarrowWide(Add(f, INIT));
  }

  /** With `data` received and the chunk at 16 bits, the comparison tells exactly whether the codeword is accepted. */
  lemma {:induction false} CompareAccepts(data: seq<Byte>, c: bv32)
    ensures LowWord(c) == Value(Run(INIT, ToBits(data))) <==> Good(ToBits(data) + ChunkBits(c, 16))
  {
    hide ChunkBits, ByteBits, LowWord, Value, Low16, Add, InRange;
    var bits := ToBits(data);
    var code := bits + ChunkBits(c, 16);
    assert code[..|code| - 16] == bits && code[|code| - 16..] == ChunkBits(c, 16);
    WordOfChunk(c, 16);
    ZeroInRange();
    RunInRange(INIT, bits);
    InRangeIs(Run(INIT, bits));
    LowWordIs(c, Run(INIT, bits));
  }

  lemma InRangeIs(f: bv32)
    requires InRange(f)
    ensures f & 0xFFFF == f
  {
  }

  // -------------------------------------------------------------- what a sender appends

  function Pair(a: Byte, b: Byte): bv32 { ((a.v as bv32) << 8) | (b.v as bv32) }

  lemma PairParts(a: Byte, b: Byte)
    ensures Byte1(Pair(a, b)) == a && Byte0(Pair(a, b)) == b
  {
  }

  lemma TrailerPair(v: bv16)
    ensures var t := Trailer(v); LowWord(Pair(t[0], t[1])) == v
  {
    TrailerPairBv(v, (v >> 8) as bv8, (v & 0xFF) as bv8);
  }

  lemma TrailerPairBv(v: bv16, a: bv8, b: bv8)
    requires a == (v >> 8) as bv8 && b == (v & 0xFF) as bv8
    ensures ((((a as bv32) << 8) | (b as bv32)) & 0xFFFF) as bv16 == v
  {
  }

  lemma SpoiltPair(a: Byte, b: Byte)
    ensures LowWord(Pair(Byte(a.v + 1), b)) != LowWord(Pair(a, b))
  {
    PairParts(a, b);
    PairParts(Byte(a.v + 1), b);
    LowWordParts1(Pair(a, b));
    LowWordParts1(Pair(Byte(a.v + 1), b));
  }

  lemma LowWordParts1(c: bv32)
    ensures Byte1(c) == Byte(((LowWord(c) >> 8) & 0xFF) as bv8)
  {
  }

  /** The contents of a frame on the line: its data and the check bytes that close it. */
  function Contents(data: seq<Byte>, bad: bool): Bits {
    ToBits(data) + ToBits(Closing(Run(INIT, ToBits(data)), bad))
  }

  /** The check passes for a frame sent as good, and fails for a frame sent as bad. */
  lemma {:induction false} ContentsGood(data: seq<Byte>, bad: bool)
    ensures Good(Contents(data, bad)) <==> !bad
  {
    hide ChunkBits, ByteBits, LowWord, Value, Trailer, Pair, Good, Byte0, Byte1;
    var v := Value(Run(INIT, ToBits(data)));
    var t := Trailer(v);
    var x := Closing(Run(INIT, ToBits(data)), bad);
    var c := Pair(x[0], x[1]);
    PairParts(x[0], x[1]);
    HeldBytes(c);
    assert x == [x[0]] + [x[1]];
    ToBitsAppend([x[0]], [x[1]]);
    ToBitsOne(x[0]);
    ToBitsOne(x[1]);
    CompareAccepts(data, c);
    TrailerPair(v);
    if bad {
      SpoiltPair(t[0], t[1]);
    } else {
      assert x == t;
    }
  }
}
