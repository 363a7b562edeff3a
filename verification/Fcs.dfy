/**
 The 16-bit frame check sequence (generator x^16 + x^12 + x^5 + 1) as `FCS::build`
 computes it, and the transmission errors it always detects.
*/
module Fcs {
  import opened BitSeq

  const INIT: bv32 := 0xFFFF

  /**
   One division step on the 16-bit register, `x` being the message bit as 0 or 1: when the
   bit that leaves differs from the message bit, x^12 + x^5 + 1 is added in.
  */
  function Shift(f: bv32, x: bv32): bv32 {
    var t := ((f >> 15) ^ x) & 1;
    ((f << 1) & 0xFFFF) ^ t ^ (t << 5) ^ (t << 12)
  }

  function Bit(x: bool): bv32 { if x then 1 else 0 }

  function Step(f: bv32, bit: bool): bv32 { Shift(f, Bit(bit)) }

  /** Division of a whole bit string, from register value `f`. */
  function Run(f: bv32, bits: Bits): bv32
    decreases |bits|
  {
    if bits == [] then f else Run(Step(f, bits[0]), bits[1..])
  }

  predicate InRange(f: bv32) { f & 0xFFFF == f }

  /** The value `operator WORD` hands out. */
  function Value(f: bv32): bv16 { ((f ^ 0xFFFF) & 0xFFFF) as bv16 }

  /** The frame check sequence of a byte string. */
  function Of(data: seq<Byte>): bv16 { Value(Run(INIT, ToBits(data))) }

  /** The two bytes a transmitter appends, high byte first. */
  function Trailer(v: bv16): (r: seq<Byte>)
    ensures |r| == 2
  {
    [Byte((v >> 8) as bv8), Byte((v & 0xFF) as bv8)]
  }

  /** The two bytes that close a frame: its check sequence, spoilt on purpose for a bad frame. */
  function Closing(f: bv32, bad: bool): (r: seq<Byte>)
    ensures |r| == 2
  {
    var t := Trailer(Value(f));
    if bad then [Byte(t[0].v + 1), t[1]] else t
  }

  class FCS {
    var fcs: bv32

    constructor ()
      ensures fcs == INIT
    {
      fcs := INIT;
    }

    /** `fcs = FCS()`. */
    method Reset()
      modifies this
      ensures fcs == INIT && InRange(fcs)
    {
      fcs := INIT;
    }

    method Build(buf: seq<Byte>)
      requires InRange(fcs)
      modifies this
      ensures InRange(fcs)
      ensures fcs == Run(old(fcs), ToBits(buf))
    {
      hide Step, ByteBits, InRange;
      for i := 0 to |buf|
        invariant InRange(fcs)
        invariant Run(fcs, ToBits(buf[i..])) == Run(old(fcs), ToBits(buf))
      {
        ghost var rest := ToBits(buf[i + 1..]);
        assert buf[i..][0] == buf[i] && buf[i..][1..] == buf[i + 1..];
        BuildByte(buf[i], rest);
      }
      assert buf[|buf|..] == [];
    }

    /** The inner loop: one byte, most significant bit first. */
    method BuildByte(c: Byte, ghost rest: Bits)
      requires InRange(fcs)
      modifies this
      ensures InRange(fcs)
      ensures Run(fcs, rest) == Run(old(fcs), ByteBits(c) + rest)
    {
      hide Step, ByteBits, InRange, MaskAt, Coded;
      MaskEnds();
      var m: bv8 := 0x80;
      ghost var k := 0;
      ghost var bits := ByteBits(c) + rest;
      assert bits[0..] == bits;
      while m != 0
        invariant 0 <= k <= 8
        invariant m == MaskAt(k)
        invariant InRange(fcs)
        invariant Run(fcs, bits[k..]) == Run(old(fcs), bits)
        decreases 8 - k
      {
        MaskReads(c, k);
        assert bits[k] == ByteBits(c)[k] && bits[k..][1..] == bits[k + 1..];
        StepAsCoded(fcs, c.v & m != 0);
        BuildBit(c.v & m != 0);
        m := m >> 1;
        k := k + 1;
      }
      assert bits[8..] == rest;
    }

    /** The body of the inner loop. */
    method BuildBit(one: bool)
      modifies this
      ensures fcs == Coded(old(fcs), one)
    {
      hide Doubled, Flipped, Reduced, Overflows;
      fcs := Doubled(fcs);
      if one {
        fcs := Flipped(fcs);
      }
      if Overflows(fcs) {
        fcs := Reduced(fcs);
      }
    }
  }

  function Doubled(f: bv32): bv32 { f << 1 }

  function Flipped(f: bv32): bv32 { f ^ 0x10000 }

  predicate Overflows(f: bv32) { f & 0x10000 != 0 }

  function Reduced(f: bv32): bv32 { f ^ 0x11021 }

  /** What the statements of the inner loop make of the register. */
  function Coded(f: bv32, bit: bool): bv32 {
    var f1 := Doubled(f);
    var f2 := if bit then Flipped(f1) else f1;
    if Overflows(f2) then Reduced(f2) else f2
  }

  /** The mask that picks bit `k` of a byte, counted from the top. */
  function MaskAt(k: nat): bv8 {
    if k == 0 then 0x80 else if k == 1 then 0x40 else if k == 2 then 0x20 else if k == 3 then 0x10
    else if k == 4 then 0x08 else if k == 5 then 0x04 else if k == 6 then 0x02 else if k == 7 then 0x01 else 0
  }

  lemma MaskEnds()
    ensures MaskAt(0) == 0x80 && MaskAt(8) == 0
    ensures forall k: nat :: k < 8 ==> MaskAt(k) != 0
  {
  }

  lemma MaskReads(c: Byte, k: nat)
    requires k < 8
    ensures MaskAt(k + 1) == MaskAt(k) >> 1
    ensures (c.v & MaskAt(k) != 0) == ByteBits(c)[k]
  {
    if k < 4 {
      if k < 2 { if k == 0 {} else {} } else { if k == 2 {} else {} }
    } else {
      if k < 6 { if k == 4 {} else {} } else { if k == 6 {} else {} }
    }
  }

  lemma DoubledIs(f: bv32)
    ensures Doubled(f) == f << 1
  {
  }

  lemma FlippedIs(f: bv32)
    ensures Flipped(f) == f ^ 0x10000
  {
  }

  lemma OverflowsIs(f: bv32)
    ensures Overflows(f) <==> f & 0x10000 != 0
  {
  }

  lemma ReducedIs(f: bv32)
    ensures Reduced(f) == f ^ 0x11021
  {
  }

  /** The statements of the inner loop are one division step, and keep the register in range. */
  lemma {:induction false} StepAsCoded(f: bv32, bit: bool)
    requires InRange(f)
    ensures InRange(Step(f, bit))
    ensures Coded(f, bit) == Step(f, bit)
  {
    hide Shift, Doubled, Flipped, Reduced, Overflows;
    ShiftInRange(f, Bit(bit));
    var d := Doubled(f);
    var e := Flipped(d);
    DoubledIs(f);
    FlippedIs(d);
    OverflowsIs(d); OverflowsIs(e);
    ReducedIs(d); ReducedIs(e);
    ShiftCodedZero(f, d, Reduced(d), Overflows(d));
    ShiftCodedOne(f, d, e, Reduced(e), Overflows(e));
  }

  lemma ShiftCodedZero(f: bv32, d: bv32, r: bv32, over: bool)
    requires f & 0xFFFF == f && d == f << 1 && r == d ^ 0x11021 && (over <==> d & 0x10000 != 0)
    ensures over ==> r == Shift(f, 0)
    ensures !over ==> d == Shift(f, 0)
  {
  }

  lemma ShiftCodedOne(f: bv32, d: bv32, e: bv32, r: bv32, over: bool)
    requires f & 0xFFFF == f && d == f << 1 && e == d ^ 0x10000 && r == e ^ 0x11021 && (over <==> e & 0x10000 != 0)
    ensures over ==> r == Shift(f, 1)
    ensures !over ==> e == Shift(f, 1)
  {
  }

  lemma ShiftInRange(f: bv32, x: bv32)
    ensures InRange(Shift(f, x))
  {
  }

  /** A division step loses nothing: different registers stay different. */
  lemma {:induction false} ShiftInjective(f: bv32, g: bv32, x: bv32)
    requires f & 0xFFFF == f && g & 0xFFFF == g
    requires Shift(f, x) == Shift(g, x)
    ensures f == g
  {
  }

  function Add(f: bv32, g: bv32): bv32 { f ^ g }

  lemma ShiftLinear(f: bv32, g: bv32, x: bv32, y: bv32)
    ensures Shift(Add(f, g), Add(x, y)) == Add(Shift(f, x), Shift(g, y))
  {
  }

  /** The bit `x` put on top of the register `g` moved down by one. */
  function PushBit(x: bv32, g: bv32): bv32 { (x << 15) | (g >> 1) }

  /** A message bit acts as if it had been added to the top of the register. */
  lemma ShiftFolds(f: bv32, g: bv32, x: bv32)
    requires f & 0xFFFF == f && g & 0xFFFF == g && g & 1 == 0 && x & 1 == x
    ensures Shift(Add(f, PushBit(x, g)), 0) == Add(Shift(f, x), g)
  {
    hide Shift;
    ShiftFoldsBv(f, g, x);
  }

  lemma ShiftFoldsBv(f: bv32, g: bv32, x: bv32)
    requires f & 0xFFFF == f && g & 0xFFFF == g && g & 1 == 0 && x & 1 == x
    ensures Shift(f ^ ((x << 15) | (g >> 1)), 0) == Shift(f, x) ^ g
  {
  }
}
