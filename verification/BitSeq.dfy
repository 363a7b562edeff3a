/**
 Bit streams. Every serial line of the program sends the most significant bit of
 a byte first; `ToBits` is that order, and `LowBits` the part of a shift register
 that holds bits not yet made into a whole byte.
*/
module BitSeq {
  /** Eight bits. Wrapped, so that a queue of bytes is reasoned about without looking into them. */
  datatype Byte = Byte(v: bv8)

  type Bits = seq<bool>

  function ByteBits(b: Byte): (r: Bits)
    ensures |r| == 8
  {
    [b.v & 0x80 != 0, b.v & 0x40 != 0, b.v & 0x20 != 0, b.v & 0x10 != 0,
     b.v & 0x08 != 0, b.v & 0x04 != 0, b.v & 0x02 != 0, b.v & 0x01 != 0]
  }

  function ToBits(bytes: seq<Byte>): (r: Bits)
    ensures |r| == 8 * |bytes|
  {
    if bytes == [] then [] else ByteBits(bytes[0]) + ToBits(bytes[1..])
  }

  /** The `n` low-order bits of a shift register, oldest first. */
  function LowBits(b: Byte, n: nat): (r: Bits)
    requires n <= 8
    ensures |r| == n
  {
    ByteBits(b)[8 - n..]
  }

  function Zeros(n: nat): (r: Bits)
    ensures |r| == n
  {
    seq(n, _ => false)
  }

  function Ones(n: nat): (line: Bits)
    ensures |line| == n && forall i :: 0 <= i < n ==> line[i]
  {
    seq(n, _ => true)
  }

  lemma {:induction false} ToBitsAppend(a: seq<Byte>, b: seq<Byte>)
    ensures ToBits(a + b) == ToBits(a) + ToBits(b)
  {
    hide ByteBits;
    if a == [] {
      assert a + b == b;
    } else {
      ToBitsAppend(a[1..], b);
      assert (a + b)[1..] == a[1..] + b;
      calc {
        ToBits(a + b);
        ByteBits(a[0]) + ToBits(a[1..] + b);
        ByteBits(a[0]) + (ToBits(a[1..]) + ToBits(b));
        ToBits(a) + ToBits(b);
      }
    }
  }

  lemma ToBitsOne(b: Byte)
    ensures ToBits([b]) == ByteBits(b)
  {
    assert [b][1..] == [];
  }

  lemma ByteBitsInjective(a: Byte, b: Byte)
    requires ByteBits(a) == ByteBits(b)
    ensures a == b
  {
  }

  /** Two byte strings with the same bits are the same. */
  lemma {:induction false} ToBitsInjective(a: seq<Byte>, b: seq<Byte>)
    requires ToBits(a) == ToBits(b)
    ensures a == b
  {
    assert |a| == |b| by { assert 8 * |a| == 8 * |b|; }
    if a != [] {
      assert ByteBits(a[0]) == ToBits(a)[..8] == ToBits(b)[..8] == ByteBits(b[0]);
      ByteBitsInjective(a[0], b[0]);
      assert ToBits(a[1..]) == ToBits(a)[8..] == ToBits(b)[8..] == ToBits(b[1..]);
      ToBitsInjective(a[1..], b[1..]);
    }
  }

  /** The byte shifted up by one, `x` coming in at the bottom. */
  function AppendBit(b: Byte, x: bool): Byte { Byte((b.v << 1) | (if x then 1 else 0)) }

  /** Shifting a byte up drops its oldest bit and takes in a new one. */
  lemma ShiftIn(b: Byte, x: bool)
    ensures ByteBits(AppendBit(b, x)) == ByteBits(b)[1..] + [x]
  {
  }
}
