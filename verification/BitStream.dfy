/** The bit packer over a caller's buffer: a 32-bit shift register and a count of the bits waiting in it. */
module BitStreams {
  import opened BitSeq
  import opened BitValues
  import opened BitPacking

  type Word = x: nat | x < Pow2(32) witness 0

  // ------------------------------------------------------------- the register's arithmetic

  /** `low` under `high`, in `m + n` bits. */
  lemma Below(low: nat, high: nat, m: nat, n: nat)
    requires low < Pow2(m) && high < Pow2(n)
    ensures low + Up(high, m) < Pow2(m + n)
  {
    hide Pow2;
    Pow2Add(m, n);
    Under(low, high, Pow2(m), Pow2(n));
  }

  lemma Under(low: nat, high: nat, p: nat, d: nat)
    requires low < p && high < d
    ensures low + high * p < p * d
  {
    Scale(p, high, d - 1);
    assert p * (d - 1) == p * d - p;
  }

  /** Bits or-ed in above the `m` that wait. */
  lemma {:induction false} LowAdd(b: nat, m: nat, v: nat, n: nat)
    requires b < Pow2(m) && v < Pow2(n) && m + n <= 32
    ensures Low(Up(v, m), 32) == Up(v, m)
    ensures Or(b, Up(v, m)) < Pow2(m + n) <= Pow2(32)
    ensures LowFirst(Or(b, Up(v, m)), m + n) == LowFirst(b, m) + LowFirst(v, n)
  {
    hide Pow2, Up, Down, Or;
    Below(b, v, m, n);
    Below(0, v, m, n);
    Pow2Grows(m + n, 32);
    LowSmall(Up(v, m), 32);
    OrBeside(b, v, m);
    var w := b + Up(v, m);
    LowSplit(w, m, n);
    Whole(b, v, m);
    LaidMod(true, w, m, m);
  }

  lemma LowSmall(v: nat, n: nat)
    requires v < Pow2(n)
    ensures Low(v, n) == v && Down(v, n) == 0
  {
    hide Pow2;
    Quotient(v, Pow2(n), 0, v);
  }

  /** Bits or-ed in below the register, shifted up to make room; what is shifted out was not waiting. */
  lemma {:induction false} HighAdd(b: nat, m: nat, v: nat, n: nat)
    requires v < Pow2(n) && m + n <= 32
    ensures Or(Low(Up(b, n), 32), v) < Pow2(32)
    ensures HighFirst(Or(Low(Up(b, n), 32), v), m + n) == HighFirst(b, m) + HighFirst(v, n)
  {
    hide Pow2, Up, Down, Low, Or;
    var k := 32 - n;
    var top := Low(b, k);
    LowUp(b, n);
    OrSwap(Up(top, n), v);
    OrBeside(v, top, n);
    var w := v + Up(top, n);
    Below(v, top, n, k);
    HighSplit(w, m, n);
    Whole(v, top, n);
    LaidMod(false, w, n, n);
    LaidMod(false, b, k, m);
  }

  /** A shift up in 32 bits. */
  lemma LowUp(b: nat, n: nat)
    requires n <= 32
    ensures Low(Up(b, n), 32) == Up(Low(b, 32 - n), n)
  {
    hide Pow2;
    var p, d := Pow2(n), Pow2(32 - n);
    Pow2Add(32 - n, n);
    Divide(b, d);
    Times(b / d, b % d, p, d);
    Quotient(b * p, d * p, b / d, b % d * p);
  }

  lemma Times(q: nat, r: nat, p: nat, d: nat)
    requires r < d && p > 0
    ensures (d * q + r) * p == (d * p) * q + r * p && r * p < d * p
  {
    assert (d * q + r) * p == (d * p) * q + r * p;
    Scale(p, r, d - 1);
    assert p * (d - 1) == d * p - p;
  }

  lemma LowSpill(b: nat, m: nat)
    requires b < Pow2(m) && m >= 8
    ensures LowFirst(b, m) == LowFirst(Low(b, 8), 8) + LowFirst(Down(b, 8), m - 8) && Down(b, 8) < Pow2(m - 8)
  {
    hide Pow2, Low, Down;
    LowSplit(b, 8, m - 8);
    LaidMod(true, b, 8, 8);
    DownFits(b, 8, m - 8);
  }

  lemma DownFits(b: nat, n: nat, k: nat)
    requires b < Pow2(n + k)
    ensures Down(b, n) < Pow2(k)
  {
    hide Pow2;
    Pow2Add(n, k);
    Divide(b, Pow2(n));
    if Down(b, n) >= Pow2(k) { Scale(Pow2(n), Pow2(k), Down(b, n)); }
  }

  lemma HighSpill(b: nat, m: nat)
    requires m >= 8
    ensures HighFirst(b, m) == HighFirst(Low(Down(b, m - 8), 8), 8) + HighFirst(b, m - 8)
  {
    hide Pow2, Low, Down;
    HighSplit(b, 8, m - 8);
    LaidMod(false, Down(b, m - 8), 8, 8);
  }

  /** The last octet, filled up with zeros. */
  lemma LowFlush(b: nat, m: nat)
    requires m < 8
    ensures Low(b, m) < Pow2(8) && LowFirst(Low(Low(b, m), 8), 8) == LowFirst(b, m) + Zeros(8 - m)
  {
    hide Pow2, Low, Down, Zeros;
    var w := Low(b, m);
    Pow2Grows(m, 8);
    LowSmall(w, 8);
    LowSplit(w, m, 8 - m);
    LaidMod(true, b, m, m);
    LowSmall(w, m);
    NoBits(true, 8 - m);
  }

  lemma HighFlush(b: nat, m: nat)
    requires m < 8
    ensures HighFirst(Low(Up(Low(b, m), 8 - m), 8), 8) == HighFirst(b, m) + Zeros(8 - m)
  {
    hide Pow2, Low, Down, Up, Zeros;
    var w := Up(Low(b, m), 8 - m);
    PowPositive(8 - m);
    LaidMod(false, w, 8, 8);
    HighSplit(w, m, 8 - m);
    Whole(0, Low(b, m), 8 - m);
    LaidMod(false, b, m, m);
    LaidMod(false, w, 8 - m, 8 - m);
    NoBits(false, 8 - m);
  }

  lemma PowPositive(n: nat)
    ensures Pow2(n) > 0
  {
  }

  // ------------------------------------------------------------- the object

  class BitStream {
    var bitstream: Word
    var residue: nat
    const lsbFirst: bool

    /** Under eight bits wait between calls. */
    predicate Valid()
      reads this
    {
      residue < 8 && Clear()
    }

    /** With the low bit first, nothing stands above the waiting bits. */
    predicate Clear()
      reads this
    {
      lsbFirst ==> bitstream < Pow2(residue)
    }

    /** The bits that wait, in the order they go down the stream. */
    function Pending(): Bits
      reads this
    {
      Laid(lsbFirst, bitstream, residue)
    }

    constructor (lsbFirst: bool)
      ensures Valid() && Pending() == [] && this.lsbFirst == lsbFirst
    {
      bitstream, residue, this.lsbFirst := 0, 0, lsbFirst;
    }

    method Put(c: array<Octet>, at: nat, value: Word, bits: nat) returns (next: nat)
      requires Valid() && 1 <= bits <= 25 && at + (residue + bits) / 8 <= c.Length
      modifies this, c
      ensures Valid() && next == at + (old(residue) + bits) / 8
      ensures PutStep(lsbFirst, old(Pending()), Field(value, bits), c[at..next], Pending())
      ensures c[..at] == old(c[..at]) && c[next..] == old(c[next..])
    {
      Take(value, bits);
      next := Spill(c, at);
    }

    /** The value joins the waiting bits; the guard never turns it away. */
    method Take(value: Word, bits: nat)
      requires Valid() && 1 <= bits <= 25
      modifies this
      ensures residue == old(residue) + bits && Clear()
      ensures Pending() == old(Pending()) + Laid(lsbFirst, value, bits)
    {
      hide LowFirst, HighFirst, Or, Up, Down, Low;
      var v := Low(value, bits);
      LaidMod(lsbFirst, value, bits, bits);
      if residue + bits <= 32 {
        if lsbFirst {
          LowAdd(bitstream, residue, v, bits);
          bitstream := Or(bitstream, Low(Up(v, residue), 32));
        } else {
          HighAdd(bitstream, residue, v, bits);
          bitstream := Or(Low(Up(bitstream, bits), 32), v);
        }
        residue := residue + bits;
      }
    }

    /** Every whole octet goes out. */
    method Spill(c: array<Octet>, at: nat) returns (next: nat)
      requires Clear() && residue <= 32 && at + residue / 8 <= c.Length
      modifies this, c
      ensures Valid() && next == at + old(residue) / 8
      ensures OctetsLaid(lsbFirst, c[at..next]) + Pending() == old(Pending())
      ensures c[..at] == old(c[..at]) && c[next..] == old(c[next..])
    {
      hide LowFirst, HighFirst, OctetsLaid, Up, Down, Low, Laid, Pow2;
      next := at;
      NoOctets(lsbFirst);
      while residue >= 8
        invariant Clear() && at <= next && next + residue / 8 == at + old(residue) / 8
        invariant OctetsLaid(lsbFirst, c[at..next]) + Pending() == old(Pending())
        invariant forall i :: 0 <= i < at || next <= i < c.Length ==> c[i] == old(c[i])
      {
        ghost var before, waiting := c[at..next], Pending();
        ghost var o := SpillOne(c, next);
        next := next + 1;
        assert c[at..next] == before + [o];
        OctetsAppend(lsbFirst, before, o);
        Regroup(OctetsLaid(lsbFirst, before), Laid(lsbFirst, o, 8), Pending());
      }
    }

    /** The octet that has waited longest. */
    method SpillOne(c: array<Octet>, next: nat) returns (ghost o: Octet)
      requires Clear() && 8 <= residue <= 32 && next < c.Length
      modifies this, c
      ensures Clear() && residue == old(residue) - 8 && c[next] == o
      ensures old(Pending()) == Laid(lsbFirst, o, 8) + Pending()
      ensures forall i :: 0 <= i < c.Length && i != next ==> c[i] == old(c[i])
    {
      hide LowFirst, HighFirst, Up, Down, Low;
      if lsbFirst {
        LowSpill(bitstream, residue);
        residue := residue - 8;
        c[next] := Low(bitstream, 8);
        bitstream := Down(bitstream, 8);
      } else {
        HighSpill(bitstream, residue);
        residue := residue - 8;
        c[next] := Low(Down(bitstream, residue), 8);
      }
      o := c[next];
    }

    method Flush(c: array<Octet>, at: nat) returns (next: nat)
      requires Valid() && (residue > 0 ==> at < c.Length) && at <= c.Length
      modifies this, c
      ensures Valid() && Pending() == [] && next == (if old(residue) > 0 then at + 1 else at)
      ensures FlushStep(lsbFirst, old(Pending()), c[at..next])
      ensures c[..at] == old(c[..at]) && c[next..] == old(c[next..])
    {
      hide LowFirst, HighFirst, OctetsLaid, Up, Down, Low;
      next := at;
      NoOctets(lsbFirst);
      if residue > 0 {
        LowFlush(bitstream, residue);
        HighFlush(bitstream, residue);
        bitstream := Low(bitstream, residue);
        if lsbFirst {
          c[next] := Low(bitstream, 8);
        } else {
          c[next] := Low(Up(bitstream, 8 - residue), 8);
        }
        next := next + 1;
        assert c[at..next] == [] + [c[at]];
        OctetsAppend(lsbFirst, [], c[at]);
        assert OctetsLaid(lsbFirst, c[at..next]) == old(Pending()) + Zeros(8 - residue);
        residue := 0;
      } else {
        assert OctetsLaid(lsbFirst, c[at..next]) == old(Pending()) + Zeros(0);
      }
      bitstream := 0;
    }

    method Get(c: array<Octet>, at: nat, bits: nat) returns (x: nat, next: nat)
      requires Valid() && 1 <= bits <= 25 && at <= c.Length && bits <= residue + 8 * (c.Length - at)
      modifies this
      ensures Valid() && at <= next <= c.Length
      ensures GetStep(lsbFirst, old(Pending()) + OctetsLaid(lsbFirst, c[at..]), bits, x, Pending() + OctetsLaid(lsbFirst, c[next..]))
    {
      hide LowFirst, HighFirst, OctetsLaid, Up, Down, Low, Laid, Pow2, Number;
      next := Fill(c, at, bits);
      TakeFront(Pending(), OctetsLaid(lsbFirst, c[next..]), bits);
      x := Give(bits);
    }

    /** Octets join the waiting bits until there are enough. */
    method Fill(c: array<Octet>, at: nat, bits: nat) returns (next: nat)
      requires Valid() && 1 <= bits <= 25 && at <= c.Length && bits <= residue + 8 * (c.Length - at)
      modifies this
      ensures Clear() && at <= next <= c.Length && bits <= residue < bits + 8 <= 33
      ensures Pending() + OctetsLaid(lsbFirst, c[next..]) == old(Pending()) + OctetsLaid(lsbFirst, c[at..])
    {
      hide LowFirst, HighFirst, OctetsLaid, Up, Down, Low, Laid, Pow2;
      next := at;
      while residue < bits
        invariant Clear() && at <= next <= c.Length && residue < bits + 8 && bits <= residue + 8 * (c.Length - next)
        invariant Pending() + OctetsLaid(lsbFirst, c[next..]) == old(Pending()) + OctetsLaid(lsbFirst, c[at..])
        decreases bits - residue
      {
        ghost var waiting := Pending();
        OctetsHead(lsbFirst, c[next..]);
        FillOne(c[next]);
        Regroup(waiting, Laid(lsbFirst, c[next], 8), OctetsLaid(lsbFirst, c[next + 1..]));
        next := next + 1;
      }
    }

    method FillOne(o: Octet)
      requires Clear() && residue <= 24
      modifies this
      ensures Clear() && residue == old(residue) + 8 && Pending() == old(Pending()) + Laid(lsbFirst, o, 8)
    {
      hide LowFirst, HighFirst, Or, Up, Down, Low;
      OctetFits(o);
      if lsbFirst {
        LowAdd(bitstream, residue, o, 8);
        bitstream := Or(bitstream, Low(Up(o, residue), 32));
      } else {
        HighAdd(bitstream, residue, o, 8);
        bitstream := Or(Low(Up(bitstream, 8), 32), o);
      }
      residue := residue + 8;
    }

    /** The first of the waiting bits go to the caller, as a number. */
    method Give(bits: nat) returns (x: nat)
      requires Clear() && bits <= residue < bits + 8 <= 33
      modifies this
      ensures Valid() && x == Number(lsbFirst, old(Pending())[..bits]) && Pending() == old(Pending())[bits..]
    {
      hide LowFirst, HighFirst, Up, Down, Low;
      if lsbFirst {
        LowGive(bitstream, residue, bits);
        residue := residue - bits;
        x := Low(bitstream, bits);
        bitstream := Down(bitstream, bits);
      } else {
        HighGive(bitstream, residue, bits);
        residue := residue - bits;
        x := Low(Down(bitstream, residue), bits);
      }
    }
  }

  lemma NoOctets(lsbFirst: bool)
    ensures OctetsLaid(lsbFirst, []) == []
  {
  }

  lemma OctetFits(o: Octet)
    ensures o < Pow2(8)
  {
  }

  lemma LowGive(b: nat, m: nat, n: nat)
    requires b < Pow2(m) && n <= m
    ensures LowFirst(b, m)[..n] == LowFirst(b, n) && LowFirst(b, m)[n..] == LowFirst(Down(b, n), m - n)
    ensures Number(true, LowFirst(b, n)) == Low(b, n) && Down(b, n) < Pow2(m - n)
  {
    hide Pow2, Low, Down, LowFirst, Number;
    LowSplit(b, n, m - n);
    NumberLaid(true, b, n);
    DownFits(b, n, m - n);
  }

  lemma HighGive(b: nat, m: nat, n: nat)
    requires n <= m
    ensures HighFirst(b, m)[..n] == HighFirst(Down(b, m - n), n) && HighFirst(b, m)[n..] == HighFirst(b, m - n)
    ensures Number(false, HighFirst(Down(b, m - n), n)) == Low(Down(b, m - n), n)
  {
    hide Pow2, Low, Down, HighFirst, Number;
    HighSplit(b, n, m - n);
    NumberLaid(false, Down(b, m - n), n);
  }

  lemma {:induction false} OctetsHead(lsbFirst: bool, octets: seq<Octet>)
    requires octets != []
    ensures OctetsLaid(lsbFirst, octets) == Laid(lsbFirst, octets[0], 8) + OctetsLaid(lsbFirst, octets[1..])
    decreases |octets|
  {
    hide Laid;
    var n := |octets| - 1;
    if n > 0 {
      OctetsHead(lsbFirst, octets[..n]);
      assert octets[..n][1..] == octets[1..][..n - 1];
    }
  }
}
