/** The number that a list of bits stands for, the low bit first. */
module BitValues {
  import opened BitSeq

  function Pow2(n: nat): (p: nat)
    ensures p > 0
  {
    if n == 0 then 1 else 2 * Pow2(n - 1)
  }

  function Digit(b: bool): nat { if b then 1 else 0 }

  function Value(bits: Bits): nat { if bits == [] then 0 else Digit(bits[0]) + 2 * Value(bits[1..]) }

  /** The low `n` bits of `v`, the low bit first. */
  function LowFirst(v: nat, n: nat): (r: Bits)
    ensures |r| == n
  {
    if n == 0 then [] else [v % 2 == 1] + LowFirst(v / 2, n - 1)
  }

  lemma {:induction false} ValueBound(bits: Bits)
    ensures Value(bits) < Pow2(|bits|)
  {
    if bits != [] { ValueBound(bits[1..]); }
  }

  lemma {:induction false} Pow2Grows(m: nat, n: nat)
    requires m <= n
    ensures Pow2(m) <= Pow2(n)
    decreases n
  {
    if m < n { Pow2Grows(m, n - 1); }
  }

  /** A register of at most 32 bits is a 32-bit number. */
  lemma Fits(bits: Bits)
    requires |bits| <= 32
    ensures Value(bits) < Pow2(32)
  {
    ValueBound(bits);
    Pow2Grows(|bits|, 32);
  }

  lemma ValueHead(bits: Bits)
    requires bits != []
    ensures Value(bits) % 2 == Digit(bits[0]) && Value(bits) / 2 == Value(bits[1..])
  {
  }
}
