/**
 The tester as the object it is, with its registers as numbers. A register never has a bit above
 `shift2`, so `|` puts a bit where there is none, and nothing is lost to the 32 bits.
*/
module BertTesters {
  import opened BitSeq
  import opened BitValues
  import opened BertCode

  /** `reg >> k`. */
  function ShiftRight(reg: nat, k: nat): nat { if k == 0 then reg else ShiftRight(reg / 2, k - 1) }

  /** `(reg >> k) & 1`. */
  function BitAt(reg: nat, k: nat): nat { ShiftRight(reg, k) % 2 }

  lemma {:induction false} BitAtIs(bits: Bits, k: nat)
    requires k < |bits|
    ensures BitAt(Value(bits), k) == Digit(bits[k])
  {
    ValueHead(bits);
    hide Value;
    if k > 0 { BitAtIs(bits[1..], k - 1); }
  }

  /** `(b & 1) << k`. */
  function ShiftLeft(b: bool, k: nat): nat { if b then Pow2(k) else 0 }

  lemma {:induction false} ValueAppend(bits: Bits, b: bool)
    ensures Value(bits + [b]) == Value(bits) + ShiftLeft(b, |bits|)
  {
    if bits == [] {
      assert [b][1..] == [];
    } else {
      ValueAppend(bits[1..], b);
      assert (bits + [b])[1..] == bits[1..] + [b];
    }
  }

  lemma {:induction false} ValueFlip(bits: Bits, k: nat)
    requires k < |bits|
    ensures Value(bits[k := !bits[k]]) == if bits[k] then Value(bits) - Pow2(k) else Value(bits) + Pow2(k)
  {
    var flipped := bits[k := !bits[k]];
    if k == 0 {
      assert flipped[1..] == bits[1..];
    } else {
      ValueFlip(bits[1..], k - 1);
      assert flipped[1..] == bits[1..][k - 1 := !bits[k]];
    }
  }

  /** `(reg >> 1) | (((reg ^ (reg >> shift)) & 1) << shift2)`. */
  function Shifted(reg: nat, shift: nat, shift2: nat): nat {
    reg / 2 + ShiftLeft(reg % 2 != BitAt(reg, shift), shift2)
  }

  lemma {:induction false} ShiftedIs(bits: Bits, shift: nat)
    requires shift < |bits|
    ensures Shifted(Value(bits), shift, |bits| - 1) == Value(Next(bits, shift))
  {
    hide Pow2, BitAt, Value, ShiftLeft;
    ValueHead(bits);
    BitAtIs(bits, shift);
    ValueAppend(bits[1..], bits[0] != bits[shift]);
  }

  /** The patterns without a limit on zeros, by their ITU-T names. */
  datatype Pattern = O151Of23 | O151Of15 | O152Of11 | O153Of9

  datatype Settings = Settings(width: nat, shift: nat, invert: bool, resyncTime: nat)

  function SettingsOf(p: Pattern): Settings {
    match p
    case O151Of23 => Settings(23, 5, true, 56)
    case O151Of15 => Settings(15, 1, true, 40)
    case O152Of11 => Settings(11, 2, false, 32)
    case O153Of9 => Settings(9, 4, false, 28)
  }

  const END_OF_DATA: int := -7

  class BertTester {
    const shift: nat
    const shift2: nat
    const invert: bool
    const resyncTime: nat
    const limit: nat
    const resyncLen: int
    const resyncPercent: int

    var txReg: nat
    var txBits: nat
    var rxReg: nat
    var resync: nat
    var resyncBadBits: nat
    var resyncCnt: int
    var results: Results

    ghost var gen: Bits
    ghost var reg: Bits

    ghost function Fixed(): Setup { BertCode.Setup(shift, shift2 + 1, resyncTime, resyncLen, resyncPercent) }

    ghost predicate Valid()
      reads this
    {
      && SetupOk(Fixed()) && |gen| == |reg| == shift2 + 1
      && txReg == Value(gen) && rxReg == Value(reg)
    }

    /** The receiver as the value the specification works on. */
    ghost function Receiver(): Rx
      reads this
    {
      Rx(reg, resync, results, resyncBadBits, resyncCnt)
    }

    /** `bert_init`. */
    constructor (pattern: Pattern, limit: nat, resyncLen: int, resyncPercent: int)
      ensures Valid() && gen == reg == Ones(SettingsOf(pattern).width) && resync == 1
      ensures results == Results(0, 0, 0) && resyncBadBits == 0 && resyncCnt == resyncLen && this.limit == limit
      ensures var s := SettingsOf(pattern);
        Fixed() == BertCode.Setup(s.shift, s.width, s.resyncTime, resyncLen, resyncPercent) && invert == s.invert && txBits == 0
    {
      hide Pow2, Value;
      var s := SettingsOf(pattern);
      this.shift, this.shift2, this.invert, this.resyncTime := s.shift, s.width - 1, s.invert, s.resyncTime;
      this.limit, this.resyncLen, this.resyncPercent := limit, resyncLen, resyncPercent;
      gen, reg := Ones(s.width), Ones(s.width);
      new;
      AllOnes(s.width);
      txReg := Pow2(s.width) - 1;
      txBits := 0;
      rxReg := txReg;
      resync, resyncBadBits, resyncCnt, results := 1, 0, resyncLen, Results(0, 0, 0);
    }

    /** `bert_get_bit`: the generator's bit, inverted if the pattern is, up to the limit. */
    method GetBit() returns (bit: int)
      requires Valid()
      modifies this`txReg, this`txBits, this`gen
      ensures Valid()
      ensures limit != 0 && old(txBits) >= limit ==> bit == END_OF_DATA && gen == old(gen) && txBits == old(txBits)
      ensures !(limit != 0 && old(txBits) >= limit) ==>
        bit == Digit(old(gen)[0] != invert) && gen == Next(old(gen), shift) && txBits == old(txBits) + 1
    {
      hide Value, Pow2, BitAt, Shifted, Next;
      if limit != 0 && txBits >= limit {
        return END_OF_DATA;
      }
      ValueHead(gen);
      ShiftedIs(gen, shift);
      bit := txReg % 2;
      txReg := Shifted(txReg, shift, shift2);
      gen := Next(gen, shift);
      if invert { bit := 1 - bit; }
      txBits := txBits + 1;
    }

    /** `bert_put_bit`; the error-rate reports made along the way are not part of this. */
    method PutBit(bit: int)
      requires Valid()
      modifies this`rxReg, this`resync, this`resyncBadBits, this`resyncCnt, this`results, this`reg
      ensures Valid()
      ensures bit < 0 ==> Receiver() == old(Receiver())
      ensures bit >= 0 ==> Receiver() == Put(Fixed(), old(Receiver()), (bit % 2 == 1) != invert)
    {
      hide Value, Pow2, BitAt, Shifted, Next;
      if bit < 0 {
        return;
      }
      var b := if invert then 1 - bit % 2 else bit % 2;
      if resync != 0 {
        Seek(b);
      } else {
        Count(b);
      }
      ShiftedIs(reg, shift);
      rxReg := Shifted(rxReg, shift, shift2);
      reg := Next(reg, shift);
    }

    method Seek(bit: nat)
      requires Valid() && bit < 2 && resync != 0
      modifies this`rxReg, this`resync, this`reg
      ensures Valid() && Receiver() == BertCode.Seek(Fixed(), old(Receiver()), bit == 1)
    {
      hide Value, Pow2, BitAt;
      BitAtIs(reg, shift);
      if bit == BitAt(rxReg, shift) {
        resync := resync + 1;
        if resync > resyncTime { resync := 0; }
      } else {
        resync := 2;
        ValueFlip(reg, shift);
        rxReg := if BitAt(rxReg, shift) == 1 then rxReg - Pow2(shift) else rxReg + Pow2(shift);
        reg := reg[shift := !reg[shift]];
      }
    }

    method Count(bit: nat)
      requires Valid() && bit < 2 && resync == 0
      modifies this`resync, this`resyncBadBits, this`resyncCnt, this`results
      ensures Valid() && Receiver() == BertCode.Count(Fixed(), old(Receiver()), bit == 1)
    {
      hide Value, Pow2, BitAt, TruncDiv;
      BitAtIs(reg, shift);
      results := results.(total := results.total + 1);
      if bit != BitAt(rxReg, shift) {
        results := results.(bad := results.bad + 1);
        resyncBadBits := resyncBadBits + 1;
      }
      resyncCnt := resyncCnt - 1;
      if resyncCnt <= 0 {
        if resyncBadBits >= TruncDiv(resyncLen * resyncPercent, 100) {
          resync := 1;
          results := results.(resyncs := results.resyncs + 1);
        }
        resyncCnt := resyncLen;
        resyncBadBits := 0;
      }
    }
  }

  lemma {:induction false} AllOnes(n: nat)
    ensures Value(Ones(n)) == Pow2(n) - 1
  {
    if n > 0 {
      AllOnes(n - 1);
      assert Ones(n)[1..] == Ones(n - 1);
    }
  }
}
