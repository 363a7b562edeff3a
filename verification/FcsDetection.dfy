/**
 What the frame check sequence detects. A codeword is the data of a frame followed by its
 16 check bits; the receiver accepts it when the check bits are those of the data
 (`HDLC::isFcsOK`). Two codewords of the same length that differ in an odd number of bits,
 or only inside a window of 16 consecutive bits, are never both accepted, wherever the
 window lies, across the border between data and check bits too.
*/
module FcsDetection {
  import opened BitSeq
  import opened Fcs

  function Xor(a: Bits, b: Bits): (r: Bits)
    requires |a| == |b|
    ensures |r| == |a|
  {
    seq(|a|, i requires 0 <= i < |a| => a[i] != b[i])
  }

  /** Whether an odd number of bits is set. */
  function Odd(a: Bits): bool {
    if a == [] then false else a[0] != Odd(a[1..])
  }

  /** The set bits of `d` lie in the window `[at, at + 16)`. */
  predicate WithinWindow(d: Bits, at: nat) {
    forall i :: 0 <= i < |d| && !(at <= i < at + 16) ==> !d[i]
  }

  // ----------------------------------------------------------- runs of the register

  lemma StepLinear(f: bv32, g: bv32, x: bool, y: bool)
    ensures Step(Add(f, g), x != y) == Add(Step(f, x), Step(g, y))
  {
    hide Shift, Bit, Add;
    ShiftLinear(f, g, Bit(x), Bit(y));
    BitXor(x, y);
  }

  lemma BitXor(x: bool, y: bool)
    ensures Bit(x != y) == Add(Bit(x), Bit(y))
  {
  }

  lemma BitRange(x: bool)
    ensures Bit(x) & 1 == Bit(x)
  {
  }

  lemma StepInRange(f: bv32, x: bool)
    ensures InRange(Step(f, x))
  {
    ShiftInRange(f, Bit(x));
  }

  lemma StepInjective(f: bv32, g: bv32, x: bool)
    requires InRange(f) && InRange(g)
    requires Step(f, x) == Step(g, x)
    ensures f == g
  {
    ShiftInjective(f, g, Bit(x));
  }

  lemma {:induction false} RunInRange(f: bv32, bits: Bits)
    requires InRange(f)
    ensures InRange(Run(f, bits))
    decreases |bits|
  {
    hide Step, InRange;
    if bits != [] {
      StepInRange(f, bits[0]);
      RunInRange(Step(f, bits[0]), bits[1..]);
    }
  }

  lemma {:induction false} RunAppend(f: bv32, a: Bits, b: Bits)
    ensures Run(f, a + b) == Run(Run(f, a), b)
    decreases |a|
  {
    hide Step;
    if a == [] {
      assert a + b == b;
    } else {
      assert (a + b)[1..] == a[1..] + b;
      RunAppend(Step(f, a[0]), a[1..], b);
    }
  }

  lemma {:induction false} RunInjective(f: bv32, g: bv32, bits: Bits)
    requires InRange(f) && InRange(g)
    requires Run(f, bits) == Run(g, bits)
    ensures f == g
    decreases |bits|
  {
    hide Step, InRange;
    if bits != [] {
      StepInRange(f, bits[0]);
      StepInRange(g, bits[0]);
      RunInjective(Step(f, bits[0]), Step(g, bits[0]), bits[1..]);
      StepInjective(f, g, bits[0]);
    }
  }

  lemma {:induction false} RunLinear(f: bv32, g: bv32, a: Bits, b: Bits)
    requires |a| == |b|
    ensures Run(Add(f, g), Xor(a, b)) == Add(Run(f, a), Run(g, b))
    decreases |a|
  {
    hide Step, Add;
    if a == [] {
      assert Xor(a, b) == [];
    } else {
      StepLinear(f, g, a[0], b[0]);
      assert Xor(a, b)[1..] == Xor(a[1..], b[1..]);
      RunLinear(Step(f, a[0]), Step(g, b[0]), a[1..], b[1..]);
    }
  }

  lemma {:induction false} RunZeros(n: nat)
    ensures Run(0, Zeros(n)) == 0
  {
    if n != 0 {
      assert Zeros(n)[1..] == Zeros(n - 1);
      StepZero();
      RunZeros(n - 1);
    }
  }

  lemma StepZero()
    ensures Step(0, false) == 0
  {
  }

  // ------------------------------------------- a short error cannot divide out

  function Push(x: bool, g: bv32): bv32 { PushBit(Bit(x), g) }

  /** The register whose top bits are `w`; the value of `w` when `w` has 16 bits. */
  function Word(w: Bits): bv32 {
    if w == [] then 0 else Push(w[0], Word(w[1..]))
  }

  /** A register with its `n` low bits set. */
  function Low(n: nat): bv32 {
    if n == 0 then 0 else Widen(Low(n - 1))
  }

  function Widen(m: bv32): bv32 { (m << 1) | 1 }

  predicate Clear(f: bv32, m: bv32) { f & m == 0 && f & 0xFFFF == f }

  lemma LowSmall(n: nat)
    requires n <= 15
    ensures Low(n) & 0x7FFF == Low(n)
  {
    assert Low(3) == 0x7;
    assert Low(6) == 0x3F;
    assert Low(9) == 0x1FF;
    assert Low(12) == 0xFFF;
    assert Low(15) == 0x7FFF;
  }

  lemma PushClear(x: bool, g: bv32, m: bv32)
    requires Clear(g, Widen(m)) && m & 0x7FFF == m
    ensures Clear(Push(x, g), m)
  {
    hide Bit, PushBit, Widen, Clear;
    BitRange(x);
    PushBitClear(Bit(x), g, m);
  }

  lemma PushBitClear(x: bv32, g: bv32, m: bv32)
    requires Clear(g, Widen(m)) && m & 0x7FFF == m && x & 1 == x
    ensures Clear(PushBit(x, g), m)
  {
  }

  lemma ClearZero(m: bv32)
    ensures Clear(0, m)
  {
  }

  /** A word of `w` bits leaves the rest of the register clear. */
  lemma {:induction false} WordClear(w: Bits)
    requires |w| <= 16
    ensures Clear(Word(w), Low(16 - |w|))
  {
    hide Push, Widen, Clear;
    if w == [] {
      ClearZero(Low(16));
    } else {
      WordClear(w[1..]);
      LowSmall(16 - |w|);
      PushClear(w[0], Word(w[1..]), Low(16 - |w|));
    }
  }

  lemma StepFolds(f: bv32, g: bv32, x: bool, m: bv32)
    requires InRange(f) && Clear(g, Widen(m))
    ensures Step(Add(f, Push(x, g)), false) == Add(Step(f, x), g)
  {
    hide Shift, Add, PushBit, Bit;
    ClearLow(g, m);
    BitRange(x);
    BitZero();
    ShiftFolds(f, g, Bit(x));
  }

  lemma BitZero()
    ensures Bit(false) == 0
  {
  }

  lemma ClearLow(g: bv32, m: bv32)
    requires g & ((m << 1) | 1) == 0
    ensures g & 1 == 0
  {
  }

  lemma AddZero(f: bv32)
    ensures Add(f, 0) == Add(0, f) == f
    ensures Add(f, f) == 0
  {
  }

  /** Feeding `w` is the same as adding it to the top of the register and feeding zeros. */
  lemma {:induction false} RunFolds(f: bv32, w: Bits)
    requires InRange(f) && |w| <= 16
    ensures Run(f, w) == Run(Add(f, Word(w)), Zeros(|w|))
    decreases |w|
  {
    hide Step, Add, Push, Widen, Clear, InRange;
    if w == [] {
      AddZero(f);
    } else {
      WordClear(w[1..]);
      StepFolds(f, Word(w[1..]), w[0], Low(16 - |w|));
      StepInRange(f, w[0]);
      RunFolds(Step(f, w[0]), w[1..]);
      assert Zeros(|w|)[1..] == Zeros(|w| - 1);
    }
  }

  predicate AnySet(d: Bits) { exists i :: 0 <= i < |d| && d[i] }

  lemma PushZero(x: bool, g: bv32, m: bv32)
    requires Clear(g, Widen(m)) && Push(x, g) == 0
    ensures !x && g == 0
  {
    hide Bit, PushBit, Widen, Clear;
    BitRange(x);
    BitSet(x);
    PushBitZero(Bit(x), g, m);
  }

  lemma BitSet(x: bool)
    ensures Bit(x) == 0 ==> !x
  {
  }

  lemma PushBitZero(x: bv32, g: bv32, m: bv32)
    requires Clear(g, Widen(m)) && x & 1 == x && PushBit(x, g) == 0
    ensures x == 0 && g == 0
  {
  }

  lemma {:induction false} WordNonzero(w: Bits)
    requires |w| <= 16 && AnySet(w)
    ensures Word(w) != 0
  {
    hide Push, Widen, Clear;
    WordClear(w[1..]);
    if Word(w) == 0 {
      PushZero(w[0], Word(w[1..]), Low(16 - |w|));
      var i :| 0 <= i < |w| && w[i];
      assert w[1..][i - 1];
      WordNonzero(w[1..]);
    }
  }

  lemma ZeroInRange()
    ensures InRange(0) && InRange(INIT)
  {
  }

  lemma {:induction false} WordRemainder(w: Bits)
    requires |w| <= 16 && AnySet(w)
    ensures InRange(Run(0, w)) && Run(0, w) != 0
  {
    hide Step, InRange, Add, Push;
    ZeroInRange();
    RunInRange(0, w);
    RunFolds(0, w);
    AddZero(Word(w));
    WordNonzero(w);
    WordClear(w);
    ClearInRange(Word(w), Low(16 - |w|));
    RunZeros(|w|);
    if Run(0, w) == 0 {
      RunInjective(Word(w), 0, Zeros(|w|));
    }
  }

  /** A difference inside a window is zeros, the window, zeros. */
  lemma SplitWindow(d: Bits, at: nat) returns (lo: nat, w: Bits, hi: nat)
    requires WithinWindow(d, at) && AnySet(d)
    ensures d == Zeros(lo) + (w + Zeros(hi)) && |w| <= 16 && AnySet(w)
  {
    var i :| 0 <= i < |d| && d[i];
    var end := if at + 16 < |d| then at + 16 else |d|;
    lo, w, hi := at, d[at..end], |d| - end;
    assert d[..lo] == Zeros(lo);
    assert d[end..] == Zeros(hi);
    assert w[i - lo];
  }

  /** A nonzero difference inside 16 consecutive bits is never divided out. */
  lemma {:induction false} BurstLeavesRemainder(d: Bits, at: nat)
    requires WithinWindow(d, at) && AnySet(d)
    ensures Run(0, d) != 0
  {
    hide Step, InRange, AnySet, WithinWindow;
    var lo, w, hi := SplitWindow(d, at);
    RunZeros(lo);
    RunAppend(0, Zeros(lo), w + Zeros(hi));
    RunAppend(0, w, Zeros(hi));
    WordRemainder(w);
    RunZeros(hi);
    ZeroInRange();
    if Run(Run(0, w), Zeros(hi)) == 0 {
      RunInjective(Run(0, w), 0, Zeros(hi));
    }
  }

  lemma ClearInRange(f: bv32, m: bv32)
    requires Clear(f, m)
    ensures InRange(f)
  {
  }

  // ------------------------------------- an odd error is not a multiple of x + 1

  function Fold8(f: bv32): bv32 { (f ^ (f >> 8)) & 0xFF }
  function Fold4(f: bv32): bv32 { (f ^ (f >> 4)) & 0xF }
  function Fold2(f: bv32): bv32 { (f ^ (f >> 2)) & 3 }
  function Fold1(f: bv32): bv32 { (f ^ (f >> 1)) & 1 }

  /** The parity of a 16-bit register, as 0 or 1. */
  function Parity(f: bv32): bv32 { Fold1(Fold2(Fold4(Fold8(f)))) }

  lemma Fold8Linear(f: bv32, g: bv32) ensures Fold8(Add(f, g)) == Add(Fold8(f), Fold8(g)) {}
  lemma Fold4Linear(f: bv32, g: bv32) ensures Fold4(Add(f, g)) == Add(Fold4(f), Fold4(g)) {}
  lemma Fold2Linear(f: bv32, g: bv32) ensures Fold2(Add(f, g)) == Add(Fold2(f), Fold2(g)) {}
  lemma Fold1Linear(f: bv32, g: bv32) ensures Fold1(Add(f, g)) == Add(Fold1(f), Fold1(g)) {}

  lemma ParityLinear(f: bv32, g: bv32)
    ensures Parity(Add(f, g)) == Add(Parity(f), Parity(g))
  {
    hide Fold8, Fold4, Fold2, Fold1, Add;
    Fold8Linear(f, g);
    Fold4Linear(Fold8(f), Fold8(g));
    Fold2Linear(Fold4(Fold8(f)), Fold4(Fold8(g)));
    Fold1Linear(Fold2(Fold4(Fold8(f))), Fold2(Fold4(Fold8(g))));
  }

  function Rotate(f: bv32): bv32 { ((f << 1) & 0xFFFF) | (f >> 15) }
  function Rotate8(f: bv32): bv32 { ((f << 1) & 0xFF) | (f >> 7) }
  function Rotate4(f: bv32): bv32 { ((f << 1) & 0xF) | (f >> 3) }
  function Rotate2(f: bv32): bv32 { ((f << 1) & 3) | (f >> 1) }

  lemma Fold8Rotate(f: bv32) requires f & 0xFFFF == f ensures Fold8(Rotate(f)) == Rotate8(Fold8(f)) {}
  lemma Fold4Rotate(f: bv32) ensures Fold4(Rotate8(Fold8(f))) == Rotate4(Fold4(Fold8(f))) {}
  lemma Fold2Rotate(f: bv32) ensures Fold2(Rotate4(Fold4(f))) == Rotate2(Fold2(Fold4(f))) {}
  lemma Fold1Rotate(f: bv32) ensures Fold1(Rotate2(Fold2(f))) == Fold1(Fold2(f)) {}

  /** Moving the top bit of a register to the bottom keeps its parity. */
  lemma ParityRotate(f: bv32)
    requires InRange(f)
    ensures Parity(Rotate(f)) == Parity(f)
  {
    hide Fold8, Fold4, Fold2, Fold1, Rotate, Rotate8, Rotate4, Rotate2;
    Fold8Rotate(f);
    Fold4Rotate(f);
    Fold2Rotate(Fold8(f));
    Fold1Rotate(Fold4(Fold8(f)));
  }

  /** What a division step adds to the rotated register. */
  function Rest(f: bv32, x: bv32): bv32 {
    var t := ((f >> 15) ^ x) & 1;
    x ^ (t << 5) ^ (t << 12)
  }

  lemma ShiftRotates(f: bv32, x: bv32)
    requires f & 0xFFFF == f && x & 1 == x
    ensures Shift(f, x) == Rotate(f) ^ Rest(f, x)
  {
  }

  lemma ParityRest(f: bv32, x: bv32)
    requires f & 0xFFFF == f && x & 1 == x
    ensures Parity(Rest(f, x)) == x
  {
    ParityRestBv(x, ((f >> 15) ^ x) & 1);
  }

  lemma ParityRestBv(x: bv32, t: bv32)
    requires x & 1 == x && t & 1 == t
    ensures Parity(x ^ (t << 5) ^ (t << 12)) == x
  {
  }

  /** A step changes the parity of the register exactly when the message bit is set. */
  lemma ParityStep(f: bv32, x: bool)
    requires InRange(f)
    ensures Parity(Step(f, x)) == Add(Parity(f), Bit(x))
  {
    hide Parity, Rest, Rotate, Shift, Bit;
    BitRange(x);
    ShiftRotates(f, Bit(x));
    ParityLinear(Rotate(f), Rest(f, Bit(x)));
    ParityRest(f, Bit(x));
    ParityRotate(f);
  }

  lemma AddAssoc(a: bv32, b: bv32, c: bv32)
    ensures Add(Add(a, b), c) == Add(a, Add(b, c))
  {
  }

  lemma {:induction false} ParityRun(f: bv32, bits: Bits)
    requires InRange(f)
    ensures Parity(Run(f, bits)) == Add(Parity(f), Bit(Odd(bits)))
    decreases |bits|
  {
    hide Parity, Step, Bit, InRange, Add;
    if bits == [] {
      BitZero();
      AddZero(Parity(f));
    } else {
      StepInRange(f, bits[0]);
      ParityRun(Step(f, bits[0]), bits[1..]);
      ParityStep(f, bits[0]);
      AddAssoc(Parity(f), Bit(bits[0]), Bit(Odd(bits[1..])));
      BitXor(bits[0], Odd(bits[1..]));
    }
  }

  /** An odd number of differences is never divided out. */
  lemma {:induction false} OddLeavesRemainder(d: Bits)
    requires Odd(d)
    ensures Run(0, d) != 0
  {
    hide Parity, Step, InRange, Add;
    ZeroInRange();
    ParityRun(0, d);
    ParityZero();
    AddZero(Bit(true));
  }

  lemma ParityZero()
    ensures Parity(0) == 0
  {
  }

  // ---------------------------------------------------------------- codewords

  /** The value a receiver compares: the 16 check bits against those of the data. */
  predicate Accepted(codeword: Bits)
    requires |codeword| >= 16
  {
    var n := |codeword| - 16;
    Word(codeword[n..]) == Add(Run(INIT, codeword[..n]), INIT)
  }

  lemma AddCancels(f: bv32, g: bv32)
    ensures Add(f, Add(f, g)) == g
  {
  }

  lemma AddInRange(f: bv32, g: bv32)
    requires InRange(f) && InRange(g)
    ensures InRange(Add(f, g))
  {
  }

  /** A codeword is accepted exactly when the whole of it, check bits included, leaves the one good residue. */
  lemma {:induction false} AcceptedIffResidue(c: Bits)
    requires |c| >= 16
    ensures Accepted(c) <==> Run(INIT, c) == Run(INIT, Zeros(16))
  {
    hide Step, InRange, Add;
    var n := |c| - 16;
    var r, w := Run(INIT, c[..n]), Word(c[n..]);
    assert c == c[..n] + c[n..];
    RunAppend(INIT, c[..n], c[n..]);
    ZeroInRange();
    RunInRange(INIT, c[..n]);
    RunFolds(r, c[n..]);
    WordClear(c[n..]);
    ClearInRange(w, Low(0));
    AddInRange(r, w);
    AddCancels(r, INIT);
    AddCancels(r, w);
    if Run(INIT, c) == Run(INIT, Zeros(16)) {
      RunInjective(Add(r, w), INIT, Zeros(16));
    }
  }

  lemma AddSelf(x: bv32, y: bv32)
    ensures Add(x, y) == 0 <==> x == y
  {
  }

  /** Two accepted codewords of one length differ by a multiple of the generator, and by nothing else. */
  lemma {:induction false} AcceptedDifference(c1: Bits, c2: Bits)
    requires |c1| == |c2| >= 16
    requires Accepted(c1)
    ensures Accepted(c2) <==> Run(0, Xor(c1, c2)) == 0
  {
    hide Step, InRange, Add, Accepted;
    AcceptedIffResidue(c1);
    AcceptedIffResidue(c2);
    RunLinear(INIT, INIT, c1, c2);
    AddSelf(INIT, INIT);
    AddSelf(Run(INIT, c1), Run(INIT, c2));
  }

  /** Every burst of at most 16 bits is detected, wherever it lies in the codeword. */
  lemma {:induction false} DetectsBurst(sent: Bits, received: Bits, at: nat)
    requires |sent| == |received| >= 16 && sent != received
    requires Accepted(sent)
    requires WithinWindow(Xor(sent, received), at)
    ensures !Accepted(received)
  {
    hide Accepted;
    var i :| 0 <= i < |sent| && sent[i] != received[i];
    assert Xor(sent, received)[i];
    AcceptedDifference(sent, received);
    BurstLeavesRemainder(Xor(sent, received), at);
  }

  /** Every odd number of wrong bits is detected. */
  lemma {:induction false} DetectsOdd(sent: Bits, received: Bits)
    requires |sent| == |received| >= 16
    requires Accepted(sent)
    requires Odd(Xor(sent, received))
    ensures !Accepted(received)
  {
    hide Accepted;
    AcceptedDifference(sent, received);
    OddLeavesRemainder(Xor(sent, received));
  }

  lemma ValueInjective(f: bv32, g: bv32)
    requires InRange(f) && InRange(g) && Value(f) == Value(g)
    ensures f == g
  {
  }

  /** Messages of one length, of any length, that differ in this way have different check values. */
  lemma {:induction false} DifferentMessages(a: seq<Byte>, b: seq<Byte>, at: nat)
    requires |a| == |b| && a != b
    requires Odd(Xor(ToBits(a), ToBits(b))) || WithinWindow(Xor(ToBits(a), ToBits(b)), at)
    ensures Of(a) != Of(b)
  {
    hide Step, InRange, Add, Value;
    var x, y := ToBits(a), ToBits(b);
    if Of(a) == Of(b) {
      ZeroInRange();
      RunInRange(INIT, x);
      RunInRange(INIT, y);
      ValueInjective(Run(INIT, x), Run(INIT, y));
      RunLinear(INIT, INIT, x, y);
      AddSelf(INIT, INIT);
      AddSelf(Run(INIT, x), Run(INIT, y));
      if Odd(Xor(x, y)) {
        OddLeavesRemainder(Xor(x, y));
      } else {
        if x == y {
          ToBitsInjective(a, b);
        }
        var i :| 0 <= i < |x| && x[i] != y[i];
        assert Xor(x, y)[i];
        BurstLeavesRemainder(Xor(x, y), at);
      }
    }
  }
}
