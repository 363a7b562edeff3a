/** The tester's objects at work: the bits that each pattern sends, and how soon one tester finds the pattern of another. */
module BertLinks {
  import opened BitSeq
  import opened BitValues
  import opened BertCode
  import opened BertSync
  import opened BertTesters

  /** The bit as the generator made it. */
  predicate Made(bit: int, inverted: bool) { (bit == 1) != inverted }

  /**
   The bits begin with `width` ones, all inverted if the pattern is; after these, each is told by the bits `width` and
   `width - tap` places before it.
  */
  predicate Follows(bits: seq<int>, width: nat, tap: nat, inverted: bool)
    requires tap < width
  {
    && (forall i :: 0 <= i < |bits| ==> bits[i] == 0 || bits[i] == 1)
    && (forall i :: 0 <= i < |bits| && i < width ==> bits[i] == if inverted then 0 else 1)
    && (forall i :: 0 <= i < |bits| - width ==>
          Made(bits[i + width], inverted) == (Made(bits[i], inverted) != Made(bits[i + tap], inverted)))
  }

  /** The first bits of a pattern. */
  method Generate(pattern: Pattern, n: nat) returns (bits: seq<int>)
    ensures |bits| == n
    ensures match pattern
      case O151Of23 => Follows(bits, 23, 5, true)
      case O151Of15 => Follows(bits, 15, 1, true)
      case O152Of11 => Follows(bits, 11, 2, false)
      case O153Of9 => Follows(bits, 9, 4, false)
  {
    hide NextN, Next, SetupOk, Value;
    var tx := new BertTester(pattern, 0, 0, 0);
    ghost var reg, shift := tx.gen, tx.shift;
    NoneNext(reg, shift);
    bits := [];
    while |bits| < n
      invariant fresh(tx) && tx.Valid() && |bits| <= n && |reg| == tx.shift2 + 1 && shift < |reg|
      invariant tx.gen == NextN(reg, shift, |bits|)
      invariant forall i :: 0 <= i < |bits| ==> bits[i] == Digit(NextN(reg, shift, i)[0] != tx.invert)
    {
      OneNext(reg, shift, |bits|);
      var bit := tx.GetBit();
      bits := bits + [bit];
    }
    GeneratedFollows(bits, reg, shift, tx.invert);
  }

  lemma NoneNext(reg: Bits, shift: nat)
    requires shift < |reg|
    ensures NextN(reg, shift, 0) == reg
  {
  }

  lemma OneNext(reg: Bits, shift: nat, n: nat)
    requires shift < |reg|
    ensures NextN(reg, shift, n + 1) == Next(NextN(reg, shift, n), shift)
  {
  }

  lemma GeneratedFollows(bits: seq<int>, reg: Bits, shift: nat, inverted: bool)
    requires shift < |reg| && reg == BitSeq.Ones(|reg|)
    requires forall i :: 0 <= i < |bits| ==> bits[i] == Digit(NextN(reg, shift, i)[0] != inverted)
    ensures Follows(bits, |reg|, shift, inverted)
  {
    hide NextN;
    forall i | 0 <= i < |bits| && i < |reg| ensures bits[i] == if inverted then 0 else 1 { NextNAt(reg, shift, i, 0); }
    forall i | 0 <= i < |bits| - |reg|
      ensures Made(bits[i + |reg|], inverted) == (Made(bits[i], inverted) != Made(bits[i + shift], inverted))
    {
      Recurs(reg, shift, i);
    }
  }

  /** Two testers of one pattern. */
  predicate Alike(tx: BertTester, rx: BertTester)
    reads tx, rx
  {
    tx.shift == rx.shift && tx.shift2 == rx.shift2 && tx.invert == rx.invert
  }

  /** The bits of one, in whatever state its generator is, go to the other, until that has found the pattern. */
  method FindSync(tx: BertTester, rx: BertTester) returns (n: nat)
    requires tx != rx && tx.Valid() && rx.Valid() && Alike(tx, rx) && tx.limit == 0 && rx.resync == 1
    modifies tx, rx
    ensures tx.Valid() && rx.Valid() && rx.resync == 0 && n <= rx.shift2 + 1 + rx.resyncTime
    ensures rx.Receiver() == After(rx.Fixed(), old(rx.Receiver()), old(tx.gen), n)
    ensures tx.gen == NextN(old(tx.gen), tx.shift, n)
  {
    hide NextN, Next, SetupOk, Value, After, Put, Behind;
    ghost var u, r, gen := rx.Fixed(), rx.Receiver(), tx.gen;
    FixedOk(rx);
    ghost var last, target := SyncIsFound(u, r, gen);
    NoneNext(gen, tx.shift);
    AfterZero(u, r, gen);
    n := 0;
    while rx.resync != 0
      invariant tx.Valid() && rx.Valid() && n <= last
      invariant rx.Receiver() == After(u, r, gen, n) && tx.gen == NextN(gen, tx.shift, n)
      decreases last - n
    {
      OneNext(gen, tx.shift, n);
      AfterNext(u, r, gen, n);
      var bit := tx.GetBit();
      rx.PutBit(bit);
      n := n + 1;
    }
  }

  lemma FixedOk(rx: BertTester)
    requires rx.Valid()
    ensures RxOk(rx.Fixed(), rx.Receiver()) && rx.shift < rx.shift2 + 1
  {
  }

  lemma AfterZero(u: Setup, r: Rx, gen: Bits)
    requires RxOk(u, r) && |gen| == u.width
    ensures After(u, r, gen, 0) == r
  {
    assert Sent(gen, u.shift, Clean(0)) == [];
  }

  /** A tester that has just been made finds the pattern of another, wherever that is in it, within so many bits. */
  method Sync(pattern: Pattern, skip: nat, len: int, percent: int) returns (n: nat)
    ensures match pattern
      case O151Of23 => n <= 79
      case O151Of15 => n <= 55
      case O152Of11 => n <= 43
      case O153Of9 => n <= 37
  {
    var tx := new BertTester(pattern, 0, len, percent);
    var i := 0;
    while i < skip
      invariant fresh(tx) && tx.Valid()
    {
      var _ := tx.GetBit();
      i := i + 1;
    }
    var rx := new BertTester(pattern, 0, len, percent);
    n := FindSync(tx, rx);
  }
}
