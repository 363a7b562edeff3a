/** The tester finds the pattern by itself, from any register; and once it has it, it counts exactly the errors of the line. */
module BertSync {
  import opened BitSeq
  import opened BertCode

  function Clean(n: nat): (flips: seq<bool>)
    ensures |flips| == n && forall i :: 0 <= i < n ==> !flips[i]
  {
    Zeros(n)
  }

  /** The receiver after `n` bits with no error. */
  function After(u: Setup, r: Rx, gen: Bits, n: nat): (r1: Rx)
    requires RxOk(u, r) && |gen| == u.width
    ensures RxOk(u, r1)
  {
    PutAll(u, r, Sent(gen, u.shift, Clean(n)))
  }

  lemma SentClean(gen: Bits, shift: nat, n: nat)
    requires shift < |gen|
    ensures Sent(gen, shift, Clean(n + 1)) == Sent(gen, shift, Clean(n)) + [NextN(gen, shift, n)[0]]
  {
    assert Clean(n + 1)[..n] == Clean(n);
  }

  lemma AfterNext(u: Setup, r: Rx, gen: Bits, n: nat)
    requires RxOk(u, r) && |gen| == u.width
    ensures After(u, r, gen, n + 1) == Put(u, After(u, r, gen, n), NextN(gen, u.shift, n)[0])
  {
    SentClean(gen, u.shift, n);
    var line := Sent(gen, u.shift, Clean(n));
    assert (line + [NextN(gen, u.shift, n)[0]])[..n] == line;
    hide Put;
  }

  /** A register in step with the generator foretells its next bit. */
  lemma Foretells(u: Setup, target: Bits, gen: Bits, n: nat)
    requires Behind(u, target, gen)
    ensures NextN(target, u.shift, n)[u.shift] == NextN(gen, u.shift, n)[0]
  {
    NextNAdd(target, u.shift, u.shift, n);
    NextNAdd(target, u.shift, n, u.shift);
    NextNAt(NextN(target, u.shift, n), u.shift, u.shift, 0);
  }

  /** Two registers that agree at the tap differ, a step later, in the same bits, moved on. */
  lemma NextDiffers(a: Bits, b: Bits, shift: nat, k: nat)
    requires |a| == |b| && shift < |a| && a[shift] == b[shift] && k < |a|
    ensures Next(a, shift)[k] != Next(b, shift)[k] <==> a[Up(k, |a|)] != b[Up(k, |a|)]
  {
  }

  lemma WipesAt(a: Bits, b: Bits, shift: nat, k: nat)
    requires |a| == |b| && shift < |a| && k < |a|
    ensures Diff(Next(a[shift := b[shift]], shift), Next(b, shift))[k] == Wiped(Diff(a, b), shift)[k]
  {
    var fixed := a[shift := b[shift]];
    NextDiffers(fixed, b, shift, k);
    WipedStep(Diff(a, b), shift, k);
    hide Wiped, Next;
    assert fixed[Up(k, |a|)] == if Up(k, |a|) == shift then b[shift] else a[Up(k, |a|)];
  }

  lemma Wipes(a: Bits, b: Bits, shift: nat)
    requires |a| == |b| && shift < |a|
    ensures Diff(Next(a[shift := b[shift]], shift), Next(b, shift)) == Wiped(Diff(a, b), shift)
  {
    hide Diff, Wiped, Next;
    var got, want := Diff(Next(a[shift := b[shift]], shift), Next(b, shift)), Wiped(Diff(a, b), shift);
    forall k | 0 <= k < |got| ensures got[k] == want[k] { WipesAt(a, b, shift, k); }
  }

  /** One bit, of a line that `target` foretells, while the pattern is looked for. */
  lemma SeekWipes(u: Setup, r: Rx, target: Bits)
    requires RxOk(u, r) && |target| == u.width && r.resync != 0
    ensures Diff(Put(u, r, target[u.shift]).reg, Next(target, u.shift)) == Wiped(Diff(r.reg, target), u.shift)
  {
    hide Next, Wiped, Diff;
    assert Seek(u, r, target[u.shift]).reg == r.reg[u.shift := target[u.shift]];
    Wipes(r.reg, target, u.shift);
  }

  /** A difference that is nowhere is none. */
  lemma NoDiff(a: Bits, b: Bits)
    requires |a| == |b| && forall k :: 0 <= k < |a| ==> !Diff(a, b)[k]
    ensures a == b
  {
    hide Diff;
    forall k | 0 <= k < |a| ensures a[k] == b[k] { assert !Diff(a, b)[k]; }
  }

  /** Still pulling in: the counter is no further than the bits put, and the difference is wiped out bit by bit. */
  ghost predicate Pulling(u: Setup, r: Rx, target: Bits, n: nat, d: Bits)
    requires RxOk(u, r) && |target| == |d| == u.width
  {
    1 <= r.resync <= n + 1 && Diff(r.reg, NextN(target, u.shift, n)) == WipedN(d, u.shift, n)
  }

  lemma PutKeepsStep(u: Setup, r: Rx, target: Bits)
    requires RxOk(u, r) && r.reg == target
    ensures Put(u, r, target[u.shift]).reg == Next(target, u.shift)
  {
  }

  lemma SeekCounter(u: Setup, r: Rx, bit: bool)
    requires RxOk(u, r) && r.resync != 0
    ensures var c := Put(u, r, bit).resync; c <= r.resync + 1 && (c == 0 ==> r.resync >= u.resyncTime)
  {
  }

  /** One more turn of the difference. */
  lemma DiffCloser(u: Setup, r: Rx, target: Bits, n: nat, d: Bits)
    requires RxOk(u, r) && |target| == |d| == u.width && Pulling(u, r, target, n, d)
    ensures var r1 := Put(u, r, NextN(target, u.shift, n)[u.shift]);
      Diff(r1.reg, NextN(target, u.shift, n + 1)) == WipedN(d, u.shift, n + 1)
  {
    var t := NextN(target, u.shift, n);
    assert NextN(target, u.shift, n + 1) == Next(t, u.shift) && WipedN(d, u.shift, n + 1) == Wiped(WipedN(d, u.shift, n), u.shift);
    hide Put, Next, Wiped, Diff, NextN, WipedN;
    SeekWipes(u, r, t);
  }

  lemma WidthWipes(u: Setup, a: Bits, b: Bits, n: nat, d: Bits)
    requires |a| == |b| == |d| == u.width && u.shift < u.width <= n && Diff(a, b) == WipedN(d, u.shift, n)
    ensures a == b
  {
    AllWiped(d, u.shift, n);
    hide Diff, WipedN;
    NoDiff(a, b);
  }

  /** One more bit, of a line that `target` foretells, while the registers still differ. */
  lemma PullsCloser(u: Setup, r: Rx, target: Bits, n: nat, d: Bits)
    requires RxOk(u, r) && |target| == |d| == u.width && Pulling(u, r, target, n, d) && n < u.width
    ensures var r1 := Put(u, r, NextN(target, u.shift, n)[u.shift]);
      (Diff(r1.reg, NextN(target, u.shift, n + 1)) == WipedN(d, u.shift, n + 1) && 1 <= r1.resync <= n + 2)
      || r1.reg == NextN(target, u.shift, n + 1)
  {
    DiffCloser(u, r, target, n, d);
    SeekCounter(u, r, NextN(target, u.shift, n)[u.shift]);
    hide Put, Diff, NextN, WipedN;
    if r.resync >= u.resyncTime {
      WidthWipes(u, Put(u, r, NextN(target, u.shift, n)[u.shift]).reg, NextN(target, u.shift, n + 1), n + 1, d);
    }
  }

  /** One more bit, of a line that `target` foretells. */
  lemma PullsOn(u: Setup, r: Rx, target: Bits, n: nat, d: Bits)
    requires RxOk(u, r) && |target| == |d| == u.width
    requires Pulling(u, r, target, n, d) || r.reg == NextN(target, u.shift, n)
    requires n >= u.width ==> r.reg == NextN(target, u.shift, n)
    ensures var r1 := Put(u, r, NextN(target, u.shift, n)[u.shift]);
      && (Pulling(u, r1, target, n + 1, d) || r1.reg == NextN(target, u.shift, n + 1))
      && (n + 1 >= u.width ==> r1.reg == NextN(target, u.shift, n + 1))
  {
    hide Put, Next, Wiped, Diff, WipedN;
    var t, t1 := NextN(target, u.shift, n), NextN(target, u.shift, n + 1);
    assert t1 == Next(t, u.shift);
    hide NextN;
    if r.reg == t {
      PutKeepsStep(u, r, t);
    } else {
      PullsCloser(u, r, target, n, d);
      var r1 := Put(u, r, t[u.shift]);
      if n + 1 >= u.width && r1.reg != t1 {
        WidthWipes(u, r1.reg, t1, n + 1, d);
      }
      assert n + 1 >= u.width ==> r1.reg == t1;
    }
  }

  lemma AfterNone(u: Setup, r: Rx, gen: Bits, target: Bits)
    requires RxOk(u, r) && r.resync == 1 && |gen| == |target| == u.width
    ensures Pulling(u, After(u, r, gen, 0), target, 0, Diff(r.reg, target))
  {
    assert Sent(gen, u.shift, Clean(0)) == [];
  }

  lemma {:induction false} PullsIn(u: Setup, r: Rx, gen: Bits, target: Bits, n: nat)
    requires RxOk(u, r) && r.resync == 1 && Behind(u, target, gen)
    ensures var r1 := After(u, r, gen, n);
      Pulling(u, r1, target, n, Diff(r.reg, target)) || r1.reg == NextN(target, u.shift, n)
    ensures n >= u.width ==> After(u, r, gen, n).reg == NextN(target, u.shift, n)
    decreases n
  {
    hide After, NextN, WipedN, Diff, Put, Pulling;
    if n == 0 {
      AfterNone(u, r, gen, target);
    } else {
      PullsIn(u, r, gen, target, n - 1);
      AfterNext(u, r, gen, n - 1);
      Foretells(u, target, gen, n - 1);
      PullsOn(u, After(u, r, gen, n - 1), target, n - 1, Diff(r.reg, target));
    }
  }

  /**
   From any register: once as many bits have come without an error as the register has, every next bit
   is foretold.
  */
  lemma {:induction false} EveryBitForetold(u: Setup, r: Rx, gen: Bits, n: nat)
    requires RxOk(u, r) && r.resync == 1 && |gen| == u.width && n >= u.width
    ensures After(u, r, gen, n).reg[u.shift] == NextN(gen, u.shift, n)[0]
  {
    var target := BehindN(gen, u.shift, u.shift);
    PullsIn(u, r, gen, target, n);
    Foretells(u, target, gen, n);
  }

  /** A bit that is foretold takes the counter up by one, or ends the search. */
  lemma StepsUp(u: Setup, r: Rx, gen: Bits, n: nat)
    requires RxOk(u, r) && r.resync == 1 && |gen| == u.width && n >= u.width && After(u, r, gen, n).resync >= 1
    ensures var c := After(u, r, gen, n).resync;
      After(u, r, gen, n + 1).resync == if c + 1 > u.resyncTime then 0 else c + 1
  {
    AfterNext(u, r, gen, n);
    EveryBitForetold(u, r, gen, n);
    hide After, NextN;
  }

  lemma {:induction false} CountsUp(u: Setup, r: Rx, gen: Bits, n: nat, m: nat)
    requires RxOk(u, r) && r.resync == 1 && |gen| == u.width && n >= u.width
    requires var c := After(u, r, gen, n).resync; c >= 1 && c + m <= u.resyncTime
    ensures After(u, r, gen, n + m).resync == After(u, r, gen, n).resync + m
    decreases m
  {
    if m > 0 {
      CountsUp(u, r, gen, n, m - 1);
      StepsUp(u, r, gen, n + m - 1);
      hide After;
    }
  }

  /** And sync is declared within that many bits and the resync time, with the register in step with the generator. */
  lemma {:induction false} SyncIsFound(u: Setup, r: Rx, gen: Bits) returns (n: nat, target: Bits)
    requires RxOk(u, r) && r.resync == 1 && |gen| == u.width
    ensures n <= u.width + u.resyncTime && After(u, r, gen, n).resync == 0
    ensures Behind(u, target, NextN(gen, u.shift, n)) && After(u, r, gen, n).reg == target
  {
    hide After, Behind;
    n := u.width;
    var c := After(u, r, gen, n).resync;
    CounterBounded(u, r, gen, n);
    if c != 0 {
      CountsUp(u, r, gen, n, u.resyncTime - c);
      StepsUp(u, r, gen, n + (u.resyncTime - c));
      n := n + (u.resyncTime - c) + 1;
    }
    target := InStepAfter(u, r, gen, n);
  }

  lemma InStepAfter(u: Setup, r: Rx, gen: Bits, n: nat) returns (target: Bits)
    requires RxOk(u, r) && r.resync == 1 && |gen| == u.width && n >= u.width
    ensures Behind(u, target, NextN(gen, u.shift, n)) && After(u, r, gen, n).reg == target
  {
    var from := BehindN(gen, u.shift, u.shift);
    PullsIn(u, r, gen, from, n);
    target := NextN(from, u.shift, n);
    NextNAdd(from, u.shift, u.shift, n);
    NextNAdd(from, u.shift, n, u.shift);
    hide After, NextN;
  }

  lemma {:induction false} CounterBounded(u: Setup, r: Rx, gen: Bits, n: nat)
    requires RxOk(u, r) && r.resync == 1 && |gen| == u.width
    ensures After(u, r, gen, n).resync <= u.resyncTime
    decreases n
  {
    if n > 0 {
      CounterBounded(u, r, gen, n - 1);
      AfterNext(u, r, gen, n - 1);
      hide After;
    }
  }

  // ------------------------------------------------------------- no sync by chance

  /** How many bits, up to the end of the line, the receiver has foretold one after the other. */
  function Streak(u: Setup, r: Rx, line: Bits): nat
    requires RxOk(u, r)
  {
    if line == [] then 0
    else
      var before := line[..|line| - 1];
      if PutAll(u, r, before).reg[u.shift] == line[|line| - 1] then Streak(u, r, before) + 1 else 0
  }

  /** The receiver has been looking for the pattern all the time. */
  predicate Looking(u: Setup, r: Rx, line: Bits)
    requires RxOk(u, r)
  {
    r.resync != 0 && (line != [] ==> Looking(u, r, line[..|line| - 1]) && PutAll(u, r, line[..|line| - 1]).resync != 0)
  }

  lemma SeekStreak(u: Setup, r: Rx, bit: bool, streak: nat)
    requires RxOk(u, r) && 1 <= r.resync <= streak + 2
    ensures var r1, streak1 := Put(u, r, bit), if r.reg[u.shift] == bit then streak + 1 else 0;
      r1.resync <= streak1 + 2 && (r1.resync == 0 ==> streak1 + 1 >= u.resyncTime)
  {
  }

  /** On any line at all: sync is declared only on the resync time less one bits that were all foretold, one after the other. */
  lemma {:induction false} SyncIsEarned(u: Setup, r: Rx, line: Bits)
    requires RxOk(u, r) && r.resync == 1 && Looking(u, r, line)
    ensures PutAll(u, r, line).resync <= Streak(u, r, line) + 2
    ensures PutAll(u, r, line).resync == 0 ==> Streak(u, r, line) >= u.resyncTime - 1
    decreases |line|
  {
    if line != [] {
      var before := line[..|line| - 1];
      SyncIsEarned(u, r, before);
      hide Put;
      SeekStreak(u, PutAll(u, r, before), line[|line| - 1], Streak(u, r, before));
    }
  }

  // ------------------------------------------------------------- counting

  function Ones(flips: seq<bool>): nat {
    if flips == [] then 0 else Ones(flips[..|flips| - 1]) + (if flips[|flips| - 1] then 1 else 0)
  }

  /** The receiver after a line with these flips. */
  function Under(u: Setup, r: Rx, gen: Bits, flips: seq<bool>): (r1: Rx)
    requires RxOk(u, r) && |gen| == u.width
    ensures RxOk(u, r1)
  {
    PutAll(u, r, Sent(gen, u.shift, flips))
  }

  lemma UnderNext(u: Setup, r: Rx, gen: Bits, flips: seq<bool>)
    requires RxOk(u, r) && |gen| == u.width && flips != []
    ensures var n := |flips| - 1;
      Under(u, r, gen, flips) == Put(u, Under(u, r, gen, flips[..n]), NextN(gen, u.shift, n)[0] != flips[n])
  {
    var n := |flips| - 1;
    var line := Sent(gen, u.shift, flips[..n]);
    assert (line + [NextN(gen, u.shift, n)[0] != flips[n]])[..n] == line;
    hide Put;
  }

  /** One bit counted, of a line that the register foretells but for the flip. */
  lemma CountOne(u: Setup, r: Rx, target: Bits, flip: bool)
    requires RxOk(u, r) && r.resync == 0 && r.reg == target
    ensures var r1 := Put(u, r, target[u.shift] != flip);
      var wrong := if flip then 1 else 0;
      && r1.reg == Next(target, u.shift)
      && r1.results.total == r.results.total + 1 && r1.results.bad == r.results.bad + wrong
      && (if r.resyncCnt > 1 then
            r1.resync == 0 && r1.results.resyncs == r.results.resyncs && r1.resyncCnt == r.resyncCnt - 1
            && r1.resyncBad == r.resyncBad + wrong
          else
            r1.resyncBad == 0 && r1.resyncCnt == u.len
            && (if r.resyncBad + wrong >= Threshold(u) then r1.resync == 1 && r1.results.resyncs == r.results.resyncs + 1
                else r1.resync == 0 && r1.results.resyncs == r.results.resyncs))
  {
    hide Next, Threshold;
  }

  /**
   Within a period, whatever the line does: each flipped bit is counted as bad, no other; and the
   pattern is given up exactly at the end of the period, if at least the set part of it was flipped.
  */
  lemma {:induction false} PeriodCounted(u: Setup, r: Rx, gen: Bits, target: Bits, flips: seq<bool>)
    requires RxOk(u, r) && r.resync == 0 && r.reg == target && Behind(u, target, gen)
    requires |flips| <= r.resyncCnt
    ensures var r1, n := Under(u, r, gen, flips), |flips|;
      && r1.reg == NextN(target, u.shift, n)
      && r1.results.total == r.results.total + n && r1.results.bad == r.results.bad + Ones(flips)
      && (n < r.resyncCnt || n == 0 ==>
            r1.resync == 0 && r1.results.resyncs == r.results.resyncs && r1.resyncCnt == r.resyncCnt - n
            && r1.resyncBad == r.resyncBad + Ones(flips))
      && (n == r.resyncCnt && n > 0 ==>
            (r1.resync == 1 <==> r.resyncBad + Ones(flips) >= Threshold(u)) && (r1.resync == 0 || r1.resync == 1))
    decreases |flips|
  {
    hide Under, Threshold, Put;
    if flips == [] {
      UnderNone(u, r, gen);
    } else {
      var n := |flips| - 1;
      PeriodCounted(u, r, gen, target, flips[..n]);
      UnderNext(u, r, gen, flips);
      Foretells(u, target, gen, n);
      CountOne(u, Under(u, r, gen, flips[..n]), NextN(target, u.shift, n), flips[n]);
    }
  }

  /** The set part of a period, in whole numbers. */
  lemma ThresholdIs(u: Setup, bad: nat)
    requires u.len >= 0 && u.percent >= 0
    ensures bad >= Threshold(u) <==> 100 * (bad + 1) > u.len * u.percent
  {
    var all := u.len * u.percent;
    assert all >= 0;
    assert Threshold(u) == all / 100;
    assert all == 100 * (all / 100) + all % 100;
  }

  /** At the end of a period the pattern is given up if and only if that percentage of its bits was flipped, but for less than one bit. */
  lemma {:induction false} GivenUpIff(u: Setup, r: Rx, gen: Bits, target: Bits, flips: seq<bool>)
    requires RxOk(u, r) && r.resync == 0 && r.reg == target && Behind(u, target, gen)
    requires |flips| == r.resyncCnt > 0 && u.len >= 0 && u.percent >= 0
    ensures Under(u, r, gen, flips).resync == 1 <==> 100 * (r.resyncBad + Ones(flips) + 1) > u.len * u.percent
  {
    hide Under, Threshold;
    PeriodCounted(u, r, gen, target, flips);
    ThresholdIs(u, r.resyncBad + Ones(flips));
  }

  lemma UnderNone(u: Setup, r: Rx, gen: Bits)
    requires RxOk(u, r) && |gen| == u.width
    ensures Under(u, r, gen, []) == r
  {
  }

  lemma ResyncsGrow(u: Setup, r: Rx, bit: bool)
    requires RxOk(u, r)
    ensures Put(u, r, bit).results.resyncs >= r.results.resyncs
  {
    hide Next, Threshold;
  }

  lemma {:induction false} ResyncsOnlyGrow(u: Setup, r: Rx, gen: Bits, flips: seq<bool>)
    requires RxOk(u, r) && |gen| == u.width
    ensures Under(u, r, gen, flips).results.resyncs >= r.results.resyncs
    decreases |flips|
  {
    hide Under, Put;
    if flips == [] {
      UnderNone(u, r, gen);
    } else {
      ResyncsOnlyGrow(u, r, gen, flips[..|flips| - 1]);
      UnderNext(u, r, gen, flips);
      ResyncsGrow(u, Under(u, r, gen, flips[..|flips| - 1]), NextN(gen, u.shift, |flips| - 1)[0] != flips[|flips| - 1]);
    }
  }

  /** Over any time with no resync: the receiver stays in step, and the errors counted are the flips of the line. */
  lemma {:induction false} ErrorsCounted(u: Setup, r: Rx, gen: Bits, target: Bits, flips: seq<bool>)
    requires RxOk(u, r) && r.resync == 0 && r.reg == target && Behind(u, target, gen)
    requires Under(u, r, gen, flips).results.resyncs == r.results.resyncs
    ensures var r1 := Under(u, r, gen, flips);
      && r1.resync == 0 && r1.reg == NextN(target, u.shift, |flips|)
      && r1.results.total == r.results.total + |flips| && r1.results.bad == r.results.bad + Ones(flips)
    decreases |flips|
  {
    hide Under, Put;
    if flips == [] {
      UnderNone(u, r, gen);
    } else {
      var n := |flips| - 1;
      var before := Under(u, r, gen, flips[..n]);
      UnderNext(u, r, gen, flips);
      ResyncsOnlyGrow(u, r, gen, flips[..n]);
      ResyncsGrow(u, before, NextN(gen, u.shift, n)[0] != flips[n]);
      ErrorsCounted(u, r, gen, target, flips[..n]);
      Foretells(u, target, gen, n);
      CountOne(u, before, NextN(target, u.shift, n), flips[n]);
    }
  }
}
