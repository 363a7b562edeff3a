/**
 Caller-ID framing by sumcheck (CLASS, CLIP, ACLIP): a preamble of alternating bits, a rest of ones,
 the message in asynchronous characters, and more ones. An octet is the list of its bits, the low
 one first.
*/
module Adsi {
  import opened BitSeq
  import opened BitValues

  type Octet = b: Bits | |b| == 8 witness Zeros(8)

  // ------------------------------------------------------------- the receiver

  datatype Rx = Rx(bitPos: nat, inProgress: Octet, ones: nat, msg: seq<Octet>, framingErrors: nat, reports: seq<seq<Octet>>)

  function Sum(msg: seq<Octet>): nat { if msg == [] then 0 else Sum(msg[..|msg| - 1]) + Value(msg[|msg| - 1]) }

  /** The number that makes the sum of a message a multiple of 256. */
  function Check(msg: seq<Octet>): nat { (256 - Sum(msg) % 256) % 256 }

  /** The message is as long as its second octet says, and its last octet. */
  predicate Complete(msg: seq<Octet>) { |msg| >= 3 && |msg| == Value(msg[1]) + 3 }

  predicate CheckOk(msg: seq<Octet>) { msg != [] && Check(msg[..|msg| - 1]) == Value(msg[|msg| - 1]) }

  /** A character has come in. */
  function Store(r: Rx): Rx {
    var msg := r.msg + [r.inProgress];
    if |r.msg| >= 256 then r
    else if !Complete(msg) then r.(msg := msg)
    else r.(msg := [], reports := if CheckOk(msg) then r.reports + [msg[..|msg| - 1]] else r.reports)
  }

  function PutBit(r: Rx, bit: bool): Rx {
    if r.bitPos == 0 then
      if bit then r.(ones := r.ones + 1) else r.(bitPos := 1, ones := 0, msg := if r.ones > 10 then [] else r.msg)
    else if r.bitPos <= 8 then r.(bitPos := r.bitPos + 1, inProgress := r.inProgress[1..] + [bit])
    else (if bit then Store(r) else r.(framingErrors := r.framingErrors + 1)).(bitPos := 0, inProgress := Zeros(8))
  }

  function PutAll(r: Rx, line: Bits): Rx
    decreases |line|
  {
    if line == [] then r else PutAll(PutBit(r, line[0]), line[1..])
  }

  // ------------------------------------------------------------- the line

  function Preamble(n: nat): (line: Bits)
    ensures |line| == n
  {
    if n == 0 then [] else Preamble(n - 1) + [(n - 1) % 2 == 1]
  }

  function Char(b: Octet, stopBits: nat): Bits { [false] + b + Ones(stopBits) }

  function Chars(msg: seq<Octet>, stopBits: nat): Bits { if msg == [] then [] else Char(msg[0], stopBits) + Chars(msg[1..], stopBits) }

  /** The settings of the preamble, the rest, the ones at the end, and the stop bits. */
  datatype Setting = Setting(preamble: nat, rest: nat, post: nat, stopBits: nat)

  const DEFAULT := Setting(300, 80, 5, 1)

  function Line(s: Setting, msg: seq<Octet>): Bits { Preamble(s.preamble) + Ones(s.rest) + Chars(msg, s.stopBits) + Ones(s.post) }

  // ------------------------------------------------------------- what is sent

  function OctetOf(n: nat): (b: Octet)
    requires n < 256
    ensures Value(b) == n
  {
    BitsBound(n, 8);
    LowFirst(n, 8)
  }

  lemma {:induction false} BitsBound(n: nat, k: nat)
    requires n < Pow2(k)
    ensures Value(LowFirst(n, k)) == n
    decreases k
  {
    if k > 0 { BitsBound(n / 2, k - 1); }
  }

  /** The message with its length put right, if it has a place for it. */
  function Corrected(msg: seq<Octet>): (r: seq<Octet>)
    requires |msg| <= 255
    ensures |r| == |msg|
  {
    if |msg| < 2 then msg else msg[1 := OctetOf(|msg| - 2)]
  }

  /** A message and its sumcheck. */
  function WithCheck(msg: seq<Octet>): seq<Octet> { msg + [OctetOf(Check(msg))] }

  // ------------------------------------------------------------- characters

  lemma {:induction false} PutAllAdd(r: Rx, a: Bits, b: Bits)
    ensures PutAll(r, a + b) == PutAll(PutAll(r, a), b)
    decreases |a|
  {
    hide PutBit;
    if a == [] {
      assert a + b == b;
    } else {
      assert (a + b)[1..] == a[1..] + b && (a + b)[0] == a[0];
      PutAllAdd(PutBit(r, a[0]), a[1..], b);
    }
  }

  /** The bits of a character fill the register, whatever was in it. */
  lemma {:induction false} DataBits(r: Rx, bits: Bits)
    requires 1 <= r.bitPos && r.bitPos + |bits| <= 9
    ensures PutAll(r, bits) == r.(bitPos := r.bitPos + |bits|, inProgress := r.inProgress[|bits|..] + bits)
    decreases |bits|
  {
    if bits == [] {
      assert r.inProgress[0..] + [] == r.inProgress;
    } else {
      var r1 := PutBit(r, bits[0]);
      DataBits(r1, bits[1..]);
      assert r1.inProgress[|bits| - 1..] + bits[1..] == r.inProgress[|bits|..] + bits;
    }
  }

  /** The receiver between characters, with some ones seen. */
  function Idle(r: Rx, ones: nat): Rx { r.(bitPos := 0, inProgress := Zeros(8), ones := ones) }

  lemma {:induction false} OnesPass(r: Rx, n: nat)
    requires r.bitPos == 0
    ensures PutAll(r, Ones(n)) == r.(ones := r.ones + n)
    decreases n
  {
    if n > 0 {
      assert Ones(n)[1..] == Ones(n - 1);
      OnesPass(PutBit(r, true), n - 1);
    }
  }

  /** A start bit: after a long rest a message begins anew. */
  function Begun(r: Rx): seq<Octet> { if r.ones > 10 then [] else r.msg }

  /** One character comes in. */
  lemma {:induction false} CharPass(r: Rx, b: Octet, stopBits: nat)
    requires r.bitPos == 0 && stopBits > 0
    ensures PutAll(r, Char(b, stopBits)) == Idle(Store(r.(msg := Begun(r), inProgress := b)), stopBits - 1)
  {
    var r0 := PutBit(r, false);
    assert [false] + b + Ones(stopBits) == [false] + (b + Ones(stopBits));
    assert ([false] + (b + Ones(stopBits)))[1..] == b + Ones(stopBits);
    PutAllAdd(r0, b, Ones(stopBits));
    DataBits(r0, b);
    assert r0.inProgress[8..] + b == b;
    var r1 := PutAll(r0, b);
    assert Ones(stopBits)[1..] == Ones(stopBits - 1);
    OnesPass(PutBit(r1, true), stopBits - 1);
    hide Store;
  }

  /** A character with no stop bit is counted as wrong, and is not put to the message. */
  lemma {:induction false} CharBroken(r: Rx, b: Octet)
    requires r.bitPos == 0
    ensures PutAll(r, [false] + b + [false]) == Idle(r.(msg := Begun(r), framingErrors := r.framingErrors + 1), 0)
  {
    var r0 := PutBit(r, false);
    assert [false] + b + [false] == [false] + (b + [false]);
    assert ([false] + (b + [false]))[1..] == b + [false];
    PutAllAdd(r0, b, [false]);
    DataBits(r0, b);
    assert r0.inProgress[8..] + b == b;
  }

  // ------------------------------------------------------------- the preamble

  /** What ten bits of the preamble look like to the receiver: the character 0x55. */
  const ALTERNATING: Octet := [true, false, true, false, true, false, true, false]

  lemma AlternatingValue()
    ensures Value(ALTERNATING) == 85
  {
    assert Value([false]) == 0;
    assert [true, false][1..] == [false] && Value([true, false]) == 1;
    assert [true, false, true, false][2..] == [true, false];
    assert Value([true, false, true, false]) == 5 by {
      assert [true, false, true, false][1..] == [false, true, false];
      assert [false, true, false][1..] == [true, false];
    }
    assert ALTERNATING[1..] == [false, true, false, true, false, true, false];
    assert [false, true, false, true, false, true, false][1..] == [true, false, true, false, true, false];
    assert [true, false, true, false, true, false][1..] == [false, true, false, true, false];
    assert [false, true, false, true, false][1..] == [true, false, true, false];
  }

  function Repeated(b: Octet, n: nat): (msg: seq<Octet>)
    ensures |msg| == n && forall i :: 0 <= i < n ==> msg[i] == b
  {
    seq(n, _ => b)
  }

  function Pairs(j: nat): Bits { if j == 0 then [] else Pairs(j - 1) + [false, true] }

  lemma {:induction false} PreamblePairs(m: nat, j: nat)
    ensures Preamble(2 * (m + j)) == Preamble(2 * m) + Pairs(j)
    decreases j
  {
    if j > 0 {
      PreamblePairs(m, j - 1);
      var n := 2 * (m + j - 1);
      assert Preamble(n + 1) == Preamble(n) + [false];
      assert Preamble(n + 2) == Preamble(n + 1) + [true];
      hide Preamble;
      assert Preamble(2 * m) + Pairs(j - 1) + [false] + [true] == Preamble(2 * m) + (Pairs(j - 1) + [false, true]);
    } else {
      assert Preamble(2 * m) + [] == Preamble(2 * m);
    }
  }

  lemma FivePairs()
    ensures Pairs(5) == Char(ALTERNATING, 1)
  {
    assert Pairs(1) == [false, true];
    assert Pairs(2) == [false, true, false, true];
    assert Pairs(3) == [false, true, false, true, false, true];
    assert Pairs(4) == [false, true, false, true, false, true, false, true];
    assert Ones(1) == [true];
  }

  lemma PreambleTen(k: nat)
    requires k > 0
    ensures Preamble(10 * k) == Preamble(10 * (k - 1)) + Char(ALTERNATING, 1)
  {
    PreamblePairs(5 * (k - 1), 5);
    FivePairs();
    hide *;
  }

  lemma NoneBegun(r: Rx, msg: seq<Octet>)
    requires |msg| <= 80 && (forall i :: 0 <= i < |msg| ==> Value(msg[i]) == 85)
    ensures !Complete(msg) && (r.ones <= 10 || r.msg == [] ==> Begun(r) == r.msg)
  {
  }

  /** Ten bits more of the preamble. */
  lemma PreambleChar(r: Rx, k: nat)
    requires r.bitPos == 0 && r.inProgress == Zeros(8) && r.msg == Repeated(ALTERNATING, k) && k < 80 && (r.ones <= 10 || k == 0)
    ensures PutAll(r, Char(ALTERNATING, 1)) == r.(msg := Repeated(ALTERNATING, k + 1), ones := 0)
  {
    hide PutAll, Value, Char, Complete, Begun, CheckOk;
    CharPass(r, ALTERNATING, 1);
    AlternatingValue();
    var msg := Repeated(ALTERNATING, k + 1);
    assert Repeated(ALTERNATING, k) + [ALTERNATING] == msg;
    NoneBegun(r, msg);
  }

  /** The receiver takes the preamble for characters, and no message comes of them. */
  lemma {:induction false} PreamblePass(r: Rx, k: nat)
    requires r.bitPos == 0 && r.msg == [] && r.inProgress == Zeros(8) && k <= 80
    ensures PutAll(r, Preamble(10 * k)) == r.(msg := Repeated(ALTERNATING, k), ones := if k == 0 then r.ones else 0)
    decreases k
  {
    hide Preamble, PutAll, Char;
    if k == 0 {
      NoPreamble();
      PutNothing(r);
      assert Repeated(ALTERNATING, 0) == [];
    } else {
      PreamblePass(r, k - 1);
      PreambleTen(k);
      PutAllAdd(r, Preamble(10 * (k - 1)), Char(ALTERNATING, 1));
      PreambleChar(PutAll(r, Preamble(10 * (k - 1))), k - 1);
    }
  }

  lemma NoPreamble()
    ensures Preamble(0) == []
  {
  }

  // ------------------------------------------------------------- the message

  /** A message that says its own length, with some octet for a sumcheck. */
  predicate Sized(m: seq<Octet>) { 3 <= |m| <= 256 && Value(m[1]) == |m| - 3 }

  /** A message that says its own length, with its sumcheck. */
  predicate WellMade(m: seq<Octet>) { Sized(m) && CheckOk(m) }

  lemma CorrectedWellMade(msg: seq<Octet>)
    requires 2 <= |msg| <= 255
    ensures WellMade(WithCheck(Corrected(msg)))
  {
    var m := WithCheck(Corrected(msg));
    assert m[..|m| - 1] == Corrected(msg);
    hide Value, OctetOf;
  }

  /** What is reported once all octets have come. */
  function Reported(reports: seq<seq<Octet>>, m: seq<Octet>): seq<seq<Octet>> {
    if CheckOk(m) then reports + [m[..|m| - 1]] else reports
  }

  /** Character `i` of the message is stored; the last one completes it. */
  lemma StoreNext(r: Rx, m: seq<Octet>, i: nat)
    requires Sized(m) && i < |m| && r.msg == m[..i] && r.inProgress == m[i]
    ensures Store(r) == if i + 1 < |m| then r.(msg := m[..i + 1]) else r.(msg := [], reports := Reported(r.reports, m))
  {
    hide Value, CheckOk;
    var msg := m[..i] + [m[i]];
    assert msg == m[..i + 1];
    if i + 1 < |m| {
      assert i >= 1 ==> msg[1] == m[1];
    } else {
      assert msg == m;
    }
  }

  /** The rest of the message comes in, from character `i` on. */
  lemma {:induction false} MessagePass(r: Rx, m: seq<Octet>, i: nat, stopBits: nat)
    requires Sized(m) && i < |m| && r.bitPos == 0 && 1 <= stopBits <= 11
    requires if i == 0 then r.ones > 10 else r.ones <= 10 && r.msg == m[..i]
    ensures PutAll(r, Chars(m[i..], stopBits)) == Idle(r.(msg := [], reports := Reported(r.reports, m)), stopBits - 1)
    decreases |m| - i
  {
    hide PutAll, Char, Store, Sized, Reported;
    var rest := m[i + 1..];
    assert m[i..][1..] == rest && m[i..][0] == m[i];
    PutAllAdd(r, Char(m[i], stopBits), Chars(rest, stopBits));
    CharPass(r, m[i], stopBits);
    assert Begun(r) == m[..i];
    StoreNext(r.(msg := Begun(r), inProgress := m[i]), m, i);
    var r1 := PutAll(r, Char(m[i], stopBits));
    if i + 1 < |m| {
      MessagePass(r1, m, i + 1, stopBits);
    } else {
      PutNothing(r1);
    }
  }

  lemma PutNothing(r: Rx)
    ensures PutAll(r, []) == r
  {
  }

  lemma SizedSome(m: seq<Octet>)
    requires Sized(m)
    ensures m != []
  {
  }

  /** The line of any octets that say their own number: whatever the last of them, the sum decides whether they are reported. */
  lemma {:induction false} LinePass(r: Rx, m: seq<Octet>, s: Setting)
    requires r.bitPos == 0 && r.msg == [] && r.inProgress == Zeros(8)
    requires Sized(m) && s.preamble == DEFAULT.preamble && s.rest >= 11 && 1 <= s.stopBits <= 11
    ensures var r1 := PutAll(r, Line(s, m));
      r1.reports == Reported(r.reports, m) && r1.framingErrors == r.framingErrors && r1.msg == []
  {
    hide PutAll, Sized, Reported;
    SizedSome(m);
    var p, o, c, e := Preamble(300), Ones(s.rest), Chars(m, s.stopBits), Ones(s.post);
    PutAllAdd(r, p + o + c, e);
    PutAllAdd(r, p + o, c);
    PutAllAdd(r, p, o);
    PreamblePass(r, 30);
    var r1 := PutAll(r, p);
    OnesPass(r1, s.rest);
    var r2 := PutAll(r1, o);
    assert m[0..] == m;
    MessagePass(r2, m, 0, s.stopBits);
    OnesPass(PutAll(r2, c), s.post);
  }

  /**
   From a receiver that has just seen the carrier come up: the line of any message, of 2 to 255 octets,
   with the default preamble and up to eleven stop bits, makes it report exactly one message, which is
   the one sent, with its length octet put right.
  */
  lemma {:induction false} ReportsOne(r: Rx, msg: seq<Octet>, s: Setting)
    requires r.bitPos == 0 && r.msg == [] && r.inProgress == Zeros(8)
    requires 2 <= |msg| <= 255 && s.preamble == DEFAULT.preamble && s.rest >= 11 && 1 <= s.stopBits <= 11
    ensures var r1 := PutAll(r, Line(s, WithCheck(Corrected(msg))));
      r1.reports == r.reports + [Corrected(msg)] && r1.framingErrors == r.framingErrors && r1.msg == []
  {
    var m := WithCheck(Corrected(msg));
    CorrectedWellMade(msg);
    LinePass(r, m, s);
    hide PutAll, CheckOk;
    assert m[..|m| - 1] == Corrected(msg);
  }

  /** With more stop bits the receiver takes each gap for a new beginning, and never has more than one character. */
  lemma {:induction false} LongGaps(r: Rx, m: seq<Octet>, stopBits: nat)
    requires r.bitPos == 0 && stopBits >= 12 && (r.ones > 10 || r.msg == [])
    ensures var r1 := PutAll(r, Chars(m, stopBits)); r1.reports == r.reports && r1.bitPos == 0 && (r1.ones > 10 || r1.msg == [])
    decreases |m|
  {
    hide PutAll, Char, Value;
    if m == [] {
      PutNothing(r);
    } else {
      PutAllAdd(r, Char(m[0], stopBits), Chars(m[1..], stopBits));
      CharPass(r, m[0], stopBits);
      LongGaps(PutAll(r, Char(m[0], stopBits)), m[1..], stopBits);
    }
  }

  /** So a message is reported if and only if there are at most eleven stop bits. */
  lemma {:induction false} ReportedIffShortGaps(r: Rx, msg: seq<Octet>, s: Setting)
    requires r.bitPos == 0 && r.msg == [] && r.inProgress == Zeros(8)
    requires 2 <= |msg| <= 255 && s.preamble == DEFAULT.preamble && s.rest >= 11 && s.stopBits >= 1
    ensures PutAll(r, Line(s, WithCheck(Corrected(msg)))).reports == r.reports + [Corrected(msg)] <==> s.stopBits <= 11
  {
    if s.stopBits <= 11 {
      ReportsOne(r, msg, s);
    } else {
      var m := WithCheck(Corrected(msg));
      hide PutAll;
      var p, o, c, e := Preamble(300), Ones(s.rest), Chars(m, s.stopBits), Ones(s.post);
      PutAllAdd(r, p + o + c, e);
      PutAllAdd(r, p + o, c);
      PutAllAdd(r, p, o);
      PreamblePass(r, 30);
      OnesPass(PutAll(r, p), s.rest);
      LongGaps(PutAll(PutAll(r, p), o), m, s.stopBits);
      OnesPass(PutAll(PutAll(PutAll(r, p), o), c), s.post);
    }
  }

  // ------------------------------------------------------------- wrong sums

  lemma CheckMod(a: nat, b: nat)
    requires b < 256
    ensures (256 - a % 256) % 256 == b <==> (a + b) % 256 == 0
  {
    var q, x := a / 256, a % 256;
    assert a + b == 256 * q + (x + b);
    if x + b < 256 { assert (a + b) % 256 == x + b; } else { assert (a + b) % 256 == x + b - 256; }
  }

  /** All octets of a message, its check among them, make a multiple of 256 exactly if the check is right. */
  lemma SumRight(m: seq<Octet>)
    requires m != []
    ensures CheckOk(m) <==> Sum(m) % 256 == 0
  {
    OctetBound(m[|m| - 1]);
    SumLast(m);
    CheckMod(Sum(m[..|m| - 1]), Value(m[|m| - 1]));
    hide Value, Sum;
  }

  lemma SumLast(m: seq<Octet>)
    requires m != []
    ensures Sum(m) == Sum(m[..|m| - 1]) + Value(m[|m| - 1])
  {
  }

  lemma OctetBound(b: Octet)
    ensures Value(b) < 256
  {
    ValueBound(b);
    assert Pow2(8) == 256;
  }

  lemma {:induction false} SumChanged(m: seq<Octet>, i: nat, b: Octet)
    requires i < |m|
    ensures Sum(m[i := b]) == Sum(m) - Value(m[i]) + Value(b)
    decreases |m|
  {
    hide Value;
    var n := |m| - 1;
    if i < n {
      assert m[i := b][..n] == m[..n][i := b];
      SumChanged(m[..n], i, b);
    } else {
      assert m[i := b][..n] == m[..n];
    }
  }

  lemma ValuesDiffer(a: Octet, b: Octet)
    requires a != b
    ensures Value(a) != Value(b)
  {
    if Value(a) == Value(b) { SameValue(a, b); }
  }

  lemma {:induction false} SameValue(a: Bits, b: Bits)
    requires |a| == |b| && Value(a) == Value(b)
    ensures a == b
  {
    if a != [] {
      ValueHead(a);
      ValueHead(b);
      SameValue(a[1..], b[1..]);
      assert a == [a[0]] + a[1..] && b == [b[0]] + b[1..];
    }
  }

  lemma NotBoth(a: nat, b: nat)
    requires a % 256 == 0 && a != b && a < b + 256 && b < a + 256
    ensures b % 256 != 0
  {
    assert a - b == 256 * (a / 256 - b / 256) - b % 256;
  }

  lemma SizedChanged(m: seq<Octet>, i: nat, b: Octet)
    requires Sized(m) && i < |m| && i != 1
    ensures Sized(m[i := b]) && m[i := b] != []
  {
  }

  /** With one octet changed, other than the length, the sum is wrong. */
  lemma ChangedWrong(m: seq<Octet>, i: nat, b: Octet)
    requires WellMade(m) && i < |m| && i != 1 && b != m[i]
    ensures Sized(m[i := b]) && !CheckOk(m[i := b])
  {
    SizedChanged(m, i, b);
    SumRight(m);
    SumRight(m[i := b]);
    SumChanged(m, i, b);
    OctetBound(m[i]);
    OctetBound(b);
    ValuesDiffer(m[i], b);
    NotBoth(Sum(m), Sum(m[i := b]));
    hide *;
  }

  /** A message that comes with one octet changed, other than its length, is kept from the user. */
  lemma {:induction false} ChangedOctetKept(r: Rx, msg: seq<Octet>, s: Setting, i: nat, b: Octet)
    requires r.bitPos == 0 && r.msg == [] && r.inProgress == Zeros(8)
    requires 2 <= |msg| <= 255 && s.preamble == DEFAULT.preamble && s.rest >= 11 && 1 <= s.stopBits <= 11
    requires i <= |msg| && i != 1 && b != WithCheck(Corrected(msg))[i]
    ensures PutAll(r, Line(s, WithCheck(Corrected(msg))[i := b])).reports == r.reports
  {
    hide PutAll, WellMade, Sized, CheckOk, Line;
    var m := WithCheck(Corrected(msg));
    CorrectedWellMade(msg);
    ChangedWrong(m, i, b);
    LinePass(r, m[i := b], s);
  }

  /** The characters that come in on a line, whatever becomes of them: those whose stop bit is there. */
  function Chain(r: Rx, line: Bits): (chars: seq<Octet>)
    decreases |line|
  {
    if line == [] then []
    else (if r.bitPos > 8 && line[0] then [r.inProgress] else []) + Chain(PutBit(r, line[0]), line[1..])
  }

  /** The octets of a message, added up. */
  function Total(m: seq<Octet>): nat { if m == [] then 0 else Value(m[0]) + Total(m[1..]) }

  lemma {:induction false} TotalLast(m: seq<Octet>, b: Octet)
    ensures Total(m + [b]) == Total(m) + Value(b)
    decreases |m|
  {
    hide Value;
    if m != [] {
      assert (m + [b])[0] == m[0] && (m + [b])[1..] == m[1..] + [b];
      TotalLast(m[1..], b);
    }
  }

  /** The loop that adds up a message from its end adds up the same. */
  lemma {:induction false} SumTotal(m: seq<Octet>)
    ensures Sum(m) == Total(m)
    decreases |m|
  {
    hide Value;
    if m != [] {
      SumTotal(m[..|m| - 1]);
      TotalLast(m[..|m| - 1], m[|m| - 1]);
      assert m[..|m| - 1] + [m[|m| - 1]] == m;
    }
  }

  /** The report and the check octet behind it came in, character by character, the check makes its sum right, and it says its own length. */
  predicate CameRight(m: seq<Octet>, chars: seq<Octet>, at: nat) {
    && at + |m| + 1 <= |chars| && chars[at..at + |m|] == m
    && (Total(m) + Value(chars[at + |m|])) % 256 == 0 && |m| >= 2 && Value(m[1]) == |m| - 2
  }

  ghost predicate Came(m: seq<Octet>, chars: seq<Octet>) { exists at: nat :: CameRight(m, chars, at) }

  /** What is gathered is the end of what has come. */
  predicate Gathered(msg: seq<Octet>, chars: seq<Octet>) { |msg| <= |chars| && chars[|chars| - |msg|..] == msg }

  ghost predicate AllRight(before: nat, reports: seq<seq<Octet>>, chars: seq<Octet>) {
    forall i :: before <= i < |reports| ==> Came(reports[i], chars)
  }

  lemma MoreChars(before: nat, reports: seq<seq<Octet>>, chars: seq<Octet>, c: Octet)
    requires AllRight(before, reports, chars)
    ensures AllRight(before, reports, chars + [c])
  {
    forall i | before <= i < |reports| ensures Came(reports[i], chars + [c]) {
      var at: nat :| CameRight(reports[i], chars, at);
      assert (chars + [c])[at..at + |reports[i]|] == chars[at..at + |reports[i]|];
      assert CameRight(reports[i], chars + [c], at);
    }
  }

  /** What is reported when the message is complete. */
  lemma CompleteRight(all: seq<Octet>, chars: seq<Octet>)
    requires Gathered(all, chars) && Complete(all) && CheckOk(all)
    ensures Came(all[..|all| - 1], chars)
  {
    var n, at := |all| - 1, |chars| - |all|;
    SumRight(all);
    SumLast(all);
    SumTotal(all[..n]);
    assert chars[at..][..n] == chars[at..at + n] && chars[at..][n] == chars[at + n];
    hide Value, Sum, Total, CheckOk;
    assert CameRight(all[..n], chars, at);
  }

  lemma GatheredMore(msg: seq<Octet>, chars: seq<Octet>, c: Octet)
    requires Gathered(msg, chars)
    ensures Gathered(msg + [c], chars + [c])
  {
    var from := |chars| - |msg|;
    assert (chars + [c])[from..] == chars[from..] + [c];
  }

  lemma GatheredNone(chars: seq<Octet>)
    ensures Gathered([], chars)
  {
  }

  /** One character more. */
  lemma StoreRight(r: Rx, before: nat, chars: seq<Octet>)
    requires (|r.msg| < 256 ==> Gathered(r.msg, chars)) && AllRight(before, r.reports, chars)
    ensures var r1, chars1 := Store(r), chars + [r.inProgress];
      && (|r1.msg| < 256 ==> Gathered(r1.msg, chars1)) && AllRight(before, r1.reports, chars1) && r.reports <= r1.reports
  {
    hide Complete, CheckOk, Gathered, Came;
    MoreChars(before, r.reports, chars, r.inProgress);
    if |r.msg| < 256 {
      var all, chars1 := r.msg + [r.inProgress], chars + [r.inProgress];
      GatheredMore(r.msg, chars, r.inProgress);
      GatheredNone(chars1);
      if Complete(all) && CheckOk(all) { CompleteRight(all, chars1); }
    }
  }

  /** What has come is gathered from the start of the message on. */
  predicate Following(r: Rx, chars: seq<Octet>) { |r.msg| < 256 ==> Gathered(r.msg, chars) }

  lemma BitRight(r: Rx, bit: bool, before: nat, chars: seq<Octet>)
    requires Following(r, chars) && AllRight(before, r.reports, chars)
    ensures var r1, chars1 := PutBit(r, bit), chars + (if r.bitPos > 8 && bit then [r.inProgress] else []);
      Following(r1, chars1) && AllRight(before, r1.reports, chars1) && r.reports <= r1.reports
  {
    hide Store, AllRight, Gathered;
    GatheredNone(chars);
    assert chars + [] == chars;
    if r.bitPos > 8 && bit { StoreRight(r, before, chars); }
  }

  lemma {:induction false} LineRight(r: Rx, line: Bits, before: nat, chars: seq<Octet>)
    requires Following(r, chars) && AllRight(before, r.reports, chars)
    ensures var r1 := PutAll(r, line); AllRight(before, r1.reports, chars + Chain(r, line)) && r.reports <= r1.reports
    decreases |line|
  {
    hide PutBit, AllRight, Following;
    if line == [] {
      assert chars + [] == chars;
    } else {
      var first := if r.bitPos > 8 && line[0] then [r.inProgress] else [];
      BitRight(r, line[0], before, chars);
      LineRight(PutBit(r, line[0]), line[1..], before, chars + first);
      assert chars + first + Chain(PutBit(r, line[0]), line[1..]) == chars + Chain(r, line);
    }
  }

  /**
   For any receiver and any line: whatever is reported came in on the line, character by character, behind what the
   receiver had; the octet behind it made its sum a multiple of 256; and its second octet said its length.
  */
  lemma {:induction false} OnlyRightReported(r: Rx, line: Bits)
    ensures var r1, chars := PutAll(r, line), r.msg + Chain(r, line);
      && r.reports <= r1.reports
      && forall i :: |r.reports| <= i < |r1.reports| ==> Came(r1.reports[i], chars)
  {
    hide PutAll, Chain, Came;
    assert r.msg[0..] == r.msg;
    LineRight(r, line, |r.reports|, r.msg);
  }
}
