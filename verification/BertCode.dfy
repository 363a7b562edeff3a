/**
 The bit error rate tester's shift-register patterns (`pattern_class` 1 with `max_zeros` 0): the
 generator, and the receiver that pulls its own register into step with the line. A register is the
 list of its bits, the low one first.
*/
module BertCode {
  import opened BitSeq

  /** The recurrence: with tap `shift`, and as many bits as the register has. */
  function Next(reg: Bits, shift: nat): (r: Bits)
    requires shift < |reg|
    ensures |r| == |reg|
  {
    reg[1..] + [reg[0] != reg[shift]]
  }

  function NextN(reg: Bits, shift: nat, n: nat): (r: Bits)
    requires shift < |reg|
    ensures |r| == |reg|
  {
    if n == 0 then reg else Next(NextN(reg, shift, n - 1), shift)
  }

  /** Settings that do not change: `shift`, `resync_time`, `resync_len`, `resync_percent`. */
  datatype Setup = Setup(shift: nat, width: nat, resyncTime: nat, len: int, percent: int)

  predicate SetupOk(u: Setup) { 1 <= u.shift < u.width && u.width <= u.resyncTime }

  /** The receiver: `resync` counts the bits foretold since it is looking for the pattern, and is 0 once it has it. */
  datatype Rx = Rx(reg: Bits, resync: nat, results: Results, resyncBad: nat, resyncCnt: int)

  datatype Results = Results(total: nat, bad: nat, resyncs: nat)

  predicate RxOk(u: Setup, r: Rx) { SetupOk(u) && |r.reg| == u.width }

  /** Looking for the pattern: a wrong forecast is put right in the register. */
  function Seek(u: Setup, r: Rx, bit: bool): Rx
    requires RxOk(u, r)
  {
    if bit == r.reg[u.shift] then r.(resync := if r.resync + 1 > u.resyncTime then 0 else r.resync + 1)
    else r.(resync := 2, reg := r.reg[u.shift := bit])
  }

  function Threshold(u: Setup): int { TruncDiv(u.len * u.percent, 100) }

  /** The division of C: towards zero. */
  function TruncDiv(a: int, b: int): int
    requires b > 0
  {
    if a >= 0 then a / b else -(-a / b)
  }

  /** Counting errors, and at the end of each period judging whether there were too many. */
  function Count(u: Setup, r: Rx, bit: bool): Rx
    requires RxOk(u, r)
  {
    var wrong := if bit != r.reg[u.shift] then 1 else 0;
    var results := r.results.(total := r.results.total + 1, bad := r.results.bad + wrong);
    var inPeriod := r.resyncBad + wrong;
    if r.resyncCnt - 1 > 0 then r.(results := results, resyncBad := inPeriod, resyncCnt := r.resyncCnt - 1)
    else if inPeriod >= Threshold(u) then
      r.(resync := 1, results := results.(resyncs := results.resyncs + 1), resyncBad := 0, resyncCnt := u.len)
    else r.(results := results, resyncBad := 0, resyncCnt := u.len)
  }

  function Put(u: Setup, r: Rx, bit: bool): (r1: Rx)
    requires RxOk(u, r)
    ensures RxOk(u, r1)
  {
    var r1 := if r.resync != 0 then Seek(u, r, bit) else Count(u, r, bit);
    r1.(reg := Next(r1.reg, u.shift))
  }

  // ------------------------------------------------------------- the line

  /** The bits that the generator sends from register `reg`, each flipped where `flips` says so. */
  function Sent(reg: Bits, shift: nat, flips: seq<bool>): (line: Bits)
    requires shift < |reg|
    ensures |line| == |flips|
  {
    if flips == [] then []
    else
      var n := |flips| - 1;
      Sent(reg, shift, flips[..n]) + [NextN(reg, shift, n)[0] != flips[n]]
  }

  function PutAll(u: Setup, r: Rx, line: Bits): (r1: Rx)
    requires RxOk(u, r)
    ensures RxOk(u, r1)
  {
    if line == [] then r else Put(u, PutAll(u, r, line[..|line| - 1]), line[|line| - 1])
  }

  /** The register that the receiver has to come to: the generator's, `shift` steps behind. */
  ghost predicate Behind(u: Setup, target: Bits, reg: Bits) {
    |target| == u.width && |reg| == u.width && u.shift < u.width && NextN(target, u.shift, u.shift) == reg
  }

  // ------------------------------------------------------------- the recurrence

  /** Bits come out in the order they are in. */
  lemma {:induction false} NextNAt(reg: Bits, shift: nat, n: nat, k: nat)
    requires shift < |reg| && n + k < |reg|
    ensures NextN(reg, shift, n)[k] == reg[n + k]
    decreases n
  {
    if n > 0 { NextNAt(reg, shift, n - 1, k + 1); }
  }

  lemma {:induction false} NextNAdd(reg: Bits, shift: nat, m: nat, n: nat)
    requires shift < |reg|
    ensures NextN(NextN(reg, shift, m), shift, n) == NextN(reg, shift, m + n)
    decreases n
  {
    if n > 0 { NextNAdd(reg, shift, m, n - 1); }
  }

  /** Each bit that comes out is told by the one that came a register's length before it, and the one at the tap. */
  lemma {:induction false} Recurs(reg: Bits, shift: nat, n: nat)
    requires shift < |reg|
    ensures NextN(reg, shift, n + |reg|)[0] == (NextN(reg, shift, n)[0] != NextN(reg, shift, n + shift)[0])
  {
    var now := NextN(reg, shift, n);
    NextNAdd(reg, shift, n, shift);
    NextNAt(now, shift, shift, 0);
    NextNAdd(reg, shift, n + 1, |reg| - 1);
    NextNAt(NextN(reg, shift, n + 1), shift, |reg| - 1, 0);
  }

  /** Every register has one before it. */
  function Prev(reg: Bits, shift: nat): (r: Bits)
    requires 1 <= shift < |reg|
    ensures |r| == |reg| && Next(r, shift) == reg
  {
    [reg[|reg| - 1] != reg[shift - 1]] + reg[..|reg| - 1]
  }

  /** So every generator register has one that is `shift` steps behind. */
  lemma {:induction false} BehindN(reg: Bits, shift: nat, n: nat) returns (target: Bits)
    requires 1 <= shift < |reg|
    ensures |target| == |reg| && NextN(target, shift, n) == reg
    decreases n
  {
    if n == 0 {
      target := reg;
    } else {
      target := BehindN(Prev(reg, shift), shift, n - 1);
    }
  }

  // ------------------------------------------------------------- pulling in

  /** The bits in which two registers differ. */
  function Diff(a: Bits, b: Bits): (d: Bits)
    requires |a| == |b|
    ensures |d| == |a| && forall i :: 0 <= i < |a| ==> d[i] == (a[i] != b[i])
  {
    if a == [] then [] else [a[0] != b[0]] + Diff(a[1..], b[1..])
  }

  /** A difference goes round, and is wiped out where the forecast is made. */
  function Wiped(d: Bits, shift: nat): (r: Bits)
    requires shift < |d|
    ensures |r| == |d|
  {
    var d1 := d[shift := false];
    d1[1..] + [d1[0]]
  }

  function WipedN(d: Bits, shift: nat, n: nat): (r: Bits)
    requires shift < |d|
    ensures |r| == |d|
  {
    if n == 0 then d else Wiped(WipedN(d, shift, n - 1), shift)
  }

  /** The bit now at `k` was at the tap within the last `n` turns. */
  predicate PassedTap(k: nat, n: nat, shift: nat, width: nat)
    requires shift < width
  {
    if shift > k then shift - k <= n else width - k + shift <= n
  }

  function Up(k: nat, width: nat): nat { if k + 1 < width then k + 1 else 0 }

  lemma PassedNext(k: nat, n: nat, shift: nat, width: nat)
    requires shift < width && k < width && n > 0 && Up(k, width) != shift && PassedTap(k, n, shift, width)
    ensures n - 1 > 0 && PassedTap(Up(k, width), n - 1, shift, width)
  {
  }

  lemma WipedStep(d: Bits, shift: nat, k: nat)
    requires shift < |d| && k < |d|
    ensures Wiped(d, shift)[k] == (d[Up(k, |d|)] && Up(k, |d|) != shift)
  {
  }

  /** What has passed the tap is wiped out. */
  lemma {:induction false} WipedAt(d: Bits, shift: nat, n: nat, k: nat)
    requires shift < |d| && k < |d| && PassedTap(k, n, shift, |d|)
    ensures !WipedN(d, shift, n)[k]
    decreases n
  {
    hide Wiped;
    var k1 := Up(k, |d|);
    assert n > 0;
    WipedStep(WipedN(d, shift, n - 1), shift, k);
    if k1 != shift {
      PassedNext(k, n, shift, |d|);
      WipedAt(d, shift, n - 1, k1);
    }
  }

  /** As many turns as the register has bits wipe out any difference. */
  lemma {:induction false} AllWiped(d: Bits, shift: nat, n: nat)
    requires shift < |d| <= n
    ensures forall k :: 0 <= k < |d| ==> !WipedN(d, shift, n)[k]
  {
    forall k | 0 <= k < |d| ensures !WipedN(d, shift, n)[k] {
      WipedAt(d, shift, n, k);
    }
  }
}
