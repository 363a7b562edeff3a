/**
 The redundancy simulator: every packet carries the last `depth` messages, newest first, and the
 receiver fills in what was lost from the next packet that arrives.
*/
module Rfc2198 {

  type Message = seq<bv8>

  /** A message with its sequence number. */
  datatype Got = Got(seqNo: int, data: Message)

  /** A packet on the line: the sequence number of its first entry, and its entries. */
  datatype Packet = Packet(seqNo: int, entries: seq<Message>)

  const SLOTS: nat := 32

  /** Message `k`; before the first one there are empty messages. */
  function At(sent: seq<Message>, k: int): Message
    requires k < |sent|
  {
    if k < 0 then [] else sent[k]
  }

  /** The packet that carries message `n` at depth `depth`. */
  function PacketOf(sent: seq<Message>, n: nat, depth: nat): (p: Packet)
    requires n < |sent|
    ensures p.seqNo == n && |p.entries| == depth
    ensures forall i :: 0 <= i < depth ==> p.entries[i] == At(sent, n - i)
  {
    Packet(n, seq(depth, i requires 0 <= i => At(sent, n - i)))
  }

  /** How many of a packet's older entries are to be delivered before its first. */
  function Missing(next: int, p: Packet): nat {
    if p.seqNo <= next || |p.entries| == 0 then 0
    else if p.seqNo - next >= |p.entries| then |p.entries| - 1
    else p.seqNo - next
  }

  /** Entries `k` down to 0, oldest first. */
  function Older(p: Packet, k: nat): (r: seq<Got>)
    requires k < |p.entries|
    ensures |r| == k + 1 && forall i :: 0 <= i <= k ==> r[i] == Got(p.seqNo - k + i, p.entries[k - i])
  {
    if k == 0 then [Got(p.seqNo, p.entries[0])] else [Got(p.seqNo - k, p.entries[k])] + Older(p, k - 1)
  }

  /** What the receiver delivers for a packet when message `next` is the first it does not have. */
  function Batch(next: int, p: Packet): seq<Got>
    requires p.entries != []
  {
    Older(p, Missing(next, p))
  }

  /** What is delivered once the packets of messages `arrivals` have come, in this order, and the receive queue is drained. */
  function Delivered(sent: seq<Message>, depth: nat, arrivals: seq<nat>): seq<Got>
    requires depth > 0 && Below(arrivals, |sent|)
  {
    if arrivals == [] then []
    else
      var before := arrivals[..|arrivals| - 1];
      Delivered(sent, depth, before) + Batch(NextOf(before), PacketOf(sent, arrivals[|arrivals| - 1], depth))
  }

  predicate Below(arrivals: seq<nat>, n: nat) { forall i :: 0 <= i < |arrivals| ==> arrivals[i] < n }

  function NextOf(arrivals: seq<nat>): nat { if arrivals == [] then 0 else arrivals[|arrivals| - 1] + 1 }

  /** The channel keeps the order. */
  predicate InOrder(arrivals: seq<nat>) { forall i, j :: 0 <= i < j < |arrivals| ==> arrivals[i] < arrivals[j] }

  /** Some packet that carries message `k` has arrived. */
  predicate Covered(k: nat, arrivals: seq<nat>, depth: nat) { exists i :: 0 <= i < |arrivals| && k <= arrivals[i] < k + depth }

  /** The messages below `n` that are covered, in order. */
  function Coverage(sent: seq<Message>, depth: nat, arrivals: seq<nat>, n: nat): seq<Got>
    requires n <= |sent|
  {
    if n == 0 then []
    else Coverage(sent, depth, arrivals, n - 1) + (if Covered(n - 1, arrivals, depth) then [Got(n - 1, sent[n - 1])] else [])
  }

  // ------------------------------------------------------------- what is delivered

  /** A later arrival covers nothing up to the last one that was not covered by that. */
  lemma CoveredBefore(k: nat, before: seq<nat>, a: nat, depth: nat)
    requires InOrder(before + [a]) && before != [] && k <= before[|before| - 1]
    ensures Covered(k, before + [a], depth) <==> Covered(k, before, depth)
  {
    var all, n := before + [a], |before|;
    assert all[n - 1] == before[n - 1] && all[n] == a;
    if Covered(k, all, depth) {
      var i :| 0 <= i < |all| && k <= all[i] < k + depth;
      if i == n { assert before[n - 1] == all[n - 1] < all[n]; } else { assert before[i] == all[i]; }
    }
    if Covered(k, before, depth) {
      var i :| 0 <= i < n && k <= before[i] < k + depth;
      assert all[i] == before[i];
    }
  }

  /** Between the last arrival and a new one, exactly what the new one carries is covered. */
  lemma CoveredNow(k: nat, before: seq<nat>, a: nat, depth: nat)
    requires InOrder(before + [a]) && NextOf(before) <= k <= a
    ensures Covered(k, before + [a], depth) <==> a < k + depth
  {
    var all, n := before + [a], |before|;
    assert all[n] == a;
    forall i | 0 <= i < n ensures all[i] < k {
      assert all[i] == before[i];
      if i < n - 1 { assert all[i] < all[n - 1]; }
    }
  }

  lemma {:induction false} SameCoverage(sent: seq<Message>, depth: nat, before: seq<nat>, a: nat, n: nat)
    requires InOrder(before + [a]) && n <= NextOf(before) && n <= |sent|
    ensures Coverage(sent, depth, before + [a], n) == Coverage(sent, depth, before, n)
    decreases n
  {
    hide Covered;
    if n > 0 {
      SameCoverage(sent, depth, before, a, n - 1);
      CoveredBefore(n - 1, before, a, depth);
    }
  }

  /** The batch for a packet is the coverage that it adds. */
  lemma {:induction false} AddedCoverage(sent: seq<Message>, depth: nat, before: seq<nat>, a: nat, n: nat)
    requires depth > 0 && a < |sent| && InOrder(before + [a]) && NextOf(before) <= n <= a + 1
    ensures var all := before + [a];
      Coverage(sent, depth, all, n) ==
      Coverage(sent, depth, all, NextOf(before)) + Part(sent, a, depth, NextOf(before), n)
    decreases n
  {
    hide Covered, InOrder, Part;
    PartNone(sent, a, depth, NextOf(before));
    if n > NextOf(before) {
      AddedCoverage(sent, depth, before, a, n - 1);
      CoveredNow(n - 1, before, a, depth);
      PartNext(sent, a, depth, NextOf(before), n);
    }
  }

  /** The messages from `from` up to `n` that the packet of message `a` carries. */
  function Part(sent: seq<Message>, a: nat, depth: nat, from: nat, n: nat): seq<Got>
    requires from <= n <= |sent|
    decreases n
  {
    if n == from then []
    else Part(sent, a, depth, from, n - 1) + (if a < n - 1 + depth then [Got(n - 1, sent[n - 1])] else [])
  }

  lemma PartNone(sent: seq<Message>, a: nat, depth: nat, from: nat)
    requires from <= |sent|
    ensures Part(sent, a, depth, from, from) == []
  {
  }

  lemma PartNext(sent: seq<Message>, a: nat, depth: nat, from: nat, n: nat)
    requires from < n <= |sent|
    ensures Part(sent, a, depth, from, n) == Part(sent, a, depth, from, n - 1) + (if a < n - 1 + depth then [Got(n - 1, sent[n - 1])] else [])
  {
  }

  lemma {:induction false} PartAt(sent: seq<Message>, a: nat, depth: nat, from: nat, n: nat)
    requires from <= n <= |sent|
    ensures var low := if a + 1 - depth > from then a + 1 - depth else from;
      var r := Part(sent, a, depth, from, n);
      |r| == (if n > low then n - low else 0) && forall i :: 0 <= i < |r| ==> r[i] == Got(low + i, sent[low + i])
    decreases n
  {
    if n > from { PartAt(sent, a, depth, from, n - 1); }
  }

  lemma BatchIsPart(sent: seq<Message>, a: nat, depth: nat, next: nat)
    requires depth > 0 && next <= a < |sent|
    ensures Batch(next, PacketOf(sent, a, depth)) == Part(sent, a, depth, next, a + 1)
  {
    var p := PacketOf(sent, a, depth);
    PartAt(sent, a, depth, next, a + 1);
    var k := Missing(next, p);
    var b, r := Older(p, k), Part(sent, a, depth, next, a + 1);
    hide Part, Older, PacketOf;
    assert |b| == |r|;
    forall i | 0 <= i < |b| ensures b[i] == r[i] {}
  }

  /**
   Over any in-order channel with any losses: exactly the messages that some arrived packet carries
   are delivered, each once, in order, each with its own data.
  */
  lemma {:induction false} DeliversCoverage(sent: seq<Message>, depth: nat, arrivals: seq<nat>)
    requires depth > 0 && InOrder(arrivals) && Below(arrivals, |sent|)
    ensures NextOf(arrivals) <= |sent| && Delivered(sent, depth, arrivals) == Coverage(sent, depth, arrivals, NextOf(arrivals))
    decreases |arrivals|
  {
    hide Coverage, Batch, Part, InOrder, Below, PacketOf, Delivered, NextOf;
    if arrivals == [] {
      NoneDelivered(sent, depth);
    } else {
      var n := |arrivals| - 1;
      var before, a := arrivals[..n], arrivals[n];
      assert before + [a] == arrivals;
      LastArrival(before, a, |sent|);
      DeliversCoverage(sent, depth, before);
      DeliveredThen(sent, depth, before, a);
      SameCoverage(sent, depth, before, a, NextOf(before));
      AddedCoverage(sent, depth, before, a, a + 1);
      BatchIsPart(sent, a, depth, NextOf(before));
    }
  }

  lemma NoneDelivered(sent: seq<Message>, depth: nat)
    requires depth > 0 && Below([], |sent|)
    ensures NextOf([]) == 0 && Delivered(sent, depth, []) == [] && Coverage(sent, depth, [], 0) == []
  {
  }

  lemma LastArrival(before: seq<nat>, a: nat, n: nat)
    requires InOrder(before + [a]) && Below(before + [a], n)
    ensures InOrder(before) && Below(before, n) && NextOf(before) <= a < n && NextOf(before + [a]) == a + 1
  {
    var all := before + [a];
    assert forall i :: 0 <= i < |before| ==> all[i] == before[i];
    assert all[|before|] == a;
  }

  lemma DeliveredThen(sent: seq<Message>, depth: nat, before: seq<nat>, a: nat)
    requires depth > 0 && Below(before + [a], |sent|) && Below(before, |sent|) && a < |sent|
    ensures Delivered(sent, depth, before + [a]) == Delivered(sent, depth, before) + Batch(NextOf(before), PacketOf(sent, a, depth))
  {
    assert (before + [a])[..|before|] == before;
    hide Batch, PacketOf;
  }

  // ------------------------------------------------------------- exactly when nothing is lost

  /** No `depth` packets in a row were lost before the last that arrived. */
  predicate GapsBelow(arrivals: seq<nat>, depth: nat) {
    forall i :: 0 <= i < |arrivals| ==> arrivals[i] < NextOf(arrivals[..i]) + depth
  }

  /** All the messages below `n`. */
  function AllOf(sent: seq<Message>, n: nat): (r: seq<Got>)
    requires n <= |sent|
    ensures |r| == n && forall i :: 0 <= i < n ==> r[i] == Got(i, sent[i])
  {
    if n == 0 then [] else AllOf(sent, n - 1) + [Got(n - 1, sent[n - 1])]
  }

  lemma {:induction false} CoverageLength(sent: seq<Message>, depth: nat, arrivals: seq<nat>, n: nat)
    requires n <= |sent|
    ensures |Coverage(sent, depth, arrivals, n)| <= n
    ensures |Coverage(sent, depth, arrivals, n)| == n <==> forall k :: 0 <= k < n ==> Covered(k, arrivals, depth)
    ensures |Coverage(sent, depth, arrivals, n)| == n ==> Coverage(sent, depth, arrivals, n) == AllOf(sent, n)
    decreases n
  {
    hide Covered;
    if n > 0 { CoverageLength(sent, depth, arrivals, n - 1); }
  }

  lemma {:induction false} CoveredIffGaps(arrivals: seq<nat>, depth: nat)
    requires depth > 0 && InOrder(arrivals)
    ensures (forall k :: 0 <= k < NextOf(arrivals) ==> Covered(k, arrivals, depth)) <==> GapsBelow(arrivals, depth)
  {
    if GapsBelow(arrivals, depth) {
      forall k | 0 <= k < NextOf(arrivals) ensures Covered(k, arrivals, depth) {
        var i := FirstFrom(arrivals, k);
        assert arrivals[i] < NextOf(arrivals[..i]) + depth;
      }
    } else {
      var i :| 0 <= i < |arrivals| && arrivals[i] >= NextOf(arrivals[..i]) + depth;
      var k := NextOf(arrivals[..i]);
      assert arrivals[i] <= arrivals[|arrivals| - 1];
      forall j | 0 <= j < |arrivals| ensures !(k <= arrivals[j] < k + depth) {
        if j < i { assert arrivals[..i][i - 1] == arrivals[i - 1] && arrivals[j] <= arrivals[i - 1]; }
        if j > i { assert arrivals[i] < arrivals[j]; }
      }
      assert !Covered(k, arrivals, depth) && k < NextOf(arrivals);
    }
  }

  /** The first arrival from `k` on. */
  lemma {:induction false} FirstFrom(arrivals: seq<nat>, k: nat) returns (i: nat)
    requires InOrder(arrivals) && k < NextOf(arrivals)
    ensures i < |arrivals| && arrivals[i] >= k && NextOf(arrivals[..i]) <= k
  {
    i := 0;
    while arrivals[i] < k
      invariant 0 <= i < |arrivals| && NextOf(arrivals[..i]) <= k
      decreases |arrivals| - i
    {
      assert arrivals[..i + 1][i] == arrivals[i];
      i := i + 1;
    }
  }

  /**
   Once the packet of message `n` has arrived, the receiver has delivered exactly messages 0 to `n`
   if and only if never as many packets as the depth were lost in a row.
  */
  lemma {:induction false} CompleteIffGapsBelow(sent: seq<Message>, depth: nat, arrivals: seq<nat>)
    requires depth > 0 && InOrder(arrivals) && Below(arrivals, |sent|)
    ensures NextOf(arrivals) <= |sent|
    ensures Delivered(sent, depth, arrivals) == AllOf(sent, NextOf(arrivals)) <==> GapsBelow(arrivals, depth)
  {
    DeliversCoverage(sent, depth, arrivals);
    CoverageLength(sent, depth, arrivals, NextOf(arrivals));
    CoveredIffGaps(arrivals, depth);
    hide Delivered, Coverage, Covered, InOrder, GapsBelow;
  }
}
