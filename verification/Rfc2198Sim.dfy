/** The simulator as the object it is: a ring of the last 32 messages sent, and a queue of recovered ones, newest first. */
module Rfc2198Sims {
  import opened Rfc2198

  datatype Option<+T> = None | Some(value: T)

  class Sim {
    const depth: nat
    const txPkt: array<Message>
    var nextPkt: nat
    const rxPkt: array<Message>
    const rxSeqNo: array<int>
    var rxQueued: nat
    var nextSeqNo: int

    ghost var sent: seq<Message>

    /** The ring holds the last 32 messages, each in the slot of its number. */
    ghost predicate Ring()
      reads this, txPkt
    {
      && txPkt.Length == SLOTS && nextPkt == |sent| % SLOTS
      && forall m: int :: |sent| - SLOTS <= m < |sent| ==> txPkt[m % SLOTS] == At(sent, m)
    }

    ghost predicate Valid()
      reads this, txPkt
    {
      && Ring() && txPkt != rxPkt
      && rxPkt.Length == SLOTS && rxSeqNo.Length == SLOTS && rxQueued < SLOTS
    }

    /** The recovered messages still to be delivered, in order. */
    ghost function Pending(): (r: seq<Got>)
      requires rxQueued <= rxPkt.Length && rxQueued <= rxSeqNo.Length
      reads this`rxQueued, rxPkt, rxSeqNo
      ensures |r| == rxQueued
      ensures forall i :: 0 <= i < rxQueued ==> r[i] == Got(rxSeqNo[rxQueued - 1 - i], rxPkt[rxQueued - 1 - i])
    {
      var n := rxQueued;
      seq(n, i requires 0 <= i < n reads rxPkt, rxSeqNo => Got(rxSeqNo[n - 1 - i], rxPkt[n - 1 - i]))
    }

    constructor (depth: nat)
      ensures Valid() && this.depth == depth && sent == [] && rxQueued == 0 && nextSeqNo == 0
      ensures fresh(txPkt) && fresh(rxPkt) && fresh(rxSeqNo)
    {
      this.depth := depth;
      txPkt := new Message[SLOTS](_ => []);
      rxPkt := new Message[SLOTS](_ => []);
      rxSeqNo := new int[SLOTS](_ => 0);
      nextPkt, rxQueued, nextSeqNo, sent := 0, 0, 0, [];
    }

    /** `rfc2198_sim_put`, up to the packet it hands on. */
    method Put(buf: Message, seqNo: int) returns (p: Packet)
      requires Valid() && depth <= SLOTS
      modifies this`nextPkt, this`sent, txPkt
      ensures Valid() && sent == old(sent) + [buf]
      ensures p == PacketOf(sent, |sent| - 1, depth).(seqNo := seqNo)
    {
      Save(buf);
      var entries := [];
      var slot := if nextPkt == 0 then SLOTS - 1 else nextPkt - 1;
      var i := 0;
      while i < depth
        invariant i <= depth && |entries| == i && slot == (|sent| - 1 - i) % SLOTS
        invariant forall k :: 0 <= k < i ==> entries[k] == At(sent, |sent| - 1 - k)
      {
        entries := entries + [txPkt[slot]];
        slot := if slot == 0 then SLOTS - 1 else slot - 1;
        i := i + 1;
      }
      assert entries == PacketOf(sent, |sent| - 1, depth).entries;
      p := Packet(seqNo, entries);
    }

    /** The message takes the place of the oldest. */
    method Save(buf: Message)
      requires Valid()
      modifies this`nextPkt, this`sent, txPkt
      ensures Valid() && sent == old(sent) + [buf]
    {
      var n := |sent|;
      txPkt[nextPkt] := buf;
      sent := sent + [buf];
      nextPkt := if nextPkt + 1 == SLOTS then 0 else nextPkt + 1;
      forall m: int | |sent| - SLOTS <= m < |sent| ensures txPkt[m % SLOTS] == At(sent, m) {
        if m < n { assert m % SLOTS != n % SLOTS; }
      }
    }

    /** `rfc2198_sim_get`: what is recovered goes first; then the next packet, if one has come, with what it can fill in. */
    method Get(next: Option<Packet>) returns (r: Option<Got>)
      requires Valid()
      requires next.Some? ==> 0 < |next.value.entries| <= SLOTS
      modifies this`rxQueued, this`nextSeqNo, rxPkt, rxSeqNo
      ensures Valid()
      ensures old(rxQueued) > 0 ==>
        r == Some(old(Pending())[0]) && Pending() == old(Pending())[1..] && nextSeqNo == old(nextSeqNo)
      ensures old(rxQueued) == 0 && next.None? ==> r == None && rxQueued == 0 && nextSeqNo == old(nextSeqNo)
      ensures old(rxQueued) == 0 && next.Some? ==>
        var batch := Batch(old(nextSeqNo), next.value);
        r == Some(batch[0]) && Pending() == batch[1..] && nextSeqNo == next.value.seqNo + 1
    {
      if rxQueued > 0 {
        rxQueued := rxQueued - 1;
        return Some(Got(rxSeqNo[rxQueued], rxPkt[rxQueued]));
      }
      if next.None? {
        return None;
      }
      var p := next.value;
      var i := Fill(p);
      r := Some(Got(p.seqNo - i, p.entries[i]));
      nextSeqNo := p.seqNo + 1;
    }

    /** Keeps the entries that are newer than the one to be delivered at once. */
    method Fill(p: Packet) returns (i: nat)
      requires Valid() && rxQueued == 0 && 0 < |p.entries| <= SLOTS
      modifies this`rxQueued, rxPkt, rxSeqNo
      ensures Valid() && i == Missing(nextSeqNo, p) && Pending() == Batch(nextSeqNo, p)[1..]
    {
      i := 0;
      if p.seqNo > nextSeqNo {
        rxQueued := if p.seqNo - nextSeqNo >= |p.entries| then |p.entries| - 1 else p.seqNo - nextSeqNo;
        while i < rxQueued
          invariant i <= rxQueued == Missing(nextSeqNo, p) && Valid()
          invariant forall k :: 0 <= k < i ==> rxPkt[k] == p.entries[k] && rxSeqNo[k] == p.seqNo - k
        {
          rxPkt[i] := p.entries[i];
          rxSeqNo[i] := p.seqNo - i;
          i := i + 1;
        }
      }
      assert Pending() == Batch(nextSeqNo, p)[1..];
    }
  }
}
