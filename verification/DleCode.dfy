/**
 The DLE transparency of a modem's data port: DLE is doubled, DLE ETX ends the data, and DLE before
 any other character drops both. The decoder is given as an automaton over single bytes and as the
 scan for runs that the program makes.
*/
module DleCode {
  import opened BitSeq

  const ETX := Byte(0x03)
  const DLE := Byte(0x10)

  predicate IsDle(b: Byte) { b == DLE }

  predicate IsEtx(b: Byte) { b == ETX }

  /** The bits of a byte in the opposite order. */
  function Rev8(x: bv8): bv8 {
    ((x & 1) << 7) | ((x & 2) << 5) | ((x & 4) << 3) | ((x & 8) << 1) | ((x & 16) >> 1) | ((x & 32) >> 3) | ((x & 64) >> 5) | ((x & 128) >> 7)
  }

  function Rev(b: Byte): Byte { Byte(Rev8(b.v)) }

  lemma Rev8Twice(x: bv8)
    ensures Rev8(Rev8(x)) == x
  {
  }

  lemma Rev8Bits(x: bv8)
    ensures (Rev8(x) & 0x80 != 0 <==> x & 0x01 != 0) && (Rev8(x) & 0x40 != 0 <==> x & 0x02 != 0)
    ensures (Rev8(x) & 0x20 != 0 <==> x & 0x04 != 0) && (Rev8(x) & 0x10 != 0 <==> x & 0x08 != 0)
    ensures (Rev8(x) & 0x08 != 0 <==> x & 0x10 != 0) && (Rev8(x) & 0x04 != 0 <==> x & 0x20 != 0)
    ensures (Rev8(x) & 0x02 != 0 <==> x & 0x40 != 0) && (Rev8(x) & 0x01 != 0 <==> x & 0x80 != 0)
  {
  }

  lemma {:induction false} RevBits(b: Byte)
    ensures var x, y := ByteBits(b), ByteBits(Rev(b));
      y == [x[7], x[6], x[5], x[4], x[3], x[2], x[1], x[0]]
  {
    Rev8Bits(b.v);
    hide Rev8;
  }

  function RevAll(bs: seq<Byte>): (r: seq<Byte>)
    ensures |r| == |bs| && forall i :: 0 <= i < |bs| ==> r[i] == Rev(bs[i])
  {
    if bs == [] then [] else [Rev(bs[0])] + RevAll(bs[1..])
  }

  /** What the data port does to bytes in either direction. */
  function Turned(bitRev: bool, bs: seq<Byte>): (r: seq<Byte>)
    ensures |r| == |bs|
  {
    if bitRev then RevAll(bs) else bs
  }

  lemma TurnedTwice(bitRev: bool, bs: seq<Byte>)
    ensures Turned(bitRev, Turned(bitRev, bs)) == bs
  {
    hide Rev8;
    if bitRev {
      var twice := RevAll(RevAll(bs));
      forall i | 0 <= i < |bs| ensures twice[i] == bs[i] { Rev8Twice(bs[i].v); }
    }
  }

  lemma TurnedNone(bitRev: bool)
    ensures Turned(bitRev, []) == []
  {
  }

  lemma TurnedAdd(bitRev: bool, a: seq<Byte>, b: seq<Byte>)
    ensures Turned(bitRev, a + b) == Turned(bitRev, a) + Turned(bitRev, b)
  {
    hide Rev8;
    assert RevAll(a + b) == RevAll(a) + RevAll(b);
  }

  // ------------------------------------------------------------- the code

  function Encode(bs: seq<Byte>): seq<Byte> {
    if bs == [] then [] else Coded(bs[0]) + Encode(bs[1..])
  }

  function Coded(b: Byte): seq<Byte> { if IsDle(b) then [b, b] else [b] }

  lemma {:induction false} EncodeAdd(a: seq<Byte>, b: seq<Byte>)
    ensures Encode(a + b) == Encode(a) + Encode(b)
  {
    hide Coded;
    if a == [] {
      assert a + b == b;
    } else {
      EncodeAdd(a[1..], b);
      assert (a + b)[1..] == a[1..] + b && (a + b)[0] == a[0];
      assert Coded(a[0]) + (Encode(a[1..]) + Encode(b)) == Coded(a[0]) + Encode(a[1..]) + Encode(b);
    }
  }

  lemma {:induction false} EncodeLength(bs: seq<Byte>)
    ensures |bs| <= |Encode(bs)| <= 2 * |bs|
  {
    if bs != [] { EncodeLength(bs[1..]); }
  }

  /** What is decoded, whether the last character was an open DLE, whether the data ended, and how many bytes are left. */
  datatype Decoded = Decoded(out: seq<Byte>, dle: bool, eof: bool, rest: nat)

  function Decode(dle: bool, p: seq<Byte>): (d: Decoded)
    ensures d.rest <= |p| && (!d.eof ==> d.rest == 0)
    decreases |p|
  {
    if p == [] then Decoded([], dle, false, 0)
    else if dle then
      if IsEtx(p[0]) then Decoded([], false, true, |p| - 1)
      else if IsDle(p[0]) then Emit(p[0], Decode(false, p[1..]))
      else Decode(false, p[1..])
    else if IsDle(p[0]) then Decode(true, p[1..])
    else Emit(p[0], Decode(false, p[1..]))
  }

  function Emit(b: Byte, d: Decoded): Decoded { d.(out := [b] + d.out) }

  function Prepend(run: seq<Byte>, d: Decoded): Decoded { d.(out := run + d.out) }

  lemma PrependOne(b: Byte, run: seq<Byte>, d: Decoded)
    ensures Emit(b, Prepend(run, d)) == Prepend([b] + run, d)
    ensures Prepend([], d) == d
  {
    assert [b] + (run + d.out) == [b] + run + d.out;
    assert [] + d.out == d.out;
  }

  /** One character. */
  lemma DecodeOne(dle: bool, p: seq<Byte>)
    requires p != []
    ensures Decode(dle, p) ==
      if dle && IsEtx(p[0]) then Decoded([], false, true, |p| - 1)
      else if dle && !IsDle(p[0]) then Decode(false, p[1..])
      else if !dle && IsDle(p[0]) then Decode(true, p[1..])
      else Emit(p[0], Decode(false, p[1..]))
  {
    hide IsDle, IsEtx, Emit;
  }

  /** What a decoder makes of more data, after `d`. */
  function Then(d: Decoded, q: seq<Byte>): Decoded {
    if d.eof then d.(rest := d.rest + |q|) else Prepend(d.out, Decode(d.dle, q))
  }

  lemma ThenEmit(b: Byte, d: Decoded, q: seq<Byte>)
    ensures Then(Emit(b, d), q) == Emit(b, Then(d, q))
  {
    PrependOne(b, d.out, Decode(d.dle, q));
    hide Decode;
  }

  /** The data may come in pieces. */
  lemma {:induction false} DecodeAdd(dle: bool, p: seq<Byte>, q: seq<Byte>)
    ensures Decode(dle, p + q) == Then(Decode(dle, p), q)
    decreases |p|
  {
    if p == [] {
      assert p + q == q;
      PrependOne(DLE, [], Decode(dle, q));
    } else {
      assert (p + q)[1..] == p[1..] + q && (p + q)[0] == p[0];
      DecodeOne(dle, p + q);
      DecodeOne(dle, p);
      DecodeAdd(!dle && IsDle(p[0]), p[1..], q);
      ThenEmit(p[0], Decode(false, p[1..]), q);
      hide Decode, Emit, IsDle, IsEtx, Prepend;
    }
  }

  /** A coded byte decodes to itself. */
  lemma DecodeByte(b: Byte, q: seq<Byte>)
    ensures Decode(false, Encode([b]) + q) == Emit(b, Decode(false, q))
  {
    assert [b][1..] == [] && Encode([]) == [];
    hide IsEtx;
    if IsDle(b) {
      NotEtx(b);
      assert Encode([b]) + q == [b] + ([b] + q);
      assert ([b] + ([b] + q))[1..] == [b] + q && ([b] + q)[1..] == q;
    } else {
      assert (Encode([b]) + q)[1..] == q;
    }
    hide IsDle;
  }

  lemma NotEtx(b: Byte)
    ensures !(IsDle(b) && IsEtx(b)) && IsDle(DLE) && IsEtx(ETX)
  {
  }

  lemma DecodeTwo(all: seq<Byte>)
    requires |all| >= 2 && IsDle(all[0]) && IsEtx(all[1])
    ensures Decode(false, all) == Decoded([], false, true, |all| - 2)
  {
    hide *;
    DecodeOne(false, all);
    DecodeOne(true, all[1..]);
  }

  lemma DecodeEnd(tail: seq<Byte>)
    ensures Decode(false, [DLE, ETX] + tail) == Decoded([], false, true, |tail|)
  {
    hide *;
    NotEtx(DLE);
    DecodeTwo([DLE, ETX] + tail);
  }

  /** Decoding undoes encoding, stops at the DLE ETX that is not data, and leaves what follows it. */
  lemma {:induction false} DecodeEncode(bs: seq<Byte>, tail: seq<Byte>)
    ensures Decode(false, Encode(bs) + [DLE, ETX] + tail) == Decoded(bs, false, true, |tail|)
    decreases |bs|
  {
    DecodeEnd(tail);
    hide Decode, IsDle;
    if bs == [] {
      assert [] + [DLE, ETX] + tail == [DLE, ETX] + tail;
    } else {
      var next := Encode(bs[1..]) + [DLE, ETX] + tail;
      DecodeEncode(bs[1..], tail);
      DecodeByte(bs[0], next);
      assert [bs[0]] + bs[1..] == bs;
      EncodeAdd([bs[0]], bs[1..]);
      hide Encode;
      assert Encode(bs) + [DLE, ETX] + tail == Encode([bs[0]]) + next;
    }
  }

  // ------------------------------------------------------------- runs

  const BLOCK: nat := 1024

  /**
   What `PutDleData` stores of a run of `left` bytes at `p`: bit-reversed through a block of 1024 bytes,
   every block read from the start of the run.
  */
  function Blocks(p: seq<Byte>, left: nat): seq<Byte>
    requires left <= |p|
    decreases left
  {
    if left == 0 then []
    else
      var n := if left > BLOCK then BLOCK else left;
      RevAll(p[..n]) + Blocks(p, left - n)
  }

  function Stored(bitRev: bool, run: seq<Byte>): seq<Byte> { if bitRev then Blocks(run, |run|) else run }

  /** The first DLE at or after `from`, or the end. */
  function Find(p: seq<Byte>, from: nat): (k: nat)
    requires from <= |p|
    ensures from <= k <= |p| && (forall i :: from <= i < k ==> !IsDle(p[i])) && (k < |p| ==> IsDle(p[k]))
    decreases |p| - from
  {
    if from == |p| || IsDle(p[from]) then from else Find(p, from + 1)
  }

  /** The scan of `PutDleData`: run by run, a run ending at a DLE. */
  function Scan(bitRev: bool, dle: bool, p: seq<Byte>): Decoded
    decreases |p|
  {
    if p == [] then Decoded([], dle, false, 0)
    else if dle && IsEtx(p[0]) then Decoded([], false, true, |p| - 1)
    else
      var q := RunStart(dle, p);
      var k := Find(q, if dle && IsDle(p[0]) then 1 else 0);
      var rest := Scan(bitRev, k < |q|, if k < |q| then q[k + 1..] else []);
      Prepend(Stored(bitRev, q[..k]), rest)
  }

  lemma StoredShort(bitRev: bool, run: seq<Byte>)
    requires !bitRev || |run| <= BLOCK
    ensures Stored(bitRev, run) == Turned(bitRev, run)
  {
    if bitRev {
      assert run[..|run|] == run;
      assert Blocks(run, 0) == [];
    }
  }

  /** Bytes with no DLE among them pass as they are. */
  lemma {:induction false} DecodeRun(run: seq<Byte>, q: seq<Byte>)
    requires forall i :: 0 <= i < |run| ==> !IsDle(run[i])
    ensures Decode(false, run + q) == Prepend(run, Decode(false, q))
  {
    hide *;
    if run == [] {
      assert run + q == q;
      PrependOne(DLE, [], Decode(false, q));
    } else {
      assert (run + q)[1..] == run[1..] + q && (run + q)[0] == run[0];
      DecodeRun(run[1..], q);
      DecodeOne(false, run + q);
      PrependOne(run[0], run[1..], Decode(false, q));
      assert [run[0]] + run[1..] == run;
    }
  }

  /** What is decoded after a run: nothing, or what follows the DLE that ends it. */
  function AfterRun(q: seq<Byte>, k: nat): Decoded
    requires k <= |q|
  {
    if k < |q| then Decode(true, q[k + 1..]) else Decoded([], false, false, 0)
  }

  lemma DecodeAfter(q: seq<Byte>, k: nat)
    requires k <= |q| && (k < |q| ==> IsDle(q[k]))
    ensures Decode(false, q[k..]) == AfterRun(q, k)
  {
    hide IsDle, IsEtx;
    if k < |q| {
      assert q[k..][1..] == q[k + 1..];
      DecodeOne(false, q[k..]);
    }
    hide Decode;
  }

  /** One run, and the DLE after it if there is one. */
  lemma DecodeToDle(q: seq<Byte>, k: nat)
    requires k == Find(q, 0)
    ensures Decode(false, q) == Prepend(q[..k], AfterRun(q, k))
  {
    hide Decode, AfterRun, Prepend, IsDle;
    assert q == q[..k] + q[k..];
    DecodeRun(q[..k], q[k..]);
    DecodeAfter(q, k);
  }

  /** A doubled DLE opens the run. */
  lemma DecodeDoubled(q: seq<Byte>, k: nat)
    requires q != [] && IsDle(q[0]) && k == Find(q, 1)
    ensures Decode(true, q) == Prepend(q[..k], AfterRun(q, k))
  {
    NotEtx(q[0]);
    DecodeOne(true, q);
    FindTail(q, 1);
    DecodeToDle(q[1..], k - 1);
    TailAfter(q, k);
    hide *;
    PrependOne(q[0], q[1..k], AfterRun(q, k));
    assert q[1..][..k - 1] == q[1..k];
    assert [q[0]] + q[1..k] == q[..k];
  }

  lemma TailAfter(q: seq<Byte>, k: nat)
    requires 1 <= k <= |q|
    ensures AfterRun(q[1..], k - 1) == AfterRun(q, k)
  {
    hide Decode;
    if k < |q| { assert q[1..][k..] == q[k + 1..]; }
  }

  lemma {:induction false} FindTail(q: seq<Byte>, from: nat)
    requires 1 <= from <= |q|
    ensures Find(q, from) == Find(q[1..], from - 1) + 1
    decreases |q| - from
  {
    hide IsDle, IsEtx;
    if from < |q| && !IsDle(q[from]) { FindTail(q, from + 1); }
  }

  /** The run that the scan starts with, and what comes of it. */
  function RunStart(dle: bool, p: seq<Byte>): seq<Byte>
    requires p != []
  {
    if dle && !IsDle(p[0]) then p[1..] else p
  }

  lemma DecodeStart(dle: bool, p: seq<Byte>, k: nat)
    requires p != [] && !(dle && IsEtx(p[0]))
    requires k == Find(RunStart(dle, p), if dle && IsDle(p[0]) then 1 else 0)
    ensures Decode(dle, p) == Prepend(RunStart(dle, p)[..k], AfterRun(RunStart(dle, p), k))
  {
    hide Find, IsDle, IsEtx, Decode, AfterRun, Prepend;
    DecodeOne(dle, p);
    if dle && IsDle(p[0]) {
      DecodeDoubled(p, k);
    } else {
      DecodeOne(false, p);
      DecodeToDle(RunStart(dle, p), k);
    }
  }

  /** The same, with what is decoded in its stored form. */
  function Keep(bitRev: bool, d: Decoded): Decoded { d.(out := Turned(bitRev, d.out)) }

  lemma KeepRun(bitRev: bool, run: seq<Byte>, d: Decoded)
    requires !bitRev || |run| <= BLOCK
    ensures Keep(bitRev, Prepend(run, d)) == Prepend(Stored(bitRev, run), Keep(bitRev, d))
  {
    StoredShort(bitRev, run);
    TurnedAdd(bitRev, run, d.out);
    hide Turned, Stored;
  }

  /** In calls of at most one block the scan is the automaton, and what it stores is what was decoded. */
  lemma {:induction false} ScanDecodes(bitRev: bool, dle: bool, p: seq<Byte>)
    requires !bitRev || |p| <= BLOCK
    ensures Scan(bitRev, dle, p) == Keep(bitRev, Decode(dle, p))
    decreases |p|
  {
    hide IsDle, IsEtx, Find, Stored, Turned, Prepend;
    if p == [] || (dle && IsEtx(p[0])) {
      TurnedNone(bitRev);
    } else {
      var q := RunStart(dle, p);
      var k := Find(q, if dle && IsDle(p[0]) then 1 else 0);
      if k < |q| { ScanDecodes(bitRev, true, q[k + 1..]); } else { ScanDecodes(bitRev, false, []); }
      assert Decode(false, []) == Decoded([], false, false, 0);
      DecodeStart(dle, p, k);
      KeepRun(bitRev, q[..k], AfterRun(q, k));
      hide Decode, Keep;
    }
  }

  // ------------------------------------------------------------- exactly when

  lemma {:induction false} BlocksFirst(p: seq<Byte>, left: nat)
    requires 0 < left <= |p|
    ensures |Blocks(p, left)| == left && Blocks(p, left)[0] == Rev(p[0])
    decreases left
  {
    hide Rev;
    if left > BLOCK { BlocksFirst(p, left - BLOCK); } else { assert Blocks(p, 0) == []; }
  }

  /** The second block of a run starts over. */
  lemma SecondBlock(p: seq<Byte>)
    requires |p| > BLOCK
    ensures |Blocks(p, |p|)| == |p| && Blocks(p, |p|)[BLOCK] == Rev(p[0])
  {
    hide Rev;
    BlocksFirst(p, |p| - BLOCK);
  }

  /** One run: the first byte `a`, and then bytes that are not DLE, the one after the first block another. */
  function LongRun(a: Byte, n: nat): (p: seq<Byte>)
    requires n > BLOCK
    ensures |p| == n && p[0] == a && (forall i :: 0 < i < n ==> p[i] == Byte(0) || p[i] == Byte(1)) && p[BLOCK] == Byte(1)
  {
    [a] + seq(BLOCK - 1, _ => Byte(0)) + seq(n - BLOCK, _ => Byte(1))
  }

  lemma PlainBytes()
    ensures !IsDle(Byte(0)) && !IsDle(Byte(1)) && Rev(Byte(0)) != Rev(Byte(1)) && Rev(DLE) != Rev(Byte(1))
  {
  }

  lemma ScanLong(dle: bool, n: nat)
    requires n > BLOCK
    ensures var p := LongRun(if dle then DLE else Byte(0), n); Scan(true, dle, p) != Keep(true, Decode(dle, p))
  {
    PlainBytes();
    NotEtx(DLE);
    var a := if dle then DLE else Byte(0);
    var p := LongRun(a, n);
    hide LongRun, Rev, IsDle, IsEtx;
    assert dle ==> IsDle(p[0]);
    assert !dle ==> !IsDle(p[0]);
    assert forall i :: 0 < i < n ==> !IsDle(p[i]);
    var k := Find(p, if dle then 1 else 0);
    assert k == n;
    DecodeStart(dle, p, n);
    SecondBlock(p);
    hide Find, Decode, Blocks;
    assert p[..n] == p;
    assert Scan(true, false, []).out == [];
    assert Scan(true, dle, p).out == Blocks(p, n) + [];
    assert Decode(dle, p).out == p + [];
    assert p + [] == p;
    assert Keep(true, Decode(dle, p)).out == RevAll(p);
    assert RevAll(p)[BLOCK] == Rev(Byte(1));
    assert Scan(true, dle, p).out[BLOCK] == Rev(a);
  }

  /**
   Calls of length `n` store exactly what was sent, whatever it is, if and only if nothing is to be
   reversed or the call is at most one block long.
  */
  lemma {:induction false} ExactWithinBlock(bitRev: bool, dle: bool, n: nat)
    ensures (forall p: seq<Byte> :: |p| == n ==> Scan(bitRev, dle, p) == Keep(bitRev, Decode(dle, p))) <==> !bitRev || n <= BLOCK
  {
    hide Scan, Decode, Keep, IsDle;
    if !bitRev || n <= BLOCK {
      forall p: seq<Byte> | |p| == n ensures Scan(bitRev, dle, p) == Keep(bitRev, Decode(dle, p)) { ScanDecodes(bitRev, dle, p); }
    } else {
      ScanLong(dle, n);
      assert |LongRun(if dle then DLE else Byte(0), n)| == n;
    }
  }

  // ------------------------------------------------------------- round trip

  /** Calls of `PutDleData` one after the other; after the end of data a call takes nothing. */
  function Feed(bitRev: bool, dle: bool, calls: seq<seq<Byte>>): Decoded
    decreases |calls|
  {
    if calls == [] then Decoded([], dle, false, 0)
    else
      var d := Scan(bitRev, dle, calls[0]);
      if d.eof then d.(rest := d.rest + |Joined(calls[1..])|)
      else Prepend(d.out, Feed(bitRev, d.dle, calls[1..]))
  }

  function Joined(calls: seq<seq<Byte>>): seq<Byte> { if calls == [] then [] else calls[0] + Joined(calls[1..]) }

  predicate Short(bitRev: bool, calls: seq<seq<Byte>>) { bitRev ==> forall c :: c in calls ==> |c| <= BLOCK }

  lemma {:induction false} FeedDecodes(bitRev: bool, dle: bool, calls: seq<seq<Byte>>)
    requires Short(bitRev, calls)
    ensures Feed(bitRev, dle, calls) == Keep(bitRev, Decode(dle, Joined(calls)))
    decreases |calls|
  {
    hide Scan, Turned, IsDle, IsEtx;
    if calls == [] {
      TurnedNone(bitRev);
    } else {
      var d := Decode(dle, calls[0]);
      ScanDecodes(bitRev, dle, calls[0]);
      FeedDecodes(bitRev, d.dle, calls[1..]);
      DecodeAdd(dle, calls[0], Joined(calls[1..]));
      TurnedAdd(bitRev, d.out, Decode(d.dle, Joined(calls[1..])).out);
      hide Decode;
    }
  }

  /** What `GetDleData` has still to give of data `bs`, all in. */
  function LineOf(bitRev: bool, bs: seq<Byte>): seq<Byte> { Encode(Turned(bitRev, bs)) + [DLE, ETX] }

  /**
   The whole coded data, in calls split anywhere, is stored as it was, and ended; and what comes after
   its DLE ETX is left.
  */
  lemma {:induction false} RoundTrip(bitRev: bool, bs: seq<Byte>, tail: seq<Byte>, calls: seq<seq<Byte>>)
    requires Joined(calls) == LineOf(bitRev, bs) + tail && Short(bitRev, calls)
    ensures Feed(bitRev, false, calls) == Decoded(bs, false, true, |tail|)
  {
    FeedDecodes(bitRev, false, calls);
    DecodeEncode(Turned(bitRev, bs), tail);
    TurnedTwice(bitRev, bs);
    hide Feed, Decode, Turned;
  }
}
