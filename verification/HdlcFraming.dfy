/**
 Bit-stuffed HDLC framing (section 5.2 of RFC 1662) on bit streams: what the two
 directions of the `HDLC` class do, and why one undoes the other.
*/
module HdlcFraming {
  import opened BitSeq

  const FLAG: Bits := [false, true, true, true, true, true, true, false]

  // ------------------------------------------------------------------- sending

  /** The count of ones just sent, after the data bit `x`. */
  function NextOnes(x: bool, ones: nat): nat {
    if !x || ones + 1 == 5 then 0 else ones + 1
  }

  /** What the data bit `x` puts on the line: a zero follows the fifth one in a row. */
  function StuffBit(x: bool, ones: nat): Bits {
    if x && ones + 1 == 5 then [true, false] else [x]
  }

  function Stuff(d: Bits, ones: nat): Bits {
    if d == [] then [] else StuffBit(d[0], ones) + Stuff(d[1..], NextOnes(d[0], ones))
  }

  function OnesAfter(d: Bits, ones: nat): nat {
    if d == [] then ones else OnesAfter(d[1..], NextOnes(d[0], ones))
  }

  lemma {:induction false} StuffAppend(a: Bits, b: Bits, ones: nat)
    ensures Stuff(a + b, ones) == Stuff(a, ones) + Stuff(b, OnesAfter(a, ones))
  {
    hide StuffBit, NextOnes;
    if a == [] {
      assert a + b == b;
    } else {
      assert (a + b)[1..] == a[1..] + b;
      StuffAppend(a[1..], b, NextOnes(a[0], ones));
    }
  }

  lemma {:induction false} OnesBelowFive(d: Bits, ones: nat)
    requires ones < 5
    ensures OnesAfter(d, ones) < 5
  {
    if d != [] {
      OnesBelowFive(d[1..], NextOnes(d[0], ones));
    }
  }

  function Flags(n: nat): Bits {
    if n == 0 then [] else FLAG + Flags(n - 1)
  }

  /** A frame on the line: its contents stuffed, then two flags. */
  function FrameBits(d: Bits): Bits {
    Stuff(d, 0) + (FLAG + FLAG)
  }

  function LineBits(frames: seq<Bits>): Bits {
    if frames == [] then [] else FrameBits(frames[0]) + LineBits(frames[1..])
  }

  // ----------------------------------------------------------------- receiving

  /** Destuffing: a zero after exactly five ones is dropped. */
  function Destuff(s: Bits, ones: nat): Bits {
    if s == [] then []
    else if s[0] then [true] + Destuff(s[1..], ones + 1)
    else (if ones == 5 then [] else [false]) + Destuff(s[1..], 0)
  }

  datatype Scan = Scan(found: bool, rest: Bits, ones: nat, data: Bits)

  /** `unpack`: looks for a flag bit by bit, taking in the bits that pass by. */
  function Unpack(bits: Bits, ones: nat, data: Bits): Scan
    decreases |bits|
  {
    if |bits| < 8 then Scan(false, bits, ones, data)
    else if bits[..8] == FLAG then Scan(true, bits[8..], ones, data)
    else if bits[0] then Unpack(bits[1..], ones + 1, data + [true])
    else Unpack(bits[1..], 0, if ones == 5 then data else data + [false])
  }

  /** `sync`: looks for a flag and forgets what passes by. */
  function Sync(bits: Bits): Scan
    decreases |bits|
  {
    if |bits| < 8 then Scan(false, bits, 0, [])
    else if bits[..8] == FLAG then Scan(true, bits[8..], 0, [])
    else Sync(bits[1..])
  }

  datatype RxState = StEof | StSync | StSkipFlags | StData

  /** The receiver: its state, the bits it has not dealt with, and the frame so far. */
  datatype Rx = Rx(st: RxState, pend: Bits, ones: nat, data: Bits)

  function RxData(rx: Rx, bits: Bits): Rx {
    var u := Unpack(bits, rx.ones, rx.data);
    Rx(if u.found then StEof else StData, u.rest, u.ones, u.data)
  }

  /** What one byte does to the receiver. */
  function RxByte(rx: Rx, b: Byte): Rx {
    var bits := rx.pend + ByteBits(b);
    match rx.st
    case StEof => rx
    case StSync =>
      var u := Sync(bits);
      rx.(st := if u.found then StSkipFlags else StSync, pend := u.rest)
    case StSkipFlags =>
      if bits[..8] == FLAG then rx.(pend := bits[8..]) else RxData(rx, bits)
    case StData => RxData(rx, bits)
  }

  /** What some bytes do to the receiver; after a closing flag it takes in no more. */
  function RxRun(rx: Rx, bytes: seq<Byte>): Rx
    decreases |bytes|
  {
    if bytes == [] then rx else RxRun(RxByte(rx, bytes[0]), bytes[1..])
  }

  lemma {:induction false} RxRunAppend(rx: Rx, a: seq<Byte>, b: seq<Byte>)
    ensures RxRun(rx, a + b) == RxRun(RxRun(rx, a), b)
    decreases |a|
  {
    hide RxByte;
    if a == [] {
      assert a + b == b;
    } else {
      assert (a + b)[1..] == a[1..] + b;
      RxRunAppend(RxByte(rx, a[0]), a[1..], b);
    }
  }

  /** `GetHdlcStart`: ready for the next frame; the pending bits stay. */
  function Restart(rx: Rx, sync: bool): Rx {
    Rx(if sync then StSync else StSkipFlags, rx.pend, 0, [])
  }

  /** The frames a receiver takes from a byte string when it is restarted after each of them. */
  function Decode(rx: Rx, bytes: seq<Byte>): seq<Bits>
    decreases |bytes|
  {
    if bytes == [] then []
    else
      var next := RxByte(rx, bytes[0]);
      if next.st == StEof then [next.data] + Decode(Restart(next, false), bytes[1..])
      else Decode(next, bytes[1..])
  }

  /** No byte of `c` was taken in after a closing flag. */
  predicate NoFurther(rx: Rx, c: seq<Byte>) {
    c != [] ==> RxRun(rx, c[..|c| - 1]).st != StEof
  }

  lemma RxRunNone(rx: Rx)
    ensures RxRun(rx, []) == rx && NoFurther(rx, [])
  {
  }

  lemma NoFurtherThan(rx: Rx, c: seq<Byte>, b: seq<Byte>)
    requires NoFurther(rx, c) && RxRun(rx, c).st != StEof && |b| <= 1
    ensures NoFurther(rx, c + b)
  {
    if b == [] {
      assert c + b == c;
    } else {
      assert (c + b)[..|c + b| - 1] == c;
    }
  }

  /**
   Taking in bytes up to a closing flag, and no further, is decoding one frame: what is left
   is decoded by the receiver restarted.
  */
  lemma {:induction false} DecodeRun(rx: Rx, c: seq<Byte>, rest: seq<Byte>)
    requires rx.st != StEof
    requires NoFurther(rx, c)
    ensures var end := RxRun(rx, c);
      Decode(rx, c + rest) ==
        if end.st == StEof then [end.data] + Decode(Restart(end, false), rest) else Decode(end, rest)
    decreases |c|
  {
    hide RxByte, Restart;
    if c == [] {
      assert c + rest == rest;
    } else {
      var next := RxByte(rx, c[0]);
      assert (c + rest)[0] == c[0] && (c + rest)[1..] == c[1..] + rest;
      if next.st == StEof {
        EofStays(next, c[1..]);
        if |c| > 1 {
          assert c[..|c| - 1][0] == c[0];
          EofStays(next, c[..|c| - 1][1..]);
        }
        assert c[1..] == [];
      } else {
        if |c| > 1 {
          assert c[..|c| - 1][0] == c[0] && c[..|c| - 1][1..] == c[1..][..|c| - 2];
        }
        DecodeRun(next, c[1..], rest);
      }
    }
  }

  lemma {:induction false} EofStays(rx: Rx, bytes: seq<Byte>)
    requires rx.st == StEof
    ensures RxRun(rx, bytes) == rx
    decreases |bytes|
  {
    if bytes != [] {
      EofStays(RxByte(rx, bytes[0]), bytes[1..]);
    }
  }

  // ------------------------------------------------------------- no false flag

  /** Counting on from `c`, there are never more than five ones in a row. */
  predicate RunsOk(s: Bits, c: nat) {
    s == [] || (if s[0] then c + 1 <= 5 && RunsOk(s[1..], c + 1) else RunsOk(s[1..], 0))
  }

  lemma {:induction false} StuffRunsOk(d: Bits, ones: nat)
    requires ones <= 4
    ensures RunsOk(Stuff(d, ones), ones)
  {
    if d == [] {
    } else if !d[0] {
      StuffRunsOk(d[1..], 0);
    } else if ones + 1 == 5 {
      StuffRunsOk(d[1..], 0);
      assert ([true, false] + Stuff(d[1..], 0))[1..] == [false] + Stuff(d[1..], 0);
    } else {
      StuffRunsOk(d[1..], ones + 1);
    }
  }

  lemma {:induction false} RunAtMostFive(s: Bits, c: nat, at: nat, n: nat)
    requires RunsOk(s, c) && at + n <= |s|
    requires forall i {:trigger s[i]} :: at <= i < at + n ==> s[i]
    ensures n <= 5
    decreases |s|
  {
    if at > 0 {
      var c' := if s[0] then c + 1 else 0;
      assert forall i :: at - 1 <= i < at - 1 + n ==> s[1..][i] == s[i + 1];
      RunAtMostFive(s[1..], c', at - 1, n);
    } else if n > 0 {
      RunFromStart(s, c, n);
    }
  }

  lemma {:induction false} RunFromStart(s: Bits, c: nat, n: nat)
    requires RunsOk(s, c) && n <= |s| && c <= 5
    requires forall i {:trigger s[i]} :: 0 <= i < n ==> s[i]
    ensures c + n <= 5
    decreases n
  {
    if n > 0 {
      assert forall i :: 0 <= i < n - 1 ==> s[1..][i] == s[i + 1];
      RunFromStart(s[1..], c + 1, n - 1);
    }
  }

  predicate FlagAt(s: Bits, k: nat) {
    k + 8 <= |s| && s[k..k + 8] == FLAG
  }

  /** In `s` followed by a flag, the first window that is a flag is that flag. */
  predicate Clean(s: Bits) {
    forall k: nat :: k < |s| ==> !FlagAt(s + FLAG, k)
  }

  /** Stuffed data never shows a flag, at any bit offset, before the closing one. */
  lemma {:induction false} NoFalseFlag(d: Bits, ones: nat)
    requires ones <= 4
    ensures Clean(Stuff(d, ones))
  {
    var s := Stuff(d, ones);
    StuffRunsOk(d, ones);
    forall k: nat | k < |s|
      ensures !FlagAt(s + FLAG, k)
    {
      var w := (s + FLAG)[k..k + 8];
      assert forall i :: 0 <= i < 8 ==> w[i] == (s + FLAG)[k + i];
      assert k + 7 > |s| ==> w[|s| - k] == FLAG[0];
      if w == FLAG && k + 7 <= |s| {
        assert forall i :: k + 1 <= i < k + 7 ==> s[i] == w[i - k];
        RunAtMostFive(s, ones, k + 1, 6);
      }
    }
  }

  lemma CleanTail(s: Bits)
    requires Clean(s) && s != []
    ensures Clean(s[1..])
  {
    forall k: nat | k < |s[1..]|
      ensures !FlagAt(s[1..] + FLAG, k)
    {
      assert !FlagAt(s + FLAG, k + 1);
      assert (s[1..] + FLAG)[k..k + 8] == (s + FLAG)[k + 1..k + 9];
    }
  }

  // --------------------------------------------------------- one direction undoes the other

  /** The first bit stuffed. */
  lemma StuffFirst(d: Bits, ones: nat)
    requires d != [] && ones <= 4
    ensures Stuff(d, ones) ==
      if !d[0] then [false] + Stuff(d[1..], 0)
      else if ones == 4 then [true] + ([false] + Stuff(d[1..], 0))
      else [true] + Stuff(d[1..], ones + 1)
  {
  }

  /** The first bit destuffed. */
  lemma DestuffFirst(x: bool, s: Bits, ones: nat)
    ensures Destuff([x] + s, ones) ==
      if x then [true] + Destuff(s, ones + 1)
      else if ones == 5 then Destuff(s, 0)
      else [false] + Destuff(s, 0)
  {
    assert ([x] + s)[1..] == s;
  }

  /** Destuffing undoes stuffing. */
  lemma {:induction false} DestuffStuff(d: Bits, ones: nat)
    requires ones <= 4
    ensures Destuff(Stuff(d, ones), ones) == d
  {
    if d != [] {
      StuffFirst(d, ones);
      assert d == [d[0]] + d[1..];
      hide Stuff, Destuff;
      if !d[0] {
        DestuffStuff(d[1..], 0);
        DestuffFirst(false, Stuff(d[1..], 0), ones);
      } else if ones == 4 {
        DestuffStuff(d[1..], 0);
        DestuffFirst(true, [false] + Stuff(d[1..], 0), ones);
        DestuffFirst(false, Stuff(d[1..], 0), 5);
      } else {
        DestuffStuff(d[1..], ones + 1);
        DestuffFirst(true, Stuff(d[1..], ones + 1), ones);
      }
    }
  }

  /** The first eight bits are a flag exactly when nothing is left before the flag. */
  lemma FrontWindow(bits: Bits, more: Bits, s: Bits, tail: Bits)
    requires bits + more == s + FLAG + tail && Clean(s) && |bits| >= 8
    ensures if s == [] then bits[..8] == FLAG && bits[8..] + more == tail
      else bits[..8] != FLAG && bits[0] == s[0] && bits[1..] + more == s[1..] + FLAG + tail && Clean(s[1..])
  {
    var line := s + FLAG + tail;
    assert bits[..8] == (bits + more)[..8] == line[..8];
    if s == [] {
      assert bits[8..] + more == (bits + more)[8..] == tail;
    } else {
      assert !FlagAt(s + FLAG, 0);
      assert (s + FLAG)[0..8] == line[..8];
      assert bits[0] == (bits + more)[0] == s[0];
      assert bits[1..] + more == (bits + more)[1..] == s[1..] + FLAG + tail;
      CleanTail(s);
    }
  }

  lemma DestuffOne(s: Bits, ones: nat, data: Bits)
    requires s != []
    ensures data + Destuff(s, ones) ==
      if s[0] then data + [true] + Destuff(s[1..], ones + 1)
      else (if ones == 5 then data else data + [false]) + Destuff(s[1..], 0)
  {
    assert [] + Destuff(s[1..], 0) == Destuff(s[1..], 0);
  }

  /**
   Scanning some bits of a line that goes on as `s`, a flag and `tail`, where no flag shows
   before that one: either the flag was reached, and exactly `s` has been taken in, or only
   bits of `s` have, and the rest of the line still starts inside `s`.
  */
  lemma {:induction false} UnpackLine(bits: Bits, more: Bits, s: Bits, tail: Bits, ones: nat, data: Bits) returns (left: Bits)
    requires bits + more == s + FLAG + tail && Clean(s)
    ensures var u := Unpack(bits, ones, data);
      if u.found then u.rest + more == tail && u.data == data + Destuff(s, ones)
      else
        && |u.rest| < 8 && u.rest + more == left + FLAG + tail && Clean(left)
        && u.data + Destuff(left, u.ones) == data + Destuff(s, ones)
    ensures Unpack(bits, ones, data).found <==> |bits| >= |s| + 8
    decreases |bits|
  {
    hide Clean, Destuff;
    left := s;
    if |bits| >= 8 {
      FrontWindow(bits, more, s, tail);
      if s == [] {
        DestuffNone(ones, data);
      } else {
        DestuffOne(s, ones, data);
        var ones' := if bits[0] then ones + 1 else 0;
        var data' := if bits[0] then data + [true] else if ones == 5 then data else data + [false];
        left := UnpackLine(bits[1..], more, s[1..], tail, ones', data');
      }
    }
  }

  lemma DestuffNone(ones: nat, data: Bits)
    ensures data + Destuff([], ones) == data
  {
  }

  /** Looking for the first flag discards what precedes it, and nothing else. */
  lemma {:induction false} SyncLine(bits: Bits, more: Bits, s: Bits, tail: Bits) returns (left: Bits)
    requires bits + more == s + FLAG + tail && Clean(s)
    ensures var u := Sync(bits);
      if u.found then u.rest + more == tail
      else |u.rest| < 8 && u.rest + more == left + FLAG + tail && Clean(left)
    ensures Sync(bits).found <==> |bits| >= |s| + 8
    decreases |bits|
  {
    hide Clean;
    left := s;
    if |bits| >= 8 {
      FrontWindow(bits, more, s, tail);
      if s != [] { left := SyncLine(bits[1..], more, s[1..], tail); }
    }
  }

  // ----------------------------------------------------------------- round trip

  /** Between two frames: flags are skipped, nothing of a frame has come yet. */
  predicate Idle(rx: Rx) {
    rx.st == StSkipFlags && |rx.pend| < 8 && rx.ones == 0 && rx.data == []
  }

  /** Inside a frame the receiver comes to the closing flag with exactly the frame's contents. */
  lemma {:induction false} DecodeData(rx: Rx, bytes: seq<Byte>, s: Bits, tail: Bits) returns (rx': Rx, rest: seq<Byte>)
    requires rx.st == StData && |rx.pend| < 8
    requires rx.pend + ToBits(bytes) == s + FLAG + tail && Clean(s)
    ensures Decode(rx, bytes) == [rx.data + Destuff(s, rx.ones)] + Decode(rx', rest)
    ensures Idle(rx') && rx'.pend + ToBits(rest) == tail && |rest| < |bytes|
    decreases |bytes|
  {
    hide ByteBits;
    assert bytes != [];
    var bits, more := rx.pend + ByteBits(bytes[0]), ToBits(bytes[1..]);
    assert bits + more == rx.pend + ToBits(bytes);
    var left := UnpackLine(bits, more, s, tail, rx.ones, rx.data);
    var next := RxByte(rx, bytes[0]);
    if next.st == StEof {
      rx', rest := Restart(next, false), bytes[1..];
    } else {
      rx', rest := DecodeData(next, bytes[1..], left, tail);
    }
  }

  /** A receiver between frames that sees no flag is inside the next frame. */
  lemma DecodeEnters(rx: Rx, bytes: seq<Byte>)
    requires rx.st == StSkipFlags && bytes != []
    requires (rx.pend + ByteBits(bytes[0]))[..8] != FLAG
    ensures Decode(rx, bytes) == Decode(rx.(st := StData), bytes)
  {
    hide ByteBits, Unpack;
    assert RxByte(rx, bytes[0]) == RxByte(rx.(st := StData), bytes[0]);
  }

  /** A receiver between frames drops a flag. */
  lemma SkipOne(rx: Rx, bytes: seq<Byte>, after: Bits) returns (next: Rx)
    requires Idle(rx) && rx.pend + ToBits(bytes) == FLAG + after
    ensures bytes != [] && Decode(rx, bytes) == Decode(next, bytes[1..])
    ensures Idle(next) && next.pend + ToBits(bytes[1..]) == after
  {
    hide ByteBits, Unpack;
    var bits, more := rx.pend + ByteBits(bytes[0]), ToBits(bytes[1..]);
    assert bits + more == FLAG + after;
    assert bits[..8] == (bits + more)[..8] == FLAG;
    assert bits[8..] + more == (bits + more)[8..] == after;
    next := RxByte(rx, bytes[0]);
  }

  /** A receiver between frames skips the flags and takes in one frame. */
  lemma {:induction false} DecodeFrame(rx: Rx, bytes: seq<Byte>, k: nat, d: Bits, tail: Bits) returns (rx': Rx, rest: seq<Byte>)
    requires Idle(rx) && d != []
    requires rx.pend + ToBits(bytes) == Flags(k) + (Stuff(d, 0) + FLAG + tail)
    ensures Decode(rx, bytes) == [d] + Decode(rx', rest)
    ensures Idle(rx') && rx'.pend + ToBits(rest) == tail && |rest| < |bytes|
    decreases |bytes|
  {
    hide ByteBits, Unpack, RxByte, Decode, Destuff;
    var s := Stuff(d, 0);
    if k > 0 {
      assert Flags(k) + (s + FLAG + tail) == FLAG + (Flags(k - 1) + (s + FLAG + tail));
      var next := SkipOne(rx, bytes, Flags(k - 1) + (s + FLAG + tail));
      rx', rest := DecodeFrame(next, bytes[1..], k - 1, d, tail);
    } else {
      assert rx.pend + ToBits(bytes) == s + FLAG + tail;
      NoFalseFlag(d, 0);
      DestuffStuff(d, 0);
      assert s != [];
      hide Stuff;
      FirstWindow(rx.pend, bytes, s, tail);
      DecodeEnters(rx, bytes);
      rx', rest := DecodeData(rx.(st := StData), bytes, s, tail);
      assert [] + d == d;
    }
  }

  lemma FirstWindow(pend: Bits, bytes: seq<Byte>, s: Bits, tail: Bits)
    requires pend + ToBits(bytes) == s + FLAG + tail && |pend| < 8 && Clean(s) && s != []
    ensures bytes != [] && (pend + ByteBits(bytes[0]))[..8] != FLAG
  {
    hide ByteBits;
    assert !FlagAt(s + FLAG, 0);
    var bits, more := pend + ByteBits(bytes[0]), ToBits(bytes[1..]);
    assert bits + more == pend + ToBits(bytes);
    assert bits[..8] == (bits + more)[..8] == (s + FLAG)[0..8];
  }

  /** Flags alone, the last of them perhaps cut short, hold no frame. */
  lemma {:induction false} DecodeFlags(rx: Rx, bytes: seq<Byte>, k: nat, lost: Bits)
    requires Idle(rx) && |lost| < 8
    requires rx.pend + ToBits(bytes) + lost == Flags(k)
    ensures Decode(rx, bytes) == []
    decreases |bytes|
  {
    hide ByteBits;
    if bytes != [] {
      var bits, more := rx.pend + ByteBits(bytes[0]), ToBits(bytes[1..]);
      assert bits + more == rx.pend + ToBits(bytes);
      assert bits[..8] == (bits + more + lost)[..8] == FLAG;
      assert bits[8..] + more + lost == (bits + more + lost)[8..] == Flags(k - 1);
      DecodeFlags(RxByte(rx, bytes[0]), bytes[1..], k - 1, lost);
    }
  }

  lemma CutLast(got: Bits, lost: Bits, a: Bits, b: Bits)
    requires got + lost == a + b && |lost| <= |b|
    ensures got == a + b[..|b| - |lost|]
    ensures b[..|b| - |lost|] + lost == b
  {
    assert got == (got + lost)[..|got|] == (a + b)[..|got|];
    assert lost == (got + lost)[|got|..] == (a + b)[|got|..];
  }

  /** The first frame of a line, and what is behind its closing flag, but for the `lost` bits. */
  lemma LineParts(got: Bits, lost: Bits, k: nat, frames: seq<Bits>) returns (tail: Bits)
    requires |lost| < 8 && frames != [] && got + lost == Flags(k) + LineBits(frames)
    ensures got == Flags(k) + (Stuff(frames[0], 0) + FLAG + tail)
    ensures tail + lost == Flags(1) + LineBits(frames[1..])
  {
    hide Stuff;
    var s, after := Stuff(frames[0], 0), FLAG + LineBits(frames[1..]);
    assert Flags(k) + LineBits(frames) == (Flags(k) + (s + FLAG)) + after;
    CutLast(got, lost, Flags(k) + (s + FLAG), after);
    tail := after[..|after| - |lost|];
    assert (Flags(k) + (s + FLAG)) + tail == Flags(k) + (s + FLAG + tail);
    assert Flags(1) == FLAG;
  }

  /**
   The frames on a line come out as they went in, in order, none missing and none added. The
   `lost` bits are those of the last byte, which is never sent because it is not full.
  */
  lemma {:induction false} DecodeLine(rx: Rx, bytes: seq<Byte>, k: nat, frames: seq<Bits>, lost: Bits)
    requires Idle(rx) && |lost| < 8
    requires forall i :: 0 <= i < |frames| ==> frames[i] != []
    requires rx.pend + ToBits(bytes) + lost == Flags(k) + LineBits(frames)
    ensures Decode(rx, bytes) == frames
    decreases |frames|
  {
    hide Stuff, Decode, ToBits, Flags;
    if frames == [] {
      assert Flags(k) + LineBits(frames) == Flags(k);
      DecodeFlags(rx, bytes, k, lost);
    } else {
      var tail := LineParts(rx.pend + ToBits(bytes), lost, k, frames);
      hide LineBits;
      var rx', rest := DecodeFrame(rx, bytes, k, frames[0], tail);
      DecodeLine(rx', rest, 1, frames[1..], lost);
    }
  }

  /** The same from the start, when the first flag is still to be found behind noise that shows none. */
  lemma {:induction false} DecodeFromSync(rx: Rx, bytes: seq<Byte>, noise: Bits, k: nat, frames: seq<Bits>, lost: Bits)
    requires rx.st == StSync && |rx.pend| < 8 && rx.ones == 0 && rx.data == [] && |lost| < 8
    requires Clean(noise)
    requires forall i :: 0 <= i < |frames| ==> frames[i] != []
    requires rx.pend + ToBits(bytes) + lost == noise + FLAG + (Flags(k) + LineBits(frames))
    ensures Decode(rx, bytes) == frames
    decreases |bytes|
  {
    hide ByteBits, Clean, Flags, LineBits, Sync;
    var tail := Flags(k) + LineBits(frames);
    if bytes == [] {
      DecodeNothing(rx, noise, tail, lost, k, frames);
    } else {
      var bits, more := rx.pend + ByteBits(bytes[0]), ToBits(bytes[1..]) + lost;
      assert bits + more == rx.pend + ToBits(bytes) + lost;
      var left := SyncLine(bits, more, noise, tail);
      Regroup(Sync(bits).rest, ToBits(bytes[1..]), lost);
      SyncRest(bits);
      var next := RxByte(rx, bytes[0]);
      if next.st == StSkipFlags {
        DecodeLine(next, bytes[1..], k, frames, lost);
      } else {
        DecodeFromSync(next, bytes[1..], left, k, frames, lost);
      }
    }
  }

  lemma Regroup(a: Bits, b: Bits, c: Bits)
    ensures a + b + c == a + (b + c)
  {
  }

  lemma {:induction false} SyncRest(bits: Bits)
    requires |bits| < 16
    ensures |Sync(bits).rest| < 8
    decreases |bits|
  {
    if |bits| >= 8 && bits[..8] != FLAG { SyncRest(bits[1..]); }
  }

  lemma DecodeNothing(rx: Rx, noise: Bits, tail: Bits, lost: Bits, k: nat, frames: seq<Bits>)
    requires |rx.pend| < 8 && |lost| < 8
    requires rx.pend + lost == noise + FLAG + tail && tail == Flags(k) + LineBits(frames)
    ensures frames == []
  {
  }
}
