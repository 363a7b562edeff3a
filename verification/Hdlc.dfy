/**
 The `HDLC` codec object: bytes of frames to bytes of line, and back. Both directions keep
 a partly filled byte between calls and between frames.
*/
module Hdlc {
  import opened BitSeq
  import opened HdlcWord
  import opened HdlcChunk
  import opened HdlcFraming
  import opened DataStreams
  import opened EngineTypes
  import Fcs
  import FcsDetection
  import HdlcCheck

  const FLAG_BYTE: Byte := Byte(0x7E)

  class HDLC {
    var inDataType: DataType
    var outDataType: DataType
    var inData: DataStream?<Byte>
    const outData: DataStream<Byte>
    const fcs: Fcs.FCS
    var lastChar: int
    var rawCount: nat
    var rawByte: Byte
    var rawByteLen: nat
    var rawOnes: nat
    var hdlcChunk: bv32
    var hdlcChunkLen: nat
    var hdlcState: RxState
    /** The bytes of the frame being received that have been handed out. */
    ghost var frame: seq<Byte>

    ghost predicate Valid()
      reads this`inData, this`rawByteLen, outData, outData.Repr, fcs, inData, if inData == null then {} else inData.Repr
      ensures Valid() ==> rawByteLen < 8 && this !in outData.Repr
      ensures Valid() && inData != null ==> this !in inData.Repr && inData.Repr !! outData.Repr && fcs !in inData.Repr
      ensures Valid() && inData != null ==> inData in inData.Repr && inData !in outData.Repr
    {
      && this !in outData.Repr && fcs !in outData.Repr && outData in outData.Repr
      && outData.Valid()
      && Fcs.InRange(fcs.fcs)
      && rawByteLen < 8
      && (inData != null ==> InValid())
    }

    ghost predicate InValid()
      requires inData != null
      reads this`inData, outData, inData, inData.Repr
    {
      && inData in inData.Repr
      && inData.Repr !! outData.Repr && this !in inData.Repr && fcs !in inData.Repr
      && inData.Valid()
    }

    constructor ()
      ensures Valid() && fresh(outData) && fresh(outData.Repr) && fresh(fcs)
      ensures inDataType == outDataType == DtNone && inData == null && lastChar == -1 && rawCount == 0
      ensures rawByteLen == 0 && rawOnes == 0
    {
      inDataType, outDataType, inData, lastChar, rawCount := DtNone, DtNone, null, -1, 0;
      rawByteLen, rawOnes := 0, 0;
      rawByte, hdlcChunk, hdlcChunkLen := *, *, *;
      hdlcState, frame := StEof, [];
      outData := new DataStream<Byte>(0);
      fcs := new Fcs.FCS();
    }

    // ------------------------------------------------------------------ sending

    /** What is on its way to the line: whole bytes, and the bits of the byte being filled. */
    ghost function Line(hi: Byte): Bits
      reads this`rawByteLen, outData`Contents
      requires rawByteLen <= 8
    {
      ToBits(outData.Contents) + LowBits(hi, rawByteLen)
    }

    /** `if (++rawByteLen == 8)` and what follows: the upper byte of the word gained a bit. */
    method Emit(hi: Byte, ghost before: Byte, ghost x: bool)
      requires Valid() && !outData.eof
      requires ByteBits(hi) == ByteBits(before)[1..] + [x]
      modifies this`rawByte, this`rawByteLen, outData.Repr
      ensures Valid() && !outData.eof && fresh(outData.Repr - old(outData.Repr))
      ensures outData.diag == old(outData.diag)
      ensures Line(hi) == old(Line(before)) + [x]
    {
      hide ByteBits, DataStream.Valid, Fcs.InRange;
      rawByteLen := rawByteLen + 1;
      assert LowBits(hi, rawByteLen) == old(LowBits(before, rawByteLen)) + [x];
      if rawByteLen == 8 {
        rawByte := hi;
        ToBitsAppend(outData.Contents, [hi]);
        ToBitsOne(hi);
        var _ := outData.PutData([rawByte]);
        rawByteLen := 0;
      }
    }

    /** One data bit, the top of the lower byte of the word, goes to the line. */
    method PackBit(w0: bv16, flag: bool, ghost x: bool) returns (w: bv16)
      requires Valid() && !outData.eof && rawOnes < 5
      requires x == ByteBits(Lo(w0))[0]
      modifies this`rawByte, this`rawByteLen, this`rawOnes, outData.Repr
      ensures Valid() && !outData.eof && rawOnes < 5 && fresh(outData.Repr - old(outData.Repr))
      ensures outData.diag == old(outData.diag)
      ensures ByteBits(Lo(w)) == ByteBits(Lo(w0))[1..] + [false]
      ensures Line(Hi(w)) == old(Line(Hi(w0))) + if flag then [x] else StuffBit(x, old(rawOnes))
      ensures rawOnes == if flag then old(rawOnes) else NextOnes(x, old(rawOnes))
    {
      hide ToBits, ByteBits, DataStream.Valid, Fcs.InRange, Hi, Lo, Shl1, PutZero, Newest, Oldest;
      ShiftBits(w0);
      w := Shl1(w0);
      Emit(Hi(w), Hi(w0), x);
      if !flag {
        NewestBit(w);
        if Newest(w) {
          rawOnes := rawOnes + 1;
          if rawOnes == 5 {
            ghost var before := Hi(w);
            StuffBits(w);
            w := PutZero(w);
            Emit(Hi(w), before, false);
            rawOnes := 0;
          }
        } else {
          rawOnes := 0;
        }
      }
    }

    /** What data bits become on the line: themselves for a flag, stuffed otherwise. */
    ghost function Sent(bits: Bits, flag: bool, ones: nat): Bits {
      if flag then bits else Stuff(bits, ones)
    }

    ghost function Counted(bits: Bits, flag: bool, ones: nat): nat {
      if flag then ones else OnesAfter(bits, ones)
    }

    lemma SentStep(line: Bits, bits: Bits, flag: bool, ones: nat)
      requires bits != []
      ensures line + Sent(bits, flag, ones)
           == line + (if flag then [bits[0]] else StuffBit(bits[0], ones))
              + Sent(bits[1..], flag, if flag then ones else NextOnes(bits[0], ones))
      ensures Counted(bits, flag, ones) == Counted(bits[1..], flag, if flag then ones else NextOnes(bits[0], ones))
    {
    }

    /** The inner loop of `pack`: the eight bits of the byte `b` just loaded, `more` being still to come. */
    method PackByte(w0: bv16, flag: bool, ghost more: Bits) returns (w: bv16)
      requires Valid() && !outData.eof && rawOnes < 5
      modifies this`rawByte, this`rawByteLen, this`rawOnes, outData.Repr
      ensures Valid() && !outData.eof && rawOnes < 5 && fresh(outData.Repr - old(outData.Repr))
      ensures outData.diag == old(outData.diag)
      ensures Lo(w) == Byte(0)
      ensures Line(Hi(w)) + Sent(more, flag, rawOnes)
           == old(Line(Hi(w0))) + Sent(ByteBits(Lo(w0)) + more, flag, old(rawOnes))
      ensures Counted(more, flag, rawOnes) == Counted(ByteBits(Lo(w0)) + more, flag, old(rawOnes))
    {
      hide ToBits, ByteBits, DataStream.Valid, Fcs.InRange, Hi, Lo, Sent, Counted, StuffBit, NextOnes, Line;
      w := w0;
      ghost var b := ByteBits(Lo(w0));
      ghost var bits := b + more;
      assert bits[0..] == bits && b + Zeros(0) == b;
      for j := 0 to 8
        invariant Valid() && !outData.eof && rawOnes < 5 && fresh(outData.Repr - old(outData.Repr))
        invariant outData.diag == old(outData.diag)
        invariant ByteBits(Lo(w)) == b[j..] + Zeros(j)
        invariant Line(Hi(w)) + Sent(bits[j..], flag, rawOnes) == old(Line(Hi(w0))) + Sent(bits, flag, old(rawOnes))
        invariant Counted(bits[j..], flag, rawOnes) == Counted(bits, flag, old(rawOnes))
      {
        SentStep(Line(Hi(w)), bits[j..], flag, rawOnes);
        assert bits[j..][1..] == bits[j + 1..];
        assert (b[j..] + Zeros(j))[1..] + [false] == b[j + 1..] + Zeros(j + 1);
        w := PackBit(w, flag, bits[j]);
      }
      assert bits[8..] == more;
      ZeroByte(Lo(w));
    }

    lemma SentNone(line: Bits, flag: bool, ones: nat)
      ensures line + Sent([], flag, ones) == line
      ensures Counted([], flag, ones) == ones
    {
    }

    method Pack(buf: seq<Byte>, flag: bool)
      requires Valid() && !outData.eof && rawOnes < 5
      modifies this`rawByte, this`rawByteLen, this`rawOnes, outData.Repr
      ensures Valid() && !outData.eof && rawOnes < 5 && fresh(outData.Repr - old(outData.Repr))
      ensures outData.diag == old(outData.diag)
      ensures Line(rawByte) == old(Line(rawByte)) + Sent(ToBits(buf), flag, old(rawOnes))
      ensures rawOnes == if flag then 0 else Counted(ToBits(buf), flag, old(rawOnes))
    {
      hide ByteBits, DataStream.Valid, Fcs.InRange, Hi, Lo, Up, Join, Line, Sent, Counted;
      UpParts(rawByte);
      var w: bv16 := Up(rawByte);
      for i := 0 to |buf|
        invariant Valid() && !outData.eof && rawOnes < 5 && fresh(outData.Repr - old(outData.Repr))
        invariant outData.diag == old(outData.diag)
        invariant Lo(w) == Byte(0)
        invariant Line(Hi(w)) + Sent(ToBits(buf[i..]), flag, rawOnes)
               == old(Line(rawByte)) + Sent(ToBits(buf), flag, old(rawOnes))
        invariant Counted(ToBits(buf[i..]), flag, rawOnes) == Counted(ToBits(buf), flag, old(rawOnes))
      {
        JoinParts(w, buf[i]);
        w := Join(w, buf[i]);
        assert buf[i..][0] == buf[i] && buf[i..][1..] == buf[i + 1..];
        w := PackByte(w, flag, ToBits(buf[i + 1..]));
      }
      assert buf[|buf|..] == [];
      SentNone(Line(Hi(w)), flag, rawOnes);
      rawByte := Hi(w);
      if flag {
        rawOnes := 0;
      }
    }

    /** The line bits of a frame, or of what is known of it, from the state the sender is in. */
    ghost function FrameRest(data: seq<Byte>, complete: bool, bad: bool, f: bv32, ones: nat): Bits {
      var d := ToBits(data);
      if complete then Stuff(d + ToBits(Fcs.Closing(Fcs.Run(f, d), bad)), ones) + (FLAG + FLAG)
      else Stuff(d, ones)
    }

    lemma FrameRestSplit(a: seq<Byte>, b: seq<Byte>, complete: bool, bad: bool, f: bv32, ones: nat)
      ensures FrameRest(a + b, complete, bad, f, ones)
           == Stuff(ToBits(a), ones) + FrameRest(b, complete, bad, Fcs.Run(f, ToBits(a)), OnesAfter(ToBits(a), ones))
    {
      hide Fcs.Closing;
      var x, y := ToBits(a), ToBits(b);
      ToBitsAppend(a, b);
      FcsDetection.RunAppend(f, x, y);
      var t := ToBits(Fcs.Closing(Fcs.Run(f, x + y), bad));
      assert (x + y) + t == x + (y + t);
      StuffAppend(x, y, ones);
      StuffAppend(x, y + t, ones);
    }

    /** Everything the frames put in so far will still put on the line. */
    ghost function LineAhead(): Bits
      reads this`rawByte, this`rawByteLen, this`rawOnes, this`inData, outData`Contents, fcs
      reads inData
      requires rawByteLen <= 8
    {
      Line(rawByte) +
      if inData == null then [] else FrameRest(inData.Contents, inData.eof, IsError(inData.diag), fcs.fcs, rawOnes)
    }

    lemma TwoFlags()
      ensures ToBits([FLAG_BYTE, FLAG_BYTE]) == FLAG + FLAG
    {
      FlagByteBits();
      assert [FLAG_BYTE, FLAG_BYTE] == [FLAG_BYTE] + [FLAG_BYTE];
      ToBitsAppend([FLAG_BYTE], [FLAG_BYTE]);
      ToBitsOne(FLAG_BYTE);
    }

    lemma FlagByteBits()
      ensures ByteBits(FLAG_BYTE) == FLAG
    {
    }

    /** The end of a frame: check sequence, two flags, end of data. */
    method Close(bad: bool)
      requires Valid() && !outData.eof && rawOnes < 5
      modifies this`rawByte, this`rawByteLen, this`rawOnes, outData.Repr
      ensures Valid() && outData.eof && rawOnes == 0 && fresh(outData.Repr - old(outData.Repr))
      ensures Line(rawByte) == old(Line(rawByte) + FrameRest([], true, bad, fcs.fcs, rawOnes))
    {
      hide ToBits, ByteBits, DataStream.Valid, Fcs.InRange, Fcs.Closing, Line, OnesAfter, Stuff;
      ghost var ones := rawOnes;
      var buf := Fcs.Closing(fcs.fcs, bad);
      Pack(buf, false);
      ghost var mid := Line(rawByte);
      TwoFlags();
      Pack([FLAG_BYTE, FLAG_BYTE], true);
      assert Line(rawByte) == mid + (FLAG + FLAG);
      outData.PutEof();
      assert [] + ToBits(buf) == ToBits(buf);
    }

    /** Some bytes of a frame: into the check sequence, and onto the line. */
    method Encode(buf: seq<Byte>)
      requires Valid() && !outData.eof && rawOnes < 5
      modifies this`rawByte, this`rawByteLen, this`rawOnes, outData.Repr, fcs
      ensures Valid() && !outData.eof && rawOnes < 5 && fresh(outData.Repr - old(outData.Repr))
      ensures Line(rawByte) == old(Line(rawByte)) + Stuff(ToBits(buf), old(rawOnes))
      ensures rawOnes == OnesAfter(ToBits(buf), old(rawOnes))
      ensures fcs.fcs == Fcs.Run(old(fcs.fcs), ToBits(buf))
    {
      hide ToBits, ByteBits, DataStream.Valid, Fcs.InRange, Line, OnesAfter, Stuff;
      fcs.Build(buf);
      Pack(buf, false);
    }

    /** One turn of `GetRawData` on its input: some of the frame, or its end, is made into line bits. */
    method Feed() returns (starved: bool)
      requires Valid() && inData != null && !outData.eof && rawOnes < 5
      modifies this, inData.Repr, outData.Repr, fcs
      ensures Valid() && rawOnes < 5
      ensures fresh(outData.Repr - old(outData.Repr))
      ensures rawCount == old(rawCount) && inDataType == old(inDataType) && outDataType == old(outDataType)
      ensures LineAhead() == old(LineAhead())
      ensures inData == null ==> outData.eof && !starved && rawOnes == 0
      ensures inData != null ==> inData == old(inData) && inData.Repr == old(inData.Repr)
      ensures inData != null ==> !outData.eof && inData.eof == old(inData.eof) && inData.diag == old(inData.diag)
      ensures inData != null && !starved ==> |inData.Contents| < old(|inData.Contents|)
      ensures starved ==> inData.Contents == [] && !inData.eof && outData.Contents == old(outData.Contents)
    {
      hide ToBits, ByteBits, DataStream.Valid, Fcs.InRange, Line, OnesAfter, Stuff, FrameRest;
      ghost var all, f, ones := inData.Contents, fcs.fcs, rawOnes;
      ghost var complete, bad := inData.eof, IsError(inData.diag);
      ghost var line := Line(rawByte);
      var inLen, buf := inData.GetData(256);
      starved := false;
      if inLen < 0 {
        Close(IsError(inData.diag));
        inData := null;
      } else if inLen > 0 {
        lastChar := buf[inLen - 1].v as int;
        ghost var rest := inData.Contents;
        Encode(buf);
        FrameRestSplit(buf, rest, complete, bad, f, ones);
        var a, b, c := line, Stuff(ToBits(buf), ones), FrameRest(rest, complete, bad, fcs.fcs, rawOnes);
        assert (a + b) + c == a + (b + c);
      } else {
        starved := true;
      }
    }

    /** Bytes straight from the input, counted; -1 for ever once it has ended. */
    method GetInData(count: nat) returns (res: int, buf: seq<Byte>)
      requires Valid()
      modifies this`inData, this`lastChar, this`rawCount, if inData == null then {} else inData.Repr
      ensures Valid()
      ensures rawCount == old(rawCount) + |buf|
      ensures old(inData) == null ==> res == -1 && buf == [] && inData == null
      ensures old(inData) != null && old(inData.Contents) == [] && old(inData.eof) ==> res == -1 && buf == [] && inData == null
      ensures old(inData) != null && !(old(inData.Contents) == [] && old(inData.eof)) ==>
        && inData == old(inData) && inData.Repr == old(inData.Repr) && inData.eof == old(inData.eof)
        && old(inData.Contents) == buf + inData.Contents
        && res == |buf| == if count < old(|inData.Contents|) then count else old(|inData.Contents|)
      ensures old(inData) != null ==> old(inData).Valid() && old(inData).diag == old(inData.diag)
      ensures lastChar == if buf == [] then old(lastChar) else buf[|buf| - 1].v as int
    {
      hide DataStream.Valid, Fcs.InRange;
      if inData == null {
        return -1, [];
      }
      res, buf := inData.GetData(count);
      if res > 0 {
        rawCount := rawCount + res;
        lastChar := buf[res - 1].v as int;
      } else if res < 0 {
        inData := null;
        return -1, [];
      }
    }

    /** Whole bytes ready for the line. */
    method GetLine(count: nat) returns (res: int, buf: seq<Byte>)
      requires Valid()
      modifies outData.Repr
      ensures Valid() && outData.Repr == old(outData.Repr) && outData.eof == old(outData.eof)
      ensures ToBits(buf) + LineAhead() == old(LineAhead())
      ensures res == if old(outData.Contents) == [] && outData.eof then -1 else |buf|
      ensures old(outData.Contents) == buf + outData.Contents
      ensures |buf| == if count < old(|outData.Contents|) then count else old(|outData.Contents|)
    {
      hide DataStream.Valid, Fcs.InRange, ByteBits, FrameRest, LowBits;
      res, buf := outData.GetData(count);
      ToBitsAppend(buf, outData.Contents);
      var a, b, c := ToBits(buf), ToBits(outData.Contents), LowBits(rawByte, rawByteLen);
      assert (a + b) + c == a + (b + c);
    }

    /** One turn of the loop of `GetRawData`. */
    method Turn(count: nat) returns (stop: bool, part: seq<Byte>)
      requires Valid() && rawOnes < 5
      requires (inData == null <==> outData.eof) && (inData == null ==> rawOnes == 0)
      modifies this, if inData == null then {} else inData.Repr, outData.Repr, fcs
      ensures Valid() && rawOnes < 5 && fresh(outData.Repr - old(outData.Repr))
      ensures (inData == null <==> outData.eof) && (inData == null ==> rawOnes == 0)
      ensures ToBits(part) + LineAhead() == old(LineAhead())
      ensures inData != null ==> inData == old(inData) && inData.Repr == old(inData.Repr)
      ensures inData != null ==> inData.eof == old(inData.eof) && inData.diag == old(inData.diag)
      ensures |part| <= count && rawCount == old(rawCount)
      ensures !stop && |part| < count ==> outData.Contents == []
      ensures stop ==> part == []
      ensures stop && inData != null ==> outData.Contents == old(outData.Contents)
      ensures stop ==> if inData == null then outData.Contents == [] else inData.Contents == [] && !inData.eof
      ensures !stop && inData == null && old(inData) == null ==> part != [] || count == 0
      ensures !stop && inData != null ==> |inData.Contents| < old(|inData.Contents|)
    {
      hide ToBits, DataStream.Valid, Fcs.InRange, ByteBits, LineAhead;
      stop, part := false, [];
      if inData != null {
        var starved := Feed();
        if starved {
          return true, [];
        }
      }
      var outLen;
      outLen, part := GetLine(count);
      stop := outLen < 0;
    }

    /** The loop of `GetRawData`; at least one turn is made. */
    method Fill(start: seq<Byte>, count: nat) returns (ended: bool, buf: seq<Byte>)
      requires Valid() && rawOnes < 5
      requires (inData == null <==> outData.eof) && (inData == null ==> rawOnes == 0)
      requires |start| <= count && (|start| < count ==> outData.Contents == [])
      modifies this, if inData == null then {} else inData.Repr, outData.Repr, fcs
      ensures Valid() && rawOnes < 5 && fresh(outData.Repr - old(outData.Repr))
      ensures (inData == null <==> outData.eof) && (inData == null ==> rawOnes == 0)
      ensures ToBits(buf) + LineAhead() == ToBits(start) + old(LineAhead())
      ensures inData != null ==> inData == old(inData) && inData.Repr == old(inData.Repr)
      ensures inData != null ==> inData.eof == old(inData.eof) && inData.diag == old(inData.diag)
      ensures |buf| <= count && rawCount == old(rawCount)
      ensures ended ==> inData == null && outData.Contents == []
      ensures |buf| < count ==> outData.Contents == [] && (ended || (inData != null && inData.Contents == [] && !inData.eof))
    {
      hide Valid, ByteBits, ToBits, LineAhead;
      buf := start;
      var first, stop := true, false;
      ended := false;
      while first || (|buf| < count && !stop)
        invariant |buf| <= count
        invariant Valid() && rawOnes < 5 && fresh(outData.Repr - old(outData.Repr))
        invariant (inData == null <==> outData.eof) && (inData == null ==> rawOnes == 0)
        invariant inData != null ==> inData == old(inData) && inData.Repr == old(inData.Repr)
        invariant inData != null ==> inData.eof == old(inData.eof) && inData.diag == old(inData.diag)
        invariant |buf| < count ==> outData.Contents == []
        invariant stop ==> if inData == null then outData.Contents == [] else inData.Contents == [] && !inData.eof
        invariant ToBits(buf) + LineAhead() == ToBits(start) + old(LineAhead())
        invariant rawCount == old(rawCount)
        decreases if inData == null then 0 else 1 + |inData.Contents|, count - |buf|, first, !stop
      {
        first := false;
        var part;
        stop, part := Turn(count - |buf|);
        ToBitsAppend(buf, part);
        Regroup(ToBits(buf), ToBits(part), LineAhead());
        buf := buf + part;
      }
      ended := stop && inData == null;
    }

    /**
     `GetRawData` from frames: the next bytes of the line. However many bytes are asked for
     at a time, what is handed out and what is still ahead are together what was ahead.
    */
    method GetRawFromHdlc(count: nat) returns (res: int, buf: seq<Byte>)
      requires Valid() && rawOnes < 5
      requires (inData == null <==> outData.eof) && (inData == null ==> rawOnes == 0)
      modifies this, if inData == null then {} else inData.Repr, outData.Repr, fcs
      ensures Valid() && rawOnes < 5 && fresh(outData.Repr - old(outData.Repr))
      ensures (inData == null <==> outData.eof) && (inData == null ==> rawOnes == 0)
      ensures ToBits(buf) + LineAhead() == old(LineAhead())
      ensures inData != null ==> inData == old(inData) && inData.Repr == old(inData.Repr)
      ensures inData != null ==> inData.eof == old(inData.eof) && inData.diag == old(inData.diag)
      ensures res == -1 ==> buf == [] && inData == null && outData.Contents == []
      ensures res != -1 ==> res == |buf| <= count
      ensures 0 <= res < count ==> outData.Contents == [] && (inData == null || (inData.Contents == [] && !inData.eof))
      ensures rawCount == old(rawCount) + |buf|
      ensures res == 0 && count > 0 ==> old(inData) != null
    {
      hide ToBits, Valid, ByteBits, LineAhead;
      var outLen, start := GetLine(count);
      if outLen < 0 {
        return -1, [];
      }
      var ended;
      ended, buf := Fill(start, count);
      if ended && buf == [] {
        return -1, [];
      }
      rawCount := rawCount + |buf|;
      return |buf|, buf;
    }

    // ---------------------------------------------------------------- receiving

    /** The bits of the line not dealt with yet. */
    ghost function Pending(): Bits
      reads this`rawByte, this`rawByteLen
    {
      if rawByteLen <= 8 then LowBits(rawByte, rawByteLen) else []
    }

    lemma IsFlag(b: Byte)
      ensures b == FLAG_BYTE <==> ByteBits(b) == FLAG
    {
      FlagByteBits();
      if ByteBits(b) == FLAG {
        ByteBitsInjective(b, FLAG_BYTE);
      }
    }

    method SyncByte(b: Byte) returns (found: bool)
      requires rawByteLen < 8
      modifies this`rawByte, this`rawByteLen
      ensures rawByteLen < 8
      ensures var u := Sync(old(Pending()) + ByteBits(b)); found == u.found && Pending() == u.rest
    {
      hide ByteBits, Hi, Lo, Up, Join, Shl, Shl1, Shr, WordBits, LowBits;
      LoadPending(rawByte, rawByteLen, b);
      var w := Join(Up(rawByte), b);
      var j := 8 - rawByteLen;
      w := Shl(w, j);
      ghost var bits := Pending() + ByteBits(b);
      ghost var goal := Sync(bits);
      while j <= 8
        invariant 1 <= j <= 9 && |bits| == 16 - j
        invariant WordBits(w) == bits + Zeros(j)
        invariant Sync(bits) == goal
      {
        WindowBits(w, bits, j);
        IsFlag(Hi(w));
        if Hi(w) == FLAG_BYTE {
          BackBits(w, bits, j, 8 - j);
          rawByte := Lo(Shr(w, j));
          rawByteLen := 8 - j;
          return true;
        }
        j, w := j + 1, Shl1(w);
        bits := bits[1..];
      }
      BackBits(w, bits, j, 7);
      rawByte := Lo(Shr(w, j));
      rawByteLen := 7;
      return false;
    }

    method SkipFlag(b: Byte) returns (skipped: bool)
      requires rawByteLen < 8
      modifies this`rawByte
      ensures var bits := old(Pending()) + ByteBits(b);
        skipped == (bits[..8] == FLAG) && Pending() == if skipped then bits[8..] else old(Pending())
    {
      hide ByteBits, Hi, Lo, Up, Join, Shl, Shl1, Shr, WordBits, LowBits;
      LoadPending(rawByte, rawByteLen, b);
      var w := Join(Up(rawByte), b);
      var j := 8 - rawByteLen;
      w := Shl(w, j);
      ghost var bits := Pending() + ByteBits(b);
      WindowBits(w, bits, j);
      IsFlag(Hi(w));
      if Hi(w) == FLAG_BYTE {
        BackBits(w, bits, j, 8 - j);
        rawByte := Lo(Shr(w, j));
        return true;
      }
      return false;
    }

    /** The bytes of the frame being received, handed out or not, and the bits held back. */
    ghost function Data(): Bits
      reads this`frame, this`hdlcChunk, this`hdlcChunkLen, outData`Contents
    {
      ToBits(frame + outData.Contents) + if hdlcChunkLen <= 24 then ChunkBits(hdlcChunk, hdlcChunkLen) else []
    }

    /** A byte leaves the chunk only when 16 bits stay behind. */
    ghost predicate ChunkOk()
      reads this`frame, this`hdlcChunkLen, outData`Contents
    {
      hdlcChunkLen < 24 && (frame + outData.Contents != [] ==> hdlcChunkLen >= 16)
    }

    /** A full chunk gives up its oldest byte. */
    method Release()
      requires Valid() && !outData.eof && hdlcChunkLen <= 24
      requires frame + outData.Contents != [] ==> hdlcChunkLen >= 16
      modifies this`hdlcChunkLen, outData.Repr
      ensures Valid() && ChunkOk() && !outData.eof && fresh(outData.Repr - old(outData.Repr))
      ensures Data() == old(Data())
    {
      hide ByteBits, DataStream.Valid, Fcs.InRange, ChunkBits, Byte2;
      if hdlcChunkLen == 24 {
        FullChunk(hdlcChunk);
        ghost var got := frame + outData.Contents;
        var b := Byte2(hdlcChunk);
        var _ := outData.PutData([b]);
        assert frame + outData.Contents == got + [b];
        ToBitsAppend(got, [b]);
        ToBitsOne(b);
        hdlcChunkLen := 16;
        var x, y, z := ToBits(got), ByteBits(b), ChunkBits(hdlcChunk, 16);
        assert x + (y + z) == (x + y) + z;
      }
    }

    /** One bit of a frame, as `unpack` takes it in. */
    method TakeBit(x: bool)
      requires Valid() && ChunkOk() && !outData.eof
      modifies this`hdlcChunk, this`hdlcChunkLen, this`rawOnes, outData.Repr
      ensures Valid() && ChunkOk() && !outData.eof && fresh(outData.Repr - old(outData.Repr))
      ensures Data() == if x then old(Data()) + [true] else if old(rawOnes) == 5 then old(Data()) else old(Data()) + [false]
      ensures rawOnes == if x then old(rawOnes) + 1 else 0
    {
      hide ToBits, Valid, ChunkBits, Push;
      PushBits(hdlcChunk, x, hdlcChunkLen);
      var a, b := ToBits(frame + outData.Contents), ChunkBits(hdlcChunk, hdlcChunkLen);
      assert (a + b) + [x] == a + (b + [x]);
      if x {
        hdlcChunk := Push(hdlcChunk, true);
        hdlcChunkLen := hdlcChunkLen + 1;
        rawOnes := rawOnes + 1;
      } else {
        if rawOnes != 5 {
          hdlcChunk := Push(hdlcChunk, false);
          hdlcChunkLen := hdlcChunkLen + 1;
        }
        rawOnes := 0;
      }
      Release();
    }

    /** The last `n` bits of the word are kept for the next byte. */
    method KeepRest(w: bv16, ghost bits: Bits, j: nat, n: nat)
      requires Valid() && ChunkOk() && !outData.eof
      requires j <= 16 && |bits| == 16 - j && WordBits(w) == bits + Zeros(j) && n < 8 && n <= |bits|
      modifies this`rawByte, this`rawByteLen
      ensures Valid() && ChunkOk() && !outData.eof && Pending() == bits[|bits| - n..] && Data() == old(Data())
    {
      hide ToBits, ByteBits, Hi, Lo, Shr, WordBits, LowBits, DataStream.Valid, Fcs.InRange, ChunkBits;
      BackBits(w, bits, j, n);
      rawByte := Lo(Shr(w, j));
      rawByteLen := n;
    }

    /** `unpack`: one byte of the line; false when the closing flag was found in it. */
    method UnpackByte(b: Byte) returns (more: bool)
      requires Valid() && ChunkOk() && !outData.eof
      modifies this`rawByte, this`rawByteLen, this`rawOnes, this`hdlcChunk, this`hdlcChunkLen, outData.Repr
      ensures Valid() && ChunkOk() && !outData.eof && fresh(outData.Repr - old(outData.Repr))
      ensures var u := Unpack(old(Pending()) + ByteBits(b), old(rawOnes), old(Data()));
        more == !u.found && Pending() == u.rest && rawOnes == u.ones && Data() == u.data
    {
      hide ToBits, ByteBits, Hi, Lo, Up, Join, Shl, Shl1, WordBits, LowBits, Oldest, Valid, ChunkOk, Data;
      LoadPending(rawByte, rawByteLen, b);
      var w := Join(Up(rawByte), b);
      var j := 8 - rawByteLen;
      w := Shl(w, j);
      ghost var bits := Pending() + ByteBits(b);
      ghost var goal := Unpack(bits, rawOnes, Data());
      while j <= 8
        invariant 1 <= j <= 9 && |bits| == 16 - j
        invariant Valid() && ChunkOk() && !outData.eof && fresh(outData.Repr - old(outData.Repr))
        invariant WordBits(w) == bits + Zeros(j)
        invariant Unpack(bits, rawOnes, Data()) == goal
      {
        WindowBits(w, bits, j);
        IsFlag(Hi(w));
        if Hi(w) == FLAG_BYTE {
          KeepRest(w, bits, j, 8 - j);
          return false;
        }
        NewestBit(w);
        assert bits[0] == bits[..8][0];
        TakeBit(Oldest(w));
        j, w := j + 1, Shl1(w);
        bits := bits[1..];
      }
      KeepRest(w, bits, j, 7);
      return true;
    }

    /** The receiver as the bit stream sees it. */
    ghost function View(): Rx
      reads this`hdlcState, this`rawByte, this`rawByteLen, this`rawOnes
      reads this`frame, this`hdlcChunk, this`hdlcChunkLen, outData`Contents
      ensures View().st == hdlcState
    {
      Rx(hdlcState, Pending(), rawOnes, Data())
    }

    /** The receiver between two calls. */
    ghost predicate Receiving()
      reads this`inData, this`rawByteLen, this`hdlcChunkLen, this`hdlcState, this`frame
      reads outData, outData.Repr, fcs, inData, if inData == null then {} else inData.Repr
      ensures Receiving() ==> Valid()
      ensures Receiving() && (hdlcState == StSync || hdlcState == StSkipFlags) ==> outData.Contents == []
    {
      && Valid() && ChunkOk()
      && fcs.fcs == Fcs.Run(Fcs.INIT, ToBits(frame))
      && (outData.eof <==> hdlcState == StEof)
      && (hdlcState == StSync || hdlcState == StSkipFlags ==> frame == [] && outData.Contents == [])
    }

    /** The byte `b` of the line, according to the state. */
    method RxOne(b: Byte)
      requires Receiving() && hdlcState != StEof
      modifies this`rawByte, this`rawByteLen, this`rawOnes, this`hdlcChunk, this`hdlcChunkLen, this`hdlcState, outData.Repr
      ensures Receiving() && fresh(outData.Repr - old(outData.Repr))
      ensures View() == RxByte(old(View()), b)
    {
      hide ToBits, ByteBits, Unpack, Sync, DataStream.Valid, Fcs.InRange, ChunkOk, Data, LowBits;
      ghost var rx := View();
      ghost var bits := rx.pend + ByteBits(b);
      if hdlcState == StSync {
        var found := SyncByte(b);
        if found {
          hdlcState := StSkipFlags;
        }
        return;
      }
      if hdlcState == StSkipFlags {
        var skipped := SkipFlag(b);
        if skipped {
          assert View() == rx.(pend := bits[8..]);
          return;
        }
        hdlcState := StData;
      }
      assert RxByte(rx, b) == RxData(rx, bits);
      var more := UnpackByte(b);
      if !more {
        outData.PutEof();
        hdlcState := StEof;
      }
    }

    /** Bytes handed out are taken into the check sequence. */
    method Check(buf: seq<Byte>)
      requires Fcs.InRange(fcs.fcs) && fcs.fcs == Fcs.Run(Fcs.INIT, ToBits(frame))
      modifies this`frame, fcs
      ensures Fcs.InRange(fcs.fcs) && fcs.fcs == Fcs.Run(Fcs.INIT, ToBits(frame)) && frame == old(frame) + buf
    {
      hide ByteBits, Fcs.InRange;
      if buf != [] {
        fcs.Build(buf);
        ToBitsAppend(frame, buf);
        FcsDetection.RunAppend(Fcs.INIT, ToBits(frame), ToBits(buf));
      } else {
        assert frame + buf == frame;
      }
      frame := frame + buf;
    }

    /** Hands out bytes of the frame and takes them into the check sequence. */
    method Deliver(count: nat) returns (res: int, buf: seq<Byte>)
      requires Receiving()
      modifies this`frame, outData.Repr, fcs
      ensures Receiving() && outData.Repr == old(outData.Repr) && View() == old(View())
      ensures frame == old(frame) + buf && old(outData.Contents) == buf + outData.Contents
      ensures res == if old(outData.Contents) == [] && hdlcState == StEof then -1 else |buf|
      ensures |buf| == if count < old(|outData.Contents|) then count else old(|outData.Contents|)
    {
      hide ByteBits, ToBits, DataStream.Valid, Fcs.InRange, Fcs.Run, ChunkBits, Pending;
      res, buf := outData.GetData(count);
      assert (frame + buf) + outData.Contents == frame + (buf + outData.Contents);
      Check(buf);
    }

    /** The input has ended, and so has the frame. */
    method EndInput()
      requires Receiving()
      modifies this`inData, this`hdlcState, outData
      ensures Receiving() && outData.Repr == old(outData.Repr)
      ensures inData == null && hdlcState == StEof && View() == old(View()).(st := StEof)
    {
      hide ToBits, ByteBits, DataStream.Valid, Fcs.InRange, ChunkOk, Data, Pending;
      outData.PutEof();
      inData := null;
      hdlcState := StEof;
    }

    /** Takes one byte of the line from the input, if there is one; `some` is false when it is starved. */
    method Pull() returns (some: bool, ghost c: seq<Byte>)
      requires Receiving() && inData != null && hdlcState != StEof
      modifies this, inData.Repr, outData.Repr
      ensures Receiving() && fresh(outData.Repr - old(outData.Repr)) && frame == old(frame)
      ensures inDataType == old(inDataType) && outDataType == old(outDataType)
      ensures inData == null ==> hdlcState == StEof && c == [] && View() == old(View()).(st := StEof)
      ensures inData == null ==> old(inData.Contents) == [] && old(inData.eof)
      ensures inData != null ==> inData == old(inData) && inData.Repr == old(inData.Repr) && inData.eof == old(inData.eof)
      ensures |c| <= 1
      ensures inData != null ==> old(inData.Contents) == c + inData.Contents && View() == RxRun(old(View()), c)
      ensures some && inData != null ==> |c| == 1 && rawCount == old(rawCount) + 1
      ensures !(some && inData != null) ==> rawCount == old(rawCount)
      ensures !some ==> c == [] && inData != null && inData.Contents == [] && !inData.eof
      ensures !some ==> View() == old(View()) && outData.Contents == old(outData.Contents)
    {
      hide ToBits, ByteBits, DataStream.Valid, Fcs.InRange, ChunkOk, RxByte, View;
      var res, bs := inData.GetData(1);
      if res == 0 {
        return false, [];
      }
      some := true;
      if res < 0 {
        EndInput();
        c := [];
      } else {
        lastChar := bs[0].v as int;
        rawCount := rawCount + 1;
        RxOne(bs[0]);
        c := bs;
      }
    }

    /** Asks both queues for nothing, to learn whether one has ended. */
    method Probe() returns (ended: bool)
      requires Receiving() && inData != null && hdlcState == StData
      modifies inData.Repr, outData.Repr
      ensures Receiving() && View() == old(View())
      ensures outData.Repr == old(outData.Repr) && outData.Contents == old(outData.Contents)
      ensures inData.Repr == old(inData.Repr) && inData.Contents == old(inData.Contents) && inData.eof == old(inData.eof)
      ensures ended == (inData.Contents == [] && inData.eof)
    {
      hide ToBits, ByteBits, DataStream.Valid, Fcs.InRange, ChunkOk, Data, Pending;
      var outLen, a := outData.GetData(0);
      assert a + outData.Contents == outData.Contents;
      var inLen, b := inData.GetData(0);
      assert b + inData.Contents == inData.Contents;
      ended := outLen < 0 || inLen < 0;
    }

    /** One turn of the loop of `GetHdlcData`, with room for so many bytes. */
    method RxTurn(room: nat) returns (part: seq<Byte>, stop: bool, ended: bool, ghost b: seq<Byte>)
      requires Receiving() && inData != null && hdlcState != StEof
      modifies this, inData.Repr, outData.Repr, fcs
      ensures Receiving() && (inData == null ==> hdlcState == StEof) && fresh(outData.Repr - old(outData.Repr))
      ensures frame == old(frame) + part && |part| <= room
      ensures inDataType == old(inDataType) && outDataType == old(outDataType)
      ensures inData != null ==> inData == old(inData) && inData.Repr == old(inData.Repr) && inData.eof == old(inData.eof)
      ensures inData != null ==> old(inData.Contents) == b + inData.Contents && View() == RxRun(old(View()), b)
      ensures inData == null ==> b == [] && old(inData.Contents) == [] && old(inData.eof) && View() == old(View()).(st := StEof)
      ensures |b| <= 1 && rawCount == old(rawCount) + |b|
      ensures b == [] || hdlcState == StEof ==> stop
      ensures ended ==> part == [] && hdlcState == StEof && outData.Contents == []
      ensures stop && |part| < room && hdlcState != StEof ==> inData.Contents == [] && !inData.eof
      ensures |part| < room && (b != [] || old(outData.Contents) == []) ==> outData.Contents == []
      ensures hdlcState == StEof && part == [] && room > 0 ==> ended
      ensures inData != null && b == [] ==> part == [] && old(outData.Contents) == outData.Contents
    {
      hide ToBits, ByteBits, Valid, ChunkOk, RxByte, RxRun, View, Receiving;
      RxRunNone(old(View()));
      var some;
      some, b := Pull();
      part, stop, ended := [], !some, false;
      if some && (hdlcState == StEof || hdlcState == StData) {
        var outLen;
        outLen, part := Deliver(room);
        ended := outLen < 0;
        stop := |part| == room || hdlcState == StEof;
      }
    }

    /** The loop of `GetHdlcData`. */
    method RxLoop(count: nat) returns (res: int, buf: seq<Byte>, ghost c: seq<Byte>)
      requires Receiving() && inData != null && hdlcState != StEof
      modifies this, inData.Repr, outData.Repr, fcs
      ensures Receiving() && (inData == null ==> hdlcState == StEof) && fresh(outData.Repr - old(outData.Repr))
      ensures frame == old(frame) + buf
      ensures inDataType == old(inDataType) && outDataType == old(outDataType)
      ensures inData != null ==> inData == old(inData) && inData.Repr == old(inData.Repr) && inData.eof == old(inData.eof)
      ensures inData != null ==> old(inData.Contents) == c + inData.Contents && View() == RxRun(old(View()), c)
      ensures inData == null ==> c == old(inData.Contents) && old(inData.eof)
      ensures inData == null ==> View() == RxRun(old(View()), c).(st := StEof)
      ensures rawCount == old(rawCount) + |c|
      ensures NoFurther(old(View()), c)
      ensures res == -1 ==> buf == [] && outData.Contents == [] && hdlcState == StEof
      ensures res != -1 ==> res == |buf| <= count
      ensures 0 <= res < count && hdlcState != StEof ==> inData.Contents == [] && !inData.eof
      ensures 0 <= res < count && (c != [] || old(outData.Contents) == []) ==> outData.Contents == []
      ensures res == 0 && count > 0 ==> hdlcState != StEof
      ensures inData != null && c == [] ==> old(outData.Contents) == buf + outData.Contents
    {
      hide ToBits, ByteBits, Valid, ChunkOk, RxByte, RxRun, NoFurther, View, Receiving;
      RxRunNone(old(View()));
      buf, c := [], [];
      var stop, ended := false, false;
      while !stop
        invariant Receiving() && (inData == null ==> hdlcState == StEof && stop) && fresh(outData.Repr - old(outData.Repr))
        invariant frame == old(frame) + buf && |buf| <= count
        invariant inDataType == old(inDataType) && outDataType == old(outDataType)
        invariant inData != null ==> inData == old(inData) && inData.Repr == old(inData.Repr) && inData.eof == old(inData.eof)
        invariant inData != null ==> old(inData.Contents) == c + inData.Contents && View() == RxRun(old(View()), c)
        invariant inData == null ==> c == old(inData.Contents) && old(inData.eof)
        invariant inData == null ==> View() == RxRun(old(View()), c).(st := StEof)
        invariant rawCount == old(rawCount) + |c|
        invariant NoFurther(old(View()), c)
        invariant hdlcState == StEof ==> stop
        invariant ended ==> stop && buf == [] && hdlcState == StEof && outData.Contents == []
        invariant stop && |buf| < count && hdlcState != StEof ==> inData.Contents == [] && !inData.eof
        invariant |buf| < count && (c != [] || old(outData.Contents) == []) ==> outData.Contents == []
        invariant hdlcState == StEof && buf == [] && count > 0 ==> ended
        invariant inData != null && c == [] ==> buf == [] && old(outData.Contents) == outData.Contents
        decreases !stop, if inData == null then 0 else |inData.Contents|
      {
        var part;
        ghost var b;
        assert RxRun(old(View()), c).st != StEof;
        part, stop, ended, b := RxTurn(count - |buf|);
        RxRunAppend(old(View()), c, b);
        NoFurtherThan(old(View()), c, b);
        assert b == [] ==> c + b == c;
        c := c + b;
        buf := buf + part;
        ended := ended && buf == [];
      }
      res := if ended then -1 else |buf|;
    }

    /**
     `GetHdlcData` from line bytes: the next data bytes of the frame. Some prefix `c` of the
     input is taken in; the receiver is then where the bit stream says those bytes lead, and
     the bytes handed out and those waiting are the frame so far, the last 16 bits held back.
    */
    method GetHdlcFromRaw(count: nat) returns (res: int, buf: seq<Byte>, ghost c: seq<Byte>)
      requires Receiving()
      modifies this, if inData == null then {} else inData.Repr, outData.Repr, fcs
      ensures Receiving() && fresh(outData.Repr - old(outData.Repr))
      ensures frame == old(frame) + buf
      ensures inData != null ==> inData == old(inData) && inData.Repr == old(inData.Repr) && inData.eof == old(inData.eof)
      ensures inData != null ==> old(inData.Contents) == c + inData.Contents && View() == RxRun(old(View()), c)
      ensures inData == null && old(inData) != null ==> c == old(inData.Contents) && old(inData.eof)
      ensures inData == null && old(inData) != null ==> View() == RxRun(old(View()), c).(st := StEof)
      ensures old(inData) == null ==> c == [] && View() == old(View())
      ensures rawCount == old(rawCount) + |c|
      ensures NoFurther(old(View()), c)
      ensures res == -1 && count > 0 ==> buf == [] && outData.Contents == [] && hdlcState == StEof
      ensures res != -1 ==> res == |buf| <= count
      ensures 0 <= res < count && hdlcState != StEof ==> inData == null || (inData.Contents == [] && !inData.eof)
      ensures 0 <= res < count && (c != [] || old(outData.Contents) == []) ==> outData.Contents == []
      ensures res == 0 && count > 0 ==> hdlcState != StEof
      ensures inData != null && c == [] ==> old(outData.Contents) == buf + outData.Contents
      ensures inDataType == old(inDataType)
    {
      hide ToBits, ByteBits, Valid, ChunkOk, RxByte, RxRun, NoFurther, View, Receiving;
      RxRunNone(old(View()));
      c := [];
      if inData == null || hdlcState == StEof {
        res, buf := Deliver(count);
        assert inData != null ==> RxRun(old(View()), c) == View();
      } else if count == 0 && hdlcState == StData {
        var ended := Probe();
        res, buf := if ended then -1 else 0, [];
      } else {
        res, buf, c := RxLoop(count);
      }
    }

    /** Whether the frame that has just ended passes its check; every byte of it has been handed out. */
    method IsFcsOK() returns (ok: bool)
      requires Receiving() && outData.Contents == []
      ensures ok == HdlcCheck.Good(Data())
    {
      hide ByteBits, DataStream.Valid, Fcs.InRange, ChunkBits, HdlcCheck.LowWord, Fcs.Value, FcsDetection.Accepted;
      assert frame + outData.Contents == frame;
      if hdlcChunkLen != 16 {
        return false;
      }
      HdlcCheck.CompareAccepts(frame, hdlcChunk);
      return HdlcCheck.LowWord(hdlcChunk) == Fcs.Value(fcs.fcs);
    }

    method PutRawData(d: DataStream<Byte>)
      requires Valid()
      requires d.Valid() && d.Repr !! outData.Repr && this !in d.Repr && fcs !in d.Repr
      modifies this`inDataType, this`inData, this`lastChar
      ensures Valid() && inDataType == DtRaw && inData == d && lastChar == -1
    {
      hide DataStream.Valid, Fcs.InRange;
      inDataType, inData, lastChar := DtRaw, d, -1;
    }

    method PutHdlcData(d: DataStream<Byte>)
      requires Valid()
      requires d.Valid() && d.Repr !! outData.Repr && this !in d.Repr && fcs !in d.Repr
      modifies this`inDataType, this`inData, this`lastChar
      ensures Valid() && inDataType == DtHdlc && inData == d && lastChar == -1
    {
      hide DataStream.Valid, Fcs.InRange;
      inDataType, inData, lastChar := DtHdlc, d, -1;
    }

    lemma OneFlag()
      ensures ToBits([FLAG_BYTE]) == FLAG
    {
      FlagByteBits();
      ToBitsOne(FLAG_BYTE);
    }

    method SendFlags(flags: nat)
      requires Valid() && rawOnes < 5 && !outData.eof
      modifies this`rawByte, this`rawByteLen, this`rawOnes, outData.Repr
      ensures Valid() && rawOnes < 5 && !outData.eof && fresh(outData.Repr - old(outData.Repr))
      ensures Line(rawByte) == old(Line(rawByte)) + Flags(flags)
      ensures old(rawOnes) == 0 || flags > 0 ==> rawOnes == 0
    {
      hide ByteBits, DataStream.Valid, Fcs.InRange, Line;
      OneFlag();
      var n := flags;
      while n > 0
        invariant 0 <= n <= flags
        invariant Valid() && rawOnes < 5 && !outData.eof && fresh(outData.Repr - old(outData.Repr))
        invariant Line(rawByte) + Flags(n) == old(Line(rawByte)) + Flags(flags)
        invariant old(rawOnes) == 0 || n < flags ==> rawOnes == 0
      {
        ghost var line := Line(rawByte);
        Pack([FLAG_BYTE], true);
        assert line + (FLAG + Flags(n - 1)) == (line + FLAG) + Flags(n - 1);
        n := n - 1;
      }
    }

    /**
     Ready to send a frame: `flags` opening flags go out first. The partly filled byte of the
     frame before stays, so that frames follow each other on the line without a gap.
    */
    method GetRawStart(flags: nat)
      requires Valid() && rawOnes < 5
      modifies this`outDataType, this`rawByte, this`rawByteLen, this`rawOnes, outData.Repr, fcs
      ensures Valid() && rawOnes < 5 && !outData.eof && fresh(outData.Repr - old(outData.Repr))
      ensures outDataType == DtRaw && fcs.fcs == Fcs.INIT
      ensures Line(rawByte) == old(Pending()) + if inDataType == DtHdlc then Flags(flags) else []
      ensures old(rawOnes) == 0 || (inDataType == DtHdlc && flags > 0) ==> rawOnes == 0
    {
      hide ByteBits, DataStream.Valid, Fcs.InRange, LowBits;
      outDataType := DtRaw;
      outData.Clean();
      fcs.Reset();
      assert Line(rawByte) == old(Pending());
      if inDataType == DtHdlc {
        hide Line;
        SendFlags(flags);
      }
    }

    /**
     Ready to receive a frame. From line bytes, the receiver forgets the frame before but not
     the line bits it has not dealt with; from frames, four bytes are counted for the check
     sequence, flags and zeros of each frame but the first.
    */
    method GetHdlcStart(sync: bool)
      requires Valid()
      modifies this`outDataType, this`rawOnes, this`rawCount, this`hdlcChunkLen, this`hdlcState, this`frame, outData, fcs
      ensures Valid() && outData.Repr <= old(outData.Repr) && outData.Contents == [] && !outData.eof
      ensures outDataType == DtHdlc && fcs.fcs == Fcs.INIT && frame == []
      ensures inDataType == DtRaw ==> Receiving() && rawCount == old(rawCount)
      ensures inDataType == DtRaw ==> View() == Rx(if sync then StSync else StSkipFlags, old(Pending()), 0, [])
      ensures inDataType != DtRaw ==> rawCount == old(rawCount) + if sync then 0 else 4
    {
      hide ByteBits, DataStream.Valid, Fcs.InRange, Pending, Receiving, View;
      outDataType := DtHdlc;
      outData.Clean();
      fcs.Reset();
      frame := [];
      if inDataType == DtRaw {
        Rearm(sync);
      } else if !sync {
        rawCount := rawCount + 4;
      }
    }

    method Rearm(sync: bool)
      requires Valid() && frame == [] && outData.Contents == [] && !outData.eof && fcs.fcs == Fcs.INIT
      modifies this`hdlcChunkLen, this`rawOnes, this`hdlcState
      ensures Receiving() && View() == Rx(if sync then StSync else StSkipFlags, Pending(), 0, [])
    {
      hide DataStream.Valid, Fcs.InRange, Pending, Data, ChunkBits;
      hdlcChunkLen := 0;
      rawOnes := 0;
      hdlcState := if sync then StSync else StSkipFlags;
      NoData();
    }

    lemma NoData()
      requires frame == [] && outData.Contents == [] && hdlcChunkLen == 0
      ensures Data() == [] && ChunkOk() && ToBits(frame) == []
    {
      assert frame + outData.Contents == [];
    }
  }
}
