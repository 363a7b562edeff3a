/**
 Frames from one codec object to another: one sends them frame by frame, its line is read in pieces of
 any size, and the other takes in these pieces and is read in pieces of any size.
*/
module HdlcLinks {
  import opened BitSeq
  import opened DataStreams
  import opened EngineTypes
  import opened HdlcFraming
  import opened HdlcCheck
  import opened HdlcRoundTrip
  import Fcs
  import opened HdlcChunk
  import H = Hdlc

  function Joined(parts: seq<seq<Byte>>): seq<Byte> {
    if parts == [] then [] else Joined(parts[..|parts| - 1]) + parts[|parts| - 1]
  }

  // ------------------------------------------------------------------ sending

  /** The line of these frames; with no frame nothing is started. */
  function Sent(flags: nat, frames: seq<Frame>): Bits { if frames == [] then [] else Line(flags, frames) }

  lemma {:induction false} LineBitsAppend(frames: seq<Bits>, d: Bits)
    ensures LineBits(frames + [d]) == LineBits(frames) + FrameBits(d)
  {
    hide FrameBits;
    if frames == [] {
      assert [d][1..] == [] && frames + [d] == [d];
      assert LineBits([d]) == FrameBits(d) + [];
    } else {
      assert (frames + [d])[1..] == frames[1..] + [d];
      LineBitsAppend(frames[1..], d);
      assert FrameBits(frames[0]) + (LineBits(frames[1..]) + FrameBits(d)) == FrameBits(frames[0]) + LineBits(frames[1..]) + FrameBits(d);
    }
  }

  lemma {:induction false} AllContentsAppend(frames: seq<Frame>, f: Frame)
    ensures AllContents(frames + [f]) == AllContents(frames) + [Contents(f.data, f.bad)]
  {
    hide Contents;
    if frames != [] {
      assert (frames + [f])[1..] == frames[1..] + [f];
      AllContentsAppend(frames[1..], f);
    }
  }

  /** One more frame lengthens the line by itself, and by the opening flags if it is the first. */
  lemma SentNext(flags: nat, frames: seq<Frame>, f: Frame)
    ensures Sent(flags, frames + [f]) ==
      Sent(flags, frames) + Flags(if frames == [] then flags else 0) + FrameBits(Contents(f.data, f.bad))
  {
    hide Contents, FrameBits;
    AllContentsAppend(frames, f);
    LineBitsAppend(AllContents(frames), Contents(f.data, f.bad));
    var a, b, c := Flags(flags), LineBits(AllContents(frames)), FrameBits(Contents(f.data, f.bad));
    assert a + (b + c) == a + b + c;
    assert frames == [] ==> b == [] && [] + a == a && a + [] == a;
    assert Sent(flags, frames) + [] == Sent(flags, frames);
  }

  /** A frame as the queue the codec reads it from. */
  method QueueOf(f: Frame) returns (d: DataStream<Byte>)
    ensures d.Valid() && fresh(d.Repr) && d.Contents == f.data && d.eof && (IsError(d.diag) <==> f.bad)
  {
    hide DataStream.Valid;
    d := new DataStream<Byte>(0);
    var _ := d.PutData(f.data);
    if f.bad {
      d.SetDiag({BadFcs});
      assert BadFcs in d.diag;
    }
    d.PutEof();
  }

  /** All of a frame is read off the line, so many bytes at a time. */
  method ReadOut(hdlc: H.HDLC, sizes: nat -> nat, from: nat) returns (parts: seq<seq<Byte>>, turn: nat)
    requires hdlc.Valid() && hdlc.rawOnes < 5
    requires hdlc.inData != null && !hdlc.outData.eof && hdlc.inData.eof
    modifies hdlc, hdlc.inData.Repr, hdlc.outData.Repr, hdlc.fcs
    ensures hdlc.Valid() && fresh(hdlc.outData.Repr - old(hdlc.outData.Repr))
    ensures hdlc.inData == null && hdlc.rawOnes == 0
    ensures ToBits(Joined(parts)) + hdlc.Pending() == old(hdlc.LineAhead())
  {
    hide H.HDLC.Valid, H.HDLC.LineAhead, ToBits, ByteBits;
    parts, turn := [], from;
    var more := true;
    NoBits();
    while more
      invariant hdlc.Valid() && hdlc.rawOnes < 5 && fresh(hdlc.outData.Repr - old(hdlc.outData.Repr))
      invariant (hdlc.inData == null <==> hdlc.outData.eof) && (hdlc.inData == null ==> hdlc.rawOnes == 0)
      invariant hdlc.inData != null ==> hdlc.inData == old(hdlc.inData) && hdlc.inData.Repr == old(hdlc.inData.Repr) && hdlc.inData.eof
      invariant ToBits(Joined(parts)) + hdlc.LineAhead() == old(hdlc.LineAhead())
      invariant !more ==> hdlc.inData == null && hdlc.outData.Contents == []
      decreases more, |hdlc.LineAhead()|, hdlc.inData != null
    {
      var res, part := hdlc.GetRawFromHdlc(1 + sizes(turn));
      turn := turn + 1;
      if res < 0 {
        more := false;
        LastRead(ToBits(Joined(parts)), part, hdlc.LineAhead());
      } else {
        ReadNext(parts, part, hdlc.LineAhead());
        parts := parts + [part];
      }
    }
    NothingAhead(hdlc);
  }

  lemma NoBits()
    ensures ToBits(Joined([])) == []
  {
  }

  lemma LastRead(before: Bits, part: seq<Byte>, after: Bits)
    requires part == []
    ensures before + (ToBits(part) + after) == before + after
  {
    assert [] + after == after;
  }

  lemma ReadNext(parts: seq<seq<Byte>>, part: seq<Byte>, after: Bits)
    ensures ToBits(Joined(parts)) + (ToBits(part) + after) == ToBits(Joined(parts + [part])) + after
    ensures |ToBits(part) + after| == 8 * |part| + |after|
  {
    hide ToBits;
    assert (parts + [part])[..|parts|] == parts;
    ToBitsAppend(Joined(parts), part);
    Regroup(ToBits(Joined(parts)), ToBits(part), after);
  }

  lemma NothingAhead(hdlc: H.HDLC)
    requires hdlc.rawByteLen < 8 && hdlc.inData == null && hdlc.outData.Contents == []
    ensures hdlc.LineAhead() == hdlc.Pending()
  {
    hide ByteBits;
  }

  /** What is ahead once a whole frame is put in. */
  lemma FrameAhead(data: seq<Byte>, bad: bool, hdlc: H.HDLC)
    ensures hdlc.FrameRest(data, true, bad, Fcs.INIT, 0) == FrameBits(Contents(data, bad))
  {
  }

  /**
   The frames are sent one behind the other, the first with `flags` opening flags, and the line is read in
   pieces of the sizes asked for: the pieces, and the bits of the byte that is not full, are the whole line.
  */
  method SendFrames(flags: nat, frames: seq<Frame>, sizes: nat -> nat) returns (parts: seq<seq<Byte>>, ghost lost: Bits)
    ensures |lost| < 8 && ToBits(Joined(parts)) + lost == Sent(flags, frames)
  {
    hide H.HDLC.Valid, ToBits, ByteBits, Sent, DataStream.Valid, FrameBits, Contents, Flags, Joined, H.HDLC.Pending;
    var hdlc := new H.HDLC();
    parts := [];
    var turn := 0;
    NothingSent(flags, hdlc);
    for i := 0 to |frames|
      invariant fresh(hdlc) && fresh(hdlc.outData.Repr) && fresh(hdlc.fcs)
      invariant hdlc.Valid() && hdlc.inData == null && hdlc.rawOnes == 0
      invariant ToBits(Joined(parts)) + hdlc.Pending() == Sent(flags, frames[..i])
    {
      var more;
      ghost var before := hdlc.Pending();
      more, turn := SendOne(hdlc, if i == 0 then flags else 0, frames[i], sizes, turn);
      SentNext(flags, frames[..i], frames[i]);
      assert frames[..i] + [frames[i]] == frames[..i + 1];
      NextParts(parts, more, before, Flags(if i == 0 then flags else 0), FrameBits(Contents(frames[i].data, frames[i].bad)), hdlc.Pending());
      parts := parts + more;
    }
    assert frames[..|frames|] == frames;
    lost := hdlc.Pending();
    PendingFits(hdlc);
  }

  lemma NothingSent(flags: nat, hdlc: H.HDLC)
    requires hdlc.rawByteLen == 0
    ensures ToBits(Joined([])) + hdlc.Pending() == Sent(flags, [])
  {
  }

  lemma PendingFits(hdlc: H.HDLC)
    requires hdlc.Valid()
    ensures |hdlc.Pending()| < 8
  {
    hide ByteBits;
  }

  lemma NextParts(parts: seq<seq<Byte>>, more: seq<seq<Byte>>, before: Bits, opening: Bits, frame: Bits, after: Bits)
    requires ToBits(Joined(more)) + after == before + opening + frame
    ensures ToBits(Joined(parts + more)) + after == ToBits(Joined(parts)) + before + opening + frame
  {
    hide ToBits;
    JoinedAppend(parts, more);
    ToBitsAppend(Joined(parts), Joined(more));
    var a := ToBits(Joined(parts));
    assert a + ToBits(Joined(more)) + after == a + (ToBits(Joined(more)) + after);
    assert a + (before + opening + frame) == a + before + opening + frame;
  }

  lemma {:induction false} JoinedAppend(a: seq<seq<Byte>>, b: seq<seq<Byte>>)
    ensures Joined(a + b) == Joined(a) + Joined(b)
    decreases |b|
  {
    if b == [] {
      assert a + b == a;
    } else {
      var n := |b| - 1;
      assert (a + b)[..|a + b| - 1] == a + b[..n];
      JoinedAppend(a, b[..n]);
      assert Joined(a) + Joined(b[..n]) + b[n] == Joined(a) + (Joined(b[..n]) + b[n]);
    }
  }

  method SendOne(hdlc: H.HDLC, flags: nat, f: Frame, sizes: nat -> nat, from: nat) returns (parts: seq<seq<Byte>>, turn: nat)
    requires hdlc.Valid() && hdlc.rawOnes == 0
    modifies hdlc, hdlc.outData.Repr, hdlc.fcs
    ensures hdlc.Valid() && hdlc.inData == null && hdlc.rawOnes == 0 && fresh(hdlc.outData.Repr - old(hdlc.outData.Repr))
    ensures ToBits(Joined(parts)) + hdlc.Pending() == old(hdlc.Pending()) + Flags(flags) + FrameBits(Contents(f.data, f.bad))
  {
    hide ToBits, ByteBits, DataStream.Valid, Fcs.InRange, Contents, FrameBits, Flags, H.HDLC.FrameRest, Joined;
    var d := QueueOf(f);
    hdlc.PutHdlcData(d);
    hdlc.GetRawStart(flags);
    FrameAhead(f.data, f.bad, hdlc);
    parts, turn := ReadOut(hdlc, sizes, from);
  }

  // ---------------------------------------------------------------- receiving

  /** A frame as a reader gets it: its bytes, and whether it passes its check. */
  datatype Received = Received(data: seq<Byte>, ok: bool)

  /** The bytes that a receiver hands out of a frame with contents `d`: the last 16 bits, or up to 23, are held back. */
  predicate HandedOut(d: Bits, data: seq<Byte>) {
    && 8 * |data| <= |d| && ToBits(data) == d[..8 * |data|]
    && if |d| >= 16 then 16 <= |d| - 8 * |data| < 24 else data == []
  }

  /** Each frame is handed out, with the outcome of its check. */
  predicate AreReceived(decoded: seq<Bits>, got: seq<Received>) {
    |got| == |decoded| && forall i :: 0 <= i < |got| ==> HandedOut(decoded[i], got[i].data) && (got[i].ok <==> Good(decoded[i]))
  }

  /** What the receiver will still decode: the frame it has closed, if it has, and the frames in `rest`. */
  function StillDecoded(rx: Rx, rest: seq<Byte>): seq<Bits> {
    if rx.st == StEof then [rx.data] + Decode(Restart(rx, false), rest) else Decode(rx, rest)
  }

  /** Taking in bytes, no further than a closing flag, leaves the same to be decoded. */
  lemma TakenIn(rx: Rx, c: seq<Byte>, rest: seq<Byte>)
    requires NoFurther(rx, c)
    ensures StillDecoded(rx, c + rest) == StillDecoded(RxRun(rx, c), rest)
    ensures rx.st == StEof ==> c == []
  {
    if rx.st == StEof {
      if c != [] { EofStays(rx, c[..|c| - 1]); }
      RxRunNone(rx);
      assert c + rest == rest;
    } else {
      DecodeRun(rx, c, rest);
    }
  }

  lemma FrameHandedOut(hdlc: H.HDLC)
    requires hdlc.Receiving() && hdlc.outData.Contents == []
    ensures HandedOut(hdlc.View().data, hdlc.frame)
  {
    hide ByteBits, ChunkBits, DataStream.Valid, Fcs.InRange;
    assert hdlc.frame + hdlc.outData.Contents == hdlc.frame;
    assert hdlc.Data() == ToBits(hdlc.frame) + ChunkBits(hdlc.hdlcChunk, hdlc.hdlcChunkLen);
  }

  /** The closed frame is checked, and the next one can come. */
  method EndFrame(hdlc: H.HDLC) returns (ok: bool)
    requires hdlc.Receiving() && hdlc.inData != null && hdlc.inDataType == DtRaw
    requires hdlc.hdlcState == StEof && hdlc.outData.Contents == []
    modifies hdlc, hdlc.outData, hdlc.fcs
    ensures hdlc.Receiving() && hdlc.inData == old(hdlc.inData) && hdlc.inDataType == DtRaw && hdlc.outData.Contents == []
    ensures hdlc.inData.Repr == old(hdlc.inData.Repr) && hdlc.inData.Contents == old(hdlc.inData.Contents) && hdlc.inData.eof == old(hdlc.inData.eof)
    ensures hdlc.outData.Repr <= old(hdlc.outData.Repr) && hdlc.frame == [] && hdlc.hdlcState != StEof
    ensures HandedOut(old(hdlc.View()).data, old(hdlc.frame)) && (ok <==> Good(old(hdlc.View()).data))
    ensures hdlc.View() == Restart(old(hdlc.View()), false)
  {
    hide H.HDLC.Receiving, Good, HandedOut, H.HDLC.Pending, H.HDLC.Data, DataStream.Valid, Fcs.InRange;
    FrameHandedOut(hdlc);
    ok := hdlc.IsFcsOK();
    hdlc.GetHdlcStart(false);
  }

  /** The receiver has the same input as before, still open. */
  ghost predicate SameLine(hdlc: H.HDLC, line: DataStream<Byte>, repr: set<object>)
    reads hdlc, line
    ensures SameLine(hdlc, line, repr) ==> hdlc.inData == line && line.Repr == repr
  {
    hdlc.inData == line && hdlc.inDataType == DtRaw && line.Repr == repr && !line.eof
  }

  /** Some bytes are read; a frame that ends is checked. */
  method ReadOnce(hdlc: H.HDLC, line: DataStream<Byte>, size: nat, before: seq<Byte>, ghost later: seq<Byte>)
    returns (data: seq<Byte>, got: seq<Received>, starved: bool, ghost decoded: seq<Bits>)
    requires hdlc.Receiving() && SameLine(hdlc, line, line.Repr) && size > 0 && before == hdlc.frame
    modifies hdlc, line.Repr, hdlc.outData.Repr, hdlc.fcs
    ensures hdlc.Receiving() && SameLine(hdlc, line, old(line.Repr)) && forall o :: o in hdlc.outData.Repr ==> o in old(hdlc.outData.Repr) || fresh(o)
    ensures |got| <= 1 && data == hdlc.frame
    ensures |decoded| == |got| && (got != [] ==> HandedOut(decoded[0], got[0].data) && (got[0].ok <==> Good(decoded[0])))
    ensures StillDecoded(old(hdlc.View()), old(line.Contents) + later) == decoded + StillDecoded(hdlc.View(), line.Contents + later)
    ensures starved ==> hdlc.hdlcState != StEof && line.Contents == []
    ensures !starved ==>
      || |line.Contents| < |old(line.Contents)|
      || (|line.Contents| == |old(line.Contents)| && |hdlc.outData.Contents| < |old(hdlc.outData.Contents)|)
      || (|line.Contents| == |old(line.Contents)| && |hdlc.outData.Contents| == |old(hdlc.outData.Contents)|
          && old(hdlc.hdlcState) == StEof && hdlc.hdlcState != StEof)
  {
    hide H.HDLC.Receiving, H.HDLC.View, Good, HandedOut, DataStream.Valid, Fcs.InRange, Decode, RxRun, NoFurther;
    ghost var rx := hdlc.View();
    var res, part;
    ghost var c;
    res, part, c := hdlc.GetHdlcFromRaw(size);
    data := before + part;
    RxRunNone(rx);
    TakenIn(rx, c, line.Contents + later);
    Regroup3(c, line.Contents, later);
    got, starved, decoded := [], res == 0, [];
    assert [] + StillDecoded(hdlc.View(), line.Contents + later) == StillDecoded(hdlc.View(), line.Contents + later);
    if res < 0 {
      decoded := [hdlc.View().data];
      var ok := EndFrame(hdlc);
      got, data := [Received(data, ok)], [];
    }
  }

  lemma Regroup3(a: seq<Byte>, b: seq<Byte>, c: seq<Byte>)
    ensures a + (b + c) == a + b + c
  {
  }

  /** The frames that ended join those before. */
  lemma ReceivedMore(a: seq<Bits>, x: seq<Received>, b: seq<Bits>, y: seq<Received>)
    requires AreReceived(a, x) && |b| == |y| <= 1
    requires y != [] ==> HandedOut(b[0], y[0].data) && (y[0].ok <==> Good(b[0]))
    ensures AreReceived(a + b, x + y)
  {
    hide HandedOut, Good;
  }

  /** Everything that has come is read, so many bytes at a time, and each frame that ends is checked. */
  method ReadIn(hdlc: H.HDLC, line: DataStream<Byte>, sizes: nat -> nat, from: nat, start: seq<Byte>, ghost later: seq<Byte>)
    returns (got: seq<Received>, data: seq<Byte>, turn: nat, ghost decoded: seq<Bits>)
    requires hdlc.Receiving() && SameLine(hdlc, line, line.Repr) && start == hdlc.frame
    modifies hdlc, line.Repr, hdlc.outData.Repr, hdlc.fcs
    ensures hdlc.Receiving() && SameLine(hdlc, line, old(line.Repr)) && forall o :: o in hdlc.outData.Repr ==> o in old(hdlc.outData.Repr) || fresh(o)
    ensures hdlc.hdlcState != StEof && data == hdlc.frame && line.Contents == []
    ensures AreReceived(decoded, got)
    ensures StillDecoded(old(hdlc.View()), old(line.Contents) + later) == decoded + StillDecoded(hdlc.View(), later)
  {
    hide H.HDLC.Receiving, H.HDLC.View, AreReceived, Good, HandedOut, StillDecoded, SameLine, ToBits;
    ghost var all := StillDecoded(hdlc.View(), line.Contents + later);
    got, data, turn, decoded := [], start, from, [];
    NoneReceived();
    assert [] + all == all;
    var starved := false;
    while !starved
      invariant hdlc.Receiving() && SameLine(hdlc, line, old(line.Repr)) && forall o :: o in hdlc.outData.Repr ==> o in old(hdlc.outData.Repr) || fresh(o)
      invariant data == hdlc.frame && AreReceived(decoded, got)
      invariant decoded + StillDecoded(hdlc.View(), line.Contents + later) == all
      invariant starved ==> hdlc.hdlcState != StEof && line.Contents == []
      decreases !starved, |line.Contents|, |hdlc.outData.Contents|, hdlc.hdlcState == StEof
    {
      var ended;
      ghost var more;
      SameRepr(hdlc, line, old(line.Repr));
      data, ended, starved, more := ReadOnce(hdlc, line, 1 + sizes(turn), data, later);
      turn := turn + 1;
      ReceivedMore(decoded, got, more, ended);
      MoreDecoded(decoded, more, StillDecoded(hdlc.View(), line.Contents + later));
      decoded, got := decoded + more, got + ended;
    }
    NoneBefore(later);
  }

  lemma NoneBefore(later: seq<Byte>)
    ensures [] + later == later
  {
  }

  lemma SameRepr(hdlc: H.HDLC, line: DataStream<Byte>, repr: set<object>)
    requires SameLine(hdlc, line, repr)
    ensures SameLine(hdlc, line, line.Repr) && line.Repr == repr
  {
  }

  lemma NoneReceived()
    ensures AreReceived([], [])
  {
  }

  lemma MoreDecoded(a: seq<Bits>, b: seq<Bits>, c: seq<Bits>)
    ensures a + (b + c) == a + b + c
  {
  }

  /**
   The line comes in pieces, and each is read, in parts of the sizes asked for, before the next one comes.
   What the reader gets are the frames of the whole line, in order, each with the outcome of its check.
  */
  method ReadFrames(pieces: seq<seq<Byte>>, sizes: nat -> nat) returns (got: seq<Received>)
    ensures AreReceived(Decode(FRESH, Joined(pieces)), got)
  {
    hide H.HDLC.Receiving, H.HDLC.View, AreReceived, Good, HandedOut, Decode, ToBits, DataStream.Valid, SameLine;
    var line, hdlc := Started();
    var data, turn := [], 0;
    got := [];
    ghost var decoded: seq<Bits> := [];
    ghost var all := Joined(pieces);
    NoneReceived();
    AllAhead(pieces);
    MoreDecoded([], [], Decode(FRESH, all));
    assert [] + Decode(FRESH, all) == Decode(FRESH, all);
    for i := 0 to |pieces|
      invariant fresh(hdlc) && fresh(hdlc.fcs) && forall o :: o in hdlc.outData.Repr || o in line.Repr ==> fresh(o)
      invariant hdlc.Receiving() && SameLine(hdlc, line, line.Repr) && line.Contents == [] && hdlc.hdlcState != StEof
      invariant data == hdlc.frame && AreReceived(decoded, got)
      invariant decoded + Decode(hdlc.View(), Joined(pieces[i..])) == Decode(FRESH, all)
    {
      ghost var later := Joined(pieces[i + 1..]);
      NextPiece(pieces, i);
      var more;
      ghost var ended;
      more, data, turn, ended := ReadPiece(hdlc, line, sizes, turn, data, pieces[i], later);
      ReceivedAll(decoded, got, ended, more);
      MoreDecoded(decoded, ended, Decode(hdlc.View(), later));
      decoded, got := decoded + ended, got + more;
    }
    DecodedAll(hdlc.View(), pieces, decoded);
  }

  method Started() returns (line: DataStream<Byte>, hdlc: H.HDLC)
    ensures fresh(hdlc) && fresh(hdlc.outData.Repr) && fresh(hdlc.fcs) && fresh(line.Repr)
    ensures hdlc.Receiving() && SameLine(hdlc, line, line.Repr) && line.Contents == [] && hdlc.View() == FRESH && hdlc.frame == []
  {
    hide DataStream.Valid, H.HDLC.Receiving, H.HDLC.View, Fcs.InRange;
    line := new DataStream<Byte>(0);
    hdlc := new H.HDLC();
    hdlc.PutRawData(line);
    NothingPending(hdlc);
    hdlc.GetHdlcStart(true);
  }

  lemma NothingPending(hdlc: H.HDLC)
    requires hdlc.rawByteLen == 0
    ensures hdlc.Pending() == []
  {
  }

  /** More of the line comes. */
  method PutLine(hdlc: H.HDLC, line: DataStream<Byte>, piece: seq<Byte>)
    requires hdlc.Receiving() && SameLine(hdlc, line, line.Repr) && line.Contents == []
    modifies line.Repr
    ensures hdlc.Receiving() && SameLine(hdlc, line, line.Repr) && line.Contents == piece
    ensures hdlc.View() == old(hdlc.View()) && hdlc.frame == old(hdlc.frame) && hdlc.outData.Repr == old(hdlc.outData.Repr)
    ensures forall o :: o in line.Repr ==> o in old(line.Repr) || fresh(o)
  {
    hide DataStream.Valid, H.HDLC.Data, H.HDLC.Pending, H.HDLC.ChunkOk, Fcs.InRange, ToBits;
    var _ := line.PutData(piece);
    assert [] + piece == piece;
  }

  /** A piece of the line comes and is read. */
  method ReadPiece(hdlc: H.HDLC, line: DataStream<Byte>, sizes: nat -> nat, from: nat, start: seq<Byte>, piece: seq<Byte>, ghost later: seq<Byte>)
    returns (got: seq<Received>, data: seq<Byte>, turn: nat, ghost decoded: seq<Bits>)
    requires hdlc.Receiving() && SameLine(hdlc, line, line.Repr) && line.Contents == []
    requires hdlc.hdlcState != StEof && start == hdlc.frame
    modifies hdlc, line.Repr, hdlc.outData.Repr, hdlc.fcs
    ensures hdlc.Receiving() && SameLine(hdlc, line, line.Repr) && line.Contents == [] && hdlc.hdlcState != StEof
    ensures forall o :: o in line.Repr ==> o in old(line.Repr) || fresh(o)
    ensures forall o :: o in hdlc.outData.Repr ==> o in old(hdlc.outData.Repr) || fresh(o)
    ensures data == hdlc.frame && AreReceived(decoded, got)
    ensures Decode(old(hdlc.View()), piece + later) == decoded + Decode(hdlc.View(), later)
  {
    hide H.HDLC.Receiving, H.HDLC.View, AreReceived, Decode, SameLine, StillDecoded, H.HDLC.Valid;
    ghost var rx := hdlc.View();
    PutLine(hdlc, line, piece);
    got, data, turn, decoded := ReadIn(hdlc, line, sizes, from, start, later);
    OpenDecoded(rx, piece + later);
    OpenDecoded(hdlc.View(), later);
  }

  lemma {:induction false} JoinedFrom(pieces: seq<seq<Byte>>)
    requires pieces != []
    ensures Joined(pieces) == pieces[0] + Joined(pieces[1..])
  {
    JoinedAppend([pieces[0]], pieces[1..]);
    assert [pieces[0]] + pieces[1..] == pieces;
    assert [pieces[0]][..0] == [] && Joined([pieces[0]]) == [] + pieces[0];
  }

  lemma NextPiece(pieces: seq<seq<Byte>>, i: nat)
    requires i < |pieces|
    ensures Joined(pieces[i..]) == pieces[i] + Joined(pieces[i + 1..])
  {
    JoinedFrom(pieces[i..]);
  }

  lemma AllAhead(pieces: seq<seq<Byte>>)
    ensures pieces[0..] == pieces
  {
  }

  lemma OpenDecoded(rx: Rx, rest: seq<Byte>)
    requires rx.st != StEof
    ensures StillDecoded(rx, rest) == Decode(rx, rest)
  {
  }

  lemma ReceivedAll(a: seq<Bits>, x: seq<Received>, b: seq<Bits>, y: seq<Received>)
    requires AreReceived(a, x) && AreReceived(b, y)
    ensures AreReceived(a + b, x + y)
  {
    hide HandedOut, Good;
  }

  lemma DecodedAll(rx: Rx, pieces: seq<seq<Byte>>, decoded: seq<Bits>)
    ensures decoded + Decode(rx, Joined(pieces[|pieces|..])) == decoded
  {
    assert pieces[|pieces|..] == [];
  }

  // ---------------------------------------------------------------- round trip

  /** What is handed out of a frame that was sent is its data. */
  lemma HandedOutIs(d: Bits, data: seq<Byte>, sent: seq<Byte>)
    requires DataOf(d, sent) && HandedOut(d, data)
    ensures data == sent
  {
    hide ByteBits;
    assert |d| == 8 * |sent| + 16;
    assert |data| == |sent|;
    assert ToBits(data) == ToBits(sent);
    ToBitsInjective(data, sent);
  }

  /** What can be received of a line: without an opening flag the first frame is what comes before the first flag. */
  function Heard(flags: nat, frames: seq<Frame>): seq<Frame> {
    if flags == 0 && frames != [] then frames[1..] else frames
  }

  /** A first frame with no opening flag is noise before the two flags that close it. */
  lemma NoOpening(frames: seq<Frame>) returns (noise: Bits)
    requires frames != []
    ensures Clean(noise) && Line(0, frames) == noise + Line(2, frames[1..])
  {
    hide Clean, Contents;
    var d, rest := Contents(frames[0].data, frames[0].bad), LineBits(AllContents(frames[1..]));
    noise := Stuff(d, 0);
    NoFalseFlag(d, 0);
    assert AllContents(frames)[1..] == AllContents(frames[1..]);
    assert Flags(2) == FLAG + FLAG by { assert Flags(2) == FLAG + Flags(1) && Flags(1) == FLAG + Flags(0) && FLAG + [] == FLAG; }
    hide Stuff;
    assert Line(0, frames) == [] + (noise + (FLAG + FLAG) + rest);
    assert noise + (FLAG + FLAG) + rest == noise + (FLAG + FLAG + rest);
  }

  /**
   Whatever frames are put into one codec: reading its line in pieces of any sizes into another codec, and reading
   that one in pieces of any sizes, gives these frames, in order, each passing its check just when it was sent as
   good; with no opening flag, all but the first.
  */
  method Transfer(flags: nat, frames: seq<Frame>, sizes: nat -> nat, sizes1: nat -> nat) returns (got: seq<Received>)
    ensures var heard := Heard(flags, frames);
      |got| == |heard| && forall i :: 0 <= i < |got| ==> got[i] == Received(heard[i].data, !heard[i].bad)
  {
    hide Decode, ToBits, HandedOut, DataOf, Good, Line, Clean;
    var parts;
    ghost var lost;
    parts, lost := SendFrames(flags, frames, sizes);
    got := ReadFrames(parts, sizes1);
    LineHeard(flags, frames, Joined(parts), lost);
    ghost var heard := Heard(flags, frames);
    forall i | 0 <= i < |got| ensures got[i] == Received(heard[i].data, !heard[i].bad) {
      HandedOutIs(Decode(FRESH, Joined(parts))[i], got[i].data, heard[i].data);
    }
  }

  /** What decoding the whole line gives. */
  lemma LineHeard(flags: nat, frames: seq<Frame>, bytes: seq<Byte>, lost: Bits)
    requires |lost| < 8 && ToBits(bytes) + lost == Sent(flags, frames)
    ensures var d, heard := Decode(FRESH, bytes), Heard(flags, frames);
      && |d| == |heard|
      && forall i :: 0 <= i < |d| ==> DataOf(d[i], heard[i].data) && (Good(d[i]) <==> !heard[i].bad)
  {
    hide Decode, ToBits, DataOf, Good, Line, Clean;
    if frames == [] {
      EmptyLine(bytes, lost);
    } else if flags == 0 {
      var noise := NoOpening(frames);
      RoundTrip(2, frames[1..], bytes, lost, noise);
    } else {
      assert [] + Line(flags, frames) == Line(flags, frames);
      NoNoise();
      RoundTrip(flags, frames, bytes, lost, []);
    }
  }

  lemma EmptyLine(bytes: seq<Byte>, lost: Bits)
    requires ToBits(bytes) + lost == []
    ensures Decode(FRESH, bytes) == []
  {
    assert |ToBits(bytes) + lost| == 8 * |bytes| + |lost|;
  }

  lemma NoNoise()
    ensures Clean([])
  {
  }
}
