/**
 The HDLC round trip: the bytes a sender makes of some frames, however they are read, give a
 receiver exactly those frames, each with its check passing just when it was sent as good.
*/
module HdlcRoundTrip {
  import opened BitSeq
  import opened HdlcFraming
  import opened HdlcCheck
  import Fcs

  /** A frame as the sender is given it; `bad` when its diagnostic has an error bit. */
  datatype Frame = Frame(data: seq<Byte>, bad: bool)

  function AllContents(frames: seq<Frame>): (r: seq<Bits>)
    ensures |r| == |frames|
    ensures forall i :: 0 <= i < |r| ==> r[i] == Contents(frames[i].data, frames[i].bad) && |r[i]| >= 16
  {
    if frames == [] then [] else [Contents(frames[0].data, frames[0].bad)] + AllContents(frames[1..])
  }

  /** The line: opening flags, then the frames. */
  function Line(flags: nat, frames: seq<Frame>): Bits {
    Flags(flags) + LineBits(AllContents(frames))
  }

  /** A receiver that has just been started, looking for its first flag. */
  const FRESH: Rx := Rx(StSync, [], 0, [])

  /** The data bytes `data` are what a receiver hands out of a frame with contents `d`. */
  predicate DataOf(d: Bits, data: seq<Byte>) {
    |d| >= 16 && ToBits(data) == d[..|d| - 16]
  }

  /**
   `bytes` are all the whole bytes of the line, `lost` the bits of its last, unfinished one.
   Decoding gives one result for each frame, in order, with the frame's own data; it is good
   exactly when the frame was sent as good.
  */
  lemma {:induction false} RoundTrip(flags: nat, frames: seq<Frame>, bytes: seq<Byte>, lost: Bits, noise: Bits)
    requires flags >= 1 && |lost| < 8 && Clean(noise)
    requires ToBits(bytes) + lost == noise + Line(flags, frames)
    ensures var got := Decode(FRESH, bytes);
      && |got| == |frames|
      && forall i :: 0 <= i < |got| ==> DataOf(got[i], frames[i].data) && (Good(got[i]) <==> !frames[i].bad)
  {
    hide Good, Fcs.Closing, Decode, LineBits;
    var all := AllContents(frames);
    assert Flags(flags) == FLAG + Flags(flags - 1);
    assert noise + Line(flags, frames) == noise + FLAG + (Flags(flags - 1) + LineBits(all));
    assert FRESH.pend + ToBits(bytes) + lost == ToBits(bytes) + lost;
    DecodeFromSync(FRESH, bytes, noise, flags - 1, all, lost);
    forall i | 0 <= i < |frames|
      ensures DataOf(all[i], frames[i].data) && (Good(all[i]) <==> !frames[i].bad)
    {
      ContentsGood(frames[i].data, frames[i].bad);
      ContentsData(frames[i]);
    }
  }

  lemma ContentsData(f: Frame)
    ensures DataOf(Contents(f.data, f.bad), f.data)
  {
    hide Fcs.Closing, ByteBits;
    var d := Contents(f.data, f.bad);
    assert d[..|d| - 16] == ToBits(f.data);
  }

  /** The data of a result is unique. */
  lemma {:induction false} DataOfUnique(d: Bits, a: seq<Byte>, b: seq<Byte>)
    requires DataOf(d, a) && DataOf(d, b)
    ensures a == b
  {
    ToBitsInjective(a, b);
  }
}
