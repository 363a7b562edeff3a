/** What a stream of packets says, read with no knowledge of the engine that sent it. */
module T38Grammar {
  import opened BitSeq
  import opened T38Types

  /** Which kind of data a burst has carried so far. */
  datatype Kind = Any | Frames | Image

  /**
   Where a well-formed stream is: after the end of a burst, where only no-signal may follow; between
   bursts; in the body of a burst, with a frame left open or not; or past a packet that does not fit.
  */
  datatype Gram = Ended | Quiet | Body(mod: Modulation, kind: Kind, open: bool) | Broken

  function NextGram(g: Gram, p: Packet): Gram {
    match p
    case Ind(NoSignal) => if g == Ended then Quiet else Broken
    case Ind(CngTone) => if g == Quiet then Quiet else Broken
    case Ind(CedTone) => if g == Quiet then Ended else Broken
    case Ind(Training(mod, short)) => if g == Quiet && IsTraining(p.ind) then Body(mod, Any, false) else Broken
    case Data(mod, field) => if g.Body? && g.mod == mod then NextField(g, field) else Broken
  }

  function NextField(g: Gram, field: Field): Gram
    requires g.Body?
  {
    match field
    case HdlcData(data) => if g.kind != Image && data != [] then g.(kind := Frames, open := true) else Broken
    case HdlcFcsOk => if g.kind == Frames && g.open then g.(open := false) else Broken
    case HdlcFcsBad => if g.kind == Frames && g.open then g.(open := false) else Broken
    case HdlcSigEnd => if g.kind != Image && !g.open then Ended else Broken
    case NonEcmData(data) => if g.kind != Frames && data != [] then g.(kind := Image, open := true) else Broken
    case NonEcmSigEnd => if g.kind != Frames then Ended else Broken
  }

  /** The state after all of `packets`, of a stream that starts with a no-signal indicator. */
  function GramOf(packets: seq<Packet>): Gram {
    if packets == [] then Ended else NextGram(GramOf(packets[..|packets| - 1]), packets[|packets| - 1])
  }

  /** The payload of a burst: its frames, if their checks are all good, or its one image. */
  datatype Payload = FramesOf(frames: seq<seq<Byte>>) | ImageOf(image: seq<Byte>) | Spoiled

  /** What a reader has put together: the payloads of whole bursts, the whole frames of this burst, the open part, and whether a check was bad. */
  datatype Asm = Asm(bursts: seq<Payload>, frames: seq<seq<Byte>>, part: seq<Byte>, spoiled: bool)

  function NextAsm(a: Asm, p: Packet): Asm {
    match p
    case Ind(Training(_, _)) => a.(frames := [], part := [], spoiled := false)
    case Ind(_) => a
    case Data(_, HdlcData(data)) => a.(part := a.part + data)
    case Data(_, NonEcmData(data)) => a.(part := a.part + data)
    case Data(_, HdlcFcsOk) => a.(frames := a.frames + [a.part], part := [])
    case Data(_, HdlcFcsBad) => a.(part := [], spoiled := true)
    case Data(_, HdlcSigEnd) => a.(bursts := a.bursts + [if a.spoiled then Spoiled else FramesOf(a.frames)])
    case Data(_, NonEcmSigEnd) => a.(bursts := a.bursts + [if a.spoiled then Spoiled else ImageOf(a.part)])
  }

  function AsmOf(packets: seq<Packet>): Asm {
    if packets == [] then Asm([], [], [], false) else NextAsm(AsmOf(packets[..|packets| - 1]), packets[|packets| - 1])
  }

  /** A broken stream stays broken, so a whole stream that is not broken has no broken beginning. */
  lemma {:induction false} PrefixUnbroken(packets: seq<Packet>, n: nat)
    requires n <= |packets| && GramOf(packets) != Broken
    ensures GramOf(packets[..n]) != Broken
    decreases |packets|
  {
    if n < |packets| {
      var before := packets[..|packets| - 1];
      assert packets[..n] == before[..n];
      PrefixUnbroken(before, n);
    } else {
      assert packets[..n] == packets;
    }
  }

  /** In a well-formed stream a no-signal indicator follows each end of burst at once, and nothing else follows one. */
  lemma {:induction false} AfterEnd(packets: seq<Packet>, i: nat)
    requires i + 1 < |packets| && GramOf(packets) != Broken
    ensures EndsBurst(packets[i]) <==> packets[i + 1] == Ind(NoSignal)
  {
    PrefixUnbroken(packets, i + 2);
    var two := packets[..i + 2];
    assert two[..i + 1] == packets[..i + 1];
    PrefixUnbroken(packets, i + 1);
    var one := packets[..i + 1];
    assert one[..i] == packets[..i];
  }

  predicate EndsBurst(p: Packet) {
    p == Ind(CedTone) || (p.Data? && (p.field == HdlcSigEnd || p.field == NonEcmSigEnd))
  }
}
