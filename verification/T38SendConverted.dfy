/**
 Raw line bits that the modem wants sent as frames, after the codec has made frames of them: in every run the packets
 carry what the codec says, piece by piece, with the outcome of its check after each frame.
*/
module T38SendConverted {
  import opened BitSeq
  import opened EngineTypes
  import opened T38Types
  import opened T38Send
  import opened T38Grammar
  import opened T38Run
  import opened T38SendSafety

  /** The fields of the burst on the line: those after the last indicator. */
  function BodyOf(packets: seq<Packet>): seq<Field> {
    if packets == [] || packets[|packets| - 1].Ind? then []
    else BodyOf(packets[..|packets| - 1]) + [packets[|packets| - 1].field]
  }

  /** Raw bits are sent as frames. */
  predicate Converts(p: OutPars) { p.dataType == DtRaw && p.dataTypeT38 == DtHdlc }

  predicate OpenFrame(said: seq<Field>) { said != [] && said[|said| - 1].HdlcData? }

  /** What the codec has said of this burst: bytes, and at the end of each frame that had any, whether its check was right. */
  function Heard(said: seq<Field>, t: Tx, o: Oracle): seq<Field> {
    if t.pc != Looking then said
    else
      match t.stateOut
      case OutIndWait => []
      case OutData => if o.bytes != [] then said + [HdlcData(o.bytes)] else said
      case OutHdlcFcs => if OpenFrame(said) then said + [if o.fcsOk then HdlcFcsOk else HdlcFcsBad] else said
      case _ => said
  }

  function SaidOf(events: seq<Event>): seq<Field> {
    if events == [] then []
    else
      var before, e := events[..|events| - 1], events[|events| - 1];
      SaidThen(SaidOf(before), Exec(before), e)
  }

  /** What the thread has got of the codec and not sent yet. */
  function InHand(t: Tx): seq<Field> { if t.pc.Got? && t.pc.bytes != [] then [HdlcData(t.pc.bytes)] else [] }

  predicate OnBody(t: Tx) { t.stateOut == OutData || t.stateOut == OutHdlcFcs || t.stateOut == OutDataNoSig }

  predicate AsSaid(t: Tx, body: seq<Field>, said: seq<Field>) {
    && (t.stateOut == OutIndWait ==> body == [])
    && (OnBody(t) && Converts(t.pars) ==>
          body + InHand(t) == said && (t.countOut > 0 <==> OpenFrame(body)) && (t.stateOut != OutData ==> InHand(t) == []))
  }

  function BodyAfter(body: seq<Field>, effect: Effect): seq<Field> {
    if Sent(effect) == [] then body else if Sent(effect)[0].Ind? then [] else body + [Sent(effect)[0].field]
  }

  lemma BodyPush(packets: seq<Packet>, effect: Effect)
    ensures BodyOf(packets + Sent(effect)) == BodyAfter(BodyOf(packets), effect)
  {
    if Sent(effect) == [] {
      assert packets + [] == packets;
    } else {
      assert (packets + Sent(effect))[..|packets|] == packets;
    }
  }

  lemma LookSaid(t: Tx, now: int, o: Oracle, body: seq<Field>, said: seq<Field>)
    requires InStep(t) && AsSaid(t, body, said) && t.pc == Looking
    ensures var next := Look(t, now, o); AsSaid(next.tx, BodyAfter(body, next.effect), Heard(said, t, o))
  {
    hide PacketLen;
    match t.stateOut
    case OutData => assert body + [] == body;
    case OutHdlcFcs => assert body + [] == body;
    case _ =>
  }

  lemma StepSaid(t: Tx, now: int, signal: bool, o: Oracle, body: seq<Field>, said: seq<Field>)
    requires InStep(t) && AsSaid(t, body, said)
    ensures var next := Step(t, now, signal, o); AsSaid(next.tx, BodyAfter(body, next.effect), Heard(said, t, o))
  {
    hide Look;
    if t.pc == Looking { LookSaid(t, now, o, body, said); }
    assert body + [] == body;
  }

  lemma CallSaid(r: Run, e: Event, body: seq<Field>, said: seq<Field>)
    requires InStep(r.tx) && AsSaid(r.tx, body, said) && !e.Tick?
    ensures AsSaid(Do(r, e).tx, body, said) && Do(r, e).out == r.out
  {
    hide ParsFor, PayloadOf, IsLast, ParsOk;
  }

  /** What the codec has said after one more event. */
  function SaidThen(said: seq<Field>, r: Run, e: Event): seq<Field> { if e.Tick? then Heard(said, r.tx, e.oracle) else said }

  lemma DoSaid(r: Run, e: Event, said: seq<Field>)
    requires WellFormed(r) && AsSaid(r.tx, BodyOf(r.out), said)
    ensures AsSaid(Do(r, e).tx, BodyOf(Do(r, e).out), SaidThen(said, r, e))
  {
    hide Step, AsSaid, Heard, BodyOf, GramOf, Fits, InStep;
    if e.Tick? {
      StepSaid(r.tx, r.clock + e.elapsed, e.signal, e.oracle, BodyOf(r.out), said);
      BodyPush(r.out, Step(r.tx, r.clock + e.elapsed, e.signal, e.oracle).effect);
    } else {
      CallSaid(r, e, BodyOf(r.out), said);
      hide Do;
    }
  }

  /**
   In every run, while a burst of converted data is on the line: its fields so far, and what the thread has in hand, are
   what the codec has said of it, in order: the bytes of each frame, and after them fcs-ok if its check was right, else
   fcs-bad.
  */
  lemma {:induction false} SentAsSaid(events: seq<Event>)
    ensures var r := Exec(events); OnBody(r.tx) && Converts(r.tx.pars) ==> BodyOf(r.out) + InHand(r.tx) == SaidOf(events)
    ensures AsSaid(Exec(events).tx, BodyOf(Exec(events).out), SaidOf(events))
  {
    if events != [] {
      var before, e := events[..|events| - 1], events[|events| - 1];
      SentAsSaid(before);
      Grammar(before);
      DoSaid(Exec(before), e, SaidOf(before));
      hide Do, WellFormed, Heard, BodyOf, InHand;
    }
  }

  // ------------------------------------------------------------- when frames and bursts end

  lemma Then(events: seq<Event>, e: Event)
    ensures Exec(events + [e]) == Do(Exec(events), e)
  {
    assert (events + [e])[..|events|] == events;
    hide Do;
  }

  /**
   In every run, raw bits sent as frames: the queue and the count of line bytes are left as the codec says; a frame ends
   exactly when the codec has no more bytes and says so, and with nothing said at all the thread waits for the modem.
  */
  lemma {:induction false} CodecFollowed(events: seq<Event>, e: Event, e1: Event)
    requires var t := Exec(events).tx; t.pc == Looking && t.stateOut == OutData && Converts(t.pars) && e.Tick? && e1.Tick?
    ensures var t2, o := Exec(events + [e] + [e1]).tx, e.oracle;
      && t2.data.buf == o.rest && t2.pace.rawCount == o.rawCount
      && (t2.stateOut == if o.bytes == [] && o.ended then OutHdlcFcs else OutData)
      && (t2.pc == Waiting <==> o.bytes == [] && !o.ended)
  {
    Then(events, e);
    Then(events + [e], e1);
    Grammar(events);
    hide Exec, Fits, GramOf, PacketLen;
  }

  /** And in every run, after the end of a frame, the next one begins, or the burst ends exactly if the codec says that there is none. */
  lemma {:induction false} FrameFollowed(events: seq<Event>, e: Event)
    requires var t := Exec(events).tx; t.pc == Looking && t.stateOut == OutHdlcFcs && Converts(t.pars) && e.Tick?
    ensures var t1, o := Exec(events + [e]).tx, e.oracle;
      t1.data.buf == o.rest && t1.pace.rawCount == o.rawCount && t1.stateOut == if o.ended then OutDataNoSig else OutData
  {
    Then(events, e);
    Grammar(events);
    hide Exec, Fits, GramOf;
  }
}
