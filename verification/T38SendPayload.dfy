/**
 What the modem sends arrives in the packets, whole and in order, in every run of direct sends with
 no reset inside a frame; and in such a run the packet thread never gives up.
*/
module T38SendPayload {
  import opened BitSeq
  import opened EngineTypes
  import opened T38Types
  import opened T38Send
  import opened T38Grammar
  import opened T38Run
  import opened T38SendSafety

  /** The frames of this transmission, the last of them perhaps not closed yet. */
  function AllFrames(m: StateModem, frames: seq<seq<Byte>>, cur: seq<Byte>): seq<seq<Byte>> {
    if m == StmOutNoMoreData then frames else frames + [cur]
  }

  /** The transmission is asked for, and still on its way. */
  function OnTheWay(m: StateModem, dataType: DataType, moreFrames: bool, frames: seq<seq<Byte>>): seq<Payload> {
    if m == StmOutNoMoreData && IsLast(dataType, moreFrames) && frames != [] then [PayloadOf(dataType, frames)] else []
  }

  function Taken(t: Tx): seq<Byte> { if t.pc.Got? then t.pc.bytes else [] }

  /** The EOF flag says whether the modem has closed the frame. */
  predicate EofTells(t: Tx) { t.data.eof <==> t.stateModem == StmOutNoMoreData }

  /** The frames before the last one have arrived whole, and the last one as far as `part`. */
  predicate ArrivedUpTo(all: seq<seq<Byte>>, a: Asm, part: seq<Byte>) {
    all != [] && !a.spoiled && a.frames == NonEmpty(all[..|all| - 1]) && part == all[|all| - 1]
  }

  /** All the frames have arrived. */
  predicate Arrived(dataType: DataType, moreFrames: bool, all: seq<seq<Byte>>, a: Asm) {
    && all != [] && !a.spoiled && IsLast(dataType, moreFrames)
    && if dataType == DtHdlc then a.frames == NonEmpty(all) else a.part == all[|all| - 1]
  }

  /** Case `stOutData`: the bytes of the last frame are in the packets, in the thread's hands and in the buffer. */
  predicate InData(t: Tx, all: seq<seq<Byte>>, a: Asm) {
    && ArrivedUpTo(all, a, a.part + Taken(t) + t.data.buf)
    && (t.pars.dataType == DtHdlc ==> t.countOut == |a.part|)
    && (t.pc == Got(-1, []) <==> !t.data.attached)
    && (t.pc.Got? && t.data.attached ==> t.pc.count == |t.pc.bytes|)
    && (!t.data.attached ==> t.stateModem == StmOutNoMoreData && t.data.buf == [])
  }

  /** Where the bytes of the transmission are. */
  predicate Carried(t: Tx, all: seq<seq<Byte>>, a: Asm) {
    match t.stateOut
    case OutIdle | OutNoSig => EofTells(t) && all == [t.data.buf]
    case OutIndWait => EofTells(t) && all == [t.data.buf] && a.frames == [] && a.part == [] && !a.spoiled
    case OutData => EofTells(t) && InData(t, all, a)
    case OutHdlcFcs =>
      && t.stateModem == StmOutNoMoreData && t.pars.dataType == DtHdlc
      && ArrivedUpTo(all, a, a.part) && t.countOut == |a.part|
    case OutDataNoSig => t.stateModem == StmOutNoMoreData && Arrived(t.pars.dataType, t.stop.moreFrames, all, a)
    case _ => true
  }

  predicate Transmitting(t: Tx) { IsOut(t.stateModem) && IsData(t.pars.dataType) }

  predicate Going(t: Tx, frames: seq<seq<Byte>>, cur: seq<Byte>, a: Asm) {
    var all := AllFrames(t.stateModem, frames, cur);
    Direct(t.pars) && all != [] && (t.pars.dataType == DtRaw ==> |all| == 1)
    && (t.stateModem == StmOutNoMoreData ==> cur == []) && Carried(t, all, a)
  }

  predicate Smooth(r: Run, a: Asm) {
    && r.tx.pc != Stopped
    && r.asked == a.bursts + OnTheWay(r.tx.stateModem, r.tx.pars.dataType, r.tx.stop.moreFrames, r.frames)
    && (Transmitting(r.tx) ==> Going(r.tx, r.frames, r.cur, a))
  }

  ghost predicate Faithful(r: Run) {
    WellFormed(r) && (r.cutShort || r.converted || Smooth(r, AsmOf(r.out)))
  }

  // ------------------------------------------------------------- one step of the thread

  function AsmAfter(a: Asm, effect: Effect): Asm {
    if Sent(effect) == [] then a else NextAsm(a, Sent(effect)[0])
  }

  /** The run `r` after a step with outcome `next`, as far as the payload goes. */
  ghost predicate Goes(r: Run, a: Asm, next: Outcome) {
    next.tx.pc != Stopped && Smooth(r.(tx := next.tx), AsmAfter(a, next.effect))
  }

  lemma BeginBurstGoes(r: Run, now: int, a: Asm)
    requires InStep(r.tx) && Smooth(r, a) && r.tx.stateOut == OutIdle && IsOut(r.tx.stateModem) && r.tx.pc == Looking
    ensures Goes(r, a, BeginBurst(r.tx, now))
  {
  }

  lemma BeginDataGoes(r: Run, now: int, a: Asm)
    requires InStep(r.tx) && Smooth(r, a) && r.tx.stateOut == OutIndWait && r.tx.pc == Looking
    ensures Goes(r, a, BeginData(r.tx, now))
  {
  }

  /** Fetching moves bytes from the buffer to the thread's hands, and says -1 only when all of a closed frame has gone. */
  lemma {:induction false} FetchInData(t: Tx, o: Oracle, all: seq<seq<Byte>>, a: Asm)
    requires t.stateOut == OutData && t.pc == Looking && Direct(t.pars) && EofTells(t) && InData(t, all, a)
    ensures InData(Fetch(t, o), all, a)
  {
    hide NonEmpty, PacketLen;
    var t1 := Fetch(t, o);
    assert a.part + Taken(t1) + t1.data.buf == a.part + Taken(t) + t.data.buf;
  }

  lemma FetchGoes(r: Run, o: Oracle, a: Asm)
    requires InStep(r.tx) && Smooth(r, a) && r.tx.stateOut == OutData && r.tx.pc == Looking
    ensures Goes(r, a, Outcome(Fetch(r.tx, o), Nothing))
  {
    FetchInData(r.tx, o, AllFrames(r.tx.stateModem, r.frames, r.cur), a);
    hide NonEmpty, PayloadOf, OnTheWay, AllFrames, PacketLen, InData;
  }

  lemma UseGoes(r: Run, a: Asm)
    requires InStep(r.tx) && Smooth(r, a) && r.tx.pc.Got?
    ensures Goes(r, a, Use(r.tx))
  {
    hide NonEmpty, PayloadOf, OnTheWay, AllFrames;
  }

  lemma EndFrameGoes(r: Run, a: Asm)
    requires InStep(r.tx) && Smooth(r, a) && r.tx.stateOut == OutHdlcFcs && r.tx.pc == Looking
    ensures Goes(r, a, EndFrame(r.tx))
  {
  }

  lemma EndBurstGoes(r: Run, a: Asm)
    requires InStep(r.tx) && Smooth(r, a) && r.tx.stateOut == OutDataNoSig && r.tx.pc == Looking
    ensures Goes(r, a, EndBurst(r.tx))
  {
  }

  lemma LookGoes(r: Run, now: int, o: Oracle, a: Asm)
    requires InStep(r.tx) && Smooth(r, a) && r.tx.pc == Looking
    ensures Goes(r, a, Look(r.tx, now, o))
  {
    hide BeginBurst, BeginData, Fetch, EndConverted, EndFrame, EndBurst;
    match r.tx.stateOut
    case OutIdle =>
      hide ArrivedUpTo, Arrived, InData;
      if IsOut(r.tx.stateModem) { BeginBurstGoes(r, now, a); }
    case OutIndWait => BeginDataGoes(r, now, a);
    case OutData => hide Goes, InData; FetchGoes(r, o, a);
    case OutHdlcFcs => hide ArrivedUpTo, Arrived, InData; EndFrameGoes(r, a);
    case OutDataNoSig => EndBurstGoes(r, a);
    case _ =>
  }

  /** The delay, the wait for the modem and the next delay move no bytes. */
  lemma PauseGoes(r: Run, now: int, signal: bool, o: Oracle, a: Asm)
    requires InStep(r.tx) && Smooth(r, a) && r.tx.pc != Looking && !r.tx.pc.Got?
    ensures Goes(r, a, Step(r.tx, now, signal, o))
  {
    hide Look, Use, DelayEnd, ArrivedUpTo, Arrived, OnTheWay, AllFrames, NonEmpty;
  }

  lemma StepGoes(r: Run, now: int, signal: bool, o: Oracle, a: Asm)
    requires InStep(r.tx) && Smooth(r, a)
    ensures Goes(r, a, Step(r.tx, now, signal, o))
  {
    if r.tx.pc == Looking {
      LookGoes(r, now, o, a);
    } else if r.tx.pc.Got? {
      UseGoes(r, a);
    } else {
      PauseGoes(r, now, signal, o, a);
    }
    hide Goes, Smooth, InStep, Look, Use, Delay, Wake, Close;
  }

  lemma AsmAfterPush(packets: seq<Packet>, effect: Effect)
    ensures AsmOf(packets + Sent(effect)) == AsmAfter(AsmOf(packets), effect)
  {
    if Sent(effect) == [] {
      assert packets + [] == packets;
    } else {
      GramPush(packets, Sent(effect)[0]);
    }
  }

  lemma TickGoes(r: Run, elapsed: nat, signal: bool, o: Oracle)
    requires InStep(r.tx) && Smooth(r, AsmOf(r.out))
    ensures var r1 := DoTick(r, elapsed, signal, o); Smooth(r1, AsmOf(r1.out))
  {
    hide Step, InStep, AsmOf, Going;
    StepGoes(r, r.clock + elapsed, signal, o, AsmOf(r.out));
    AsmAfterPush(r.out, Step(r.tx, r.clock + elapsed, signal, o).effect);
  }

  // ------------------------------------------------------------- the modem's calls

  lemma StartGoes(r: Run, dataType: DataType, param: int, hdlcOnly: bool, a: Asm)
    requires InStep(r.tx) && Smooth(r, a)
    ensures var r1 := DoStart(r, dataType, param, hdlcOnly); r1.converted || Smooth(r1, a)
  {
    hide ArrivedUpTo, Arrived, InData, NonEmpty, GetModRow;
  }

  /** Bytes put into the queue are bytes of the last frame, which is still open. */
  lemma SendCarried(t: Tx, frames: seq<seq<Byte>>, cur: seq<Byte>, bytes: seq<Byte>, a: Asm)
    requires InStep(t) && SendOk(t) && Carried(t, frames + [cur], a)
    requires t.stateOut == OutHdlcFcs || t.stateOut == OutDataNoSig ==> t.stateModem == StmOutNoMoreData
    ensures Carried(Send(t, bytes), frames + [cur + bytes], a)
  {
    hide NonEmpty, Arrived, Fits;
    var all, all1 := frames + [cur], frames + [cur + bytes];
    assert all1[..|frames|] == frames && all[..|frames|] == frames;
    assert a.part + Taken(t) + (t.data.buf + bytes) == a.part + Taken(t) + t.data.buf + bytes;
  }

  lemma SendGoes(r: Run, bytes: seq<Byte>, a: Asm)
    requires InStep(r.tx) && Smooth(r, a)
    ensures Smooth(DoSend(r, bytes), a)
  {
    if SendOk(r.tx) && Transmitting(r.tx) {
      SendCarried(r.tx, r.frames, r.cur, bytes, a);
    }
    hide NonEmpty, Arrived, PayloadOf, Carried, InStep;
  }

  lemma StopGoes(r: Run, moreFrames: bool, callbackParam: int, a: Asm)
    requires InStep(r.tx) && Smooth(r, a)
    ensures Smooth(DoStop(r, moreFrames, callbackParam), a)
  {
    hide NonEmpty, Arrived, PayloadOf, ArrivedUpTo;
  }

  lemma ResetGoes(r: Run, a: Asm)
    requires InStep(r.tx) && Smooth(r, a) && r.tx.stateModem != StmOutMoreData
    ensures Smooth(DoReset(r), a)
  {
    hide NonEmpty, Arrived, PayloadOf, ArrivedUpTo;
  }

  /** What the modem wants between bursts, and the receive side. */
  lemma OtherGoes(r: Run, e: Event, a: Asm)
    requires Smooth(r, a) && (e.CallOnIdle? || e.Carrier? || e.Receive?)
    ensures Smooth(Do(r, e), a)
  {
    hide NonEmpty, PayloadOf;
  }

  lemma CallGoes(r: Run, e: Event, a: Asm)
    requires InStep(r.tx) && Smooth(r, a) && !e.Tick? && !r.cutShort && !r.converted
    ensures var r1 := Do(r, e); r1.out == r.out && (r1.cutShort || r1.converted || Smooth(r1, a))
  {
    hide Smooth, InStep, SendStart, Send, SendStop, PayloadOf, IsLast;
    match e
    case CallStart(dataType, param, hdlcOnly) => StartGoes(r, dataType, param, hdlcOnly, a);
    case CallSend(bytes) => SendGoes(r, bytes, a);
    case CallStop(moreFrames, callbackParam) => StopGoes(r, moreFrames, callbackParam, a);
    case CallReset => if r.tx.stateModem != StmOutMoreData { ResetGoes(r, a); }
    case _ => OtherGoes(r, e, a);
  }

  lemma DoGoes(r: Run, e: Event)
    requires Faithful(r)
    ensures Faithful(Do(r, e))
  {
    hide WellFormed, AsmOf, Smooth, InStep, Fits, GramOf;
    DoKeeps(r, e);
    InStepOf(r);
    if e.Tick? {
      if !r.cutShort && !r.converted { TickGoes(r, e.elapsed, e.signal, e.oracle); }
      hide Step;
    } else {
      if !r.cutShort && !r.converted { CallGoes(r, e, AsmOf(r.out)); } else { Tainted(r, e); }
      hide Do;
    }
  }

  lemma InStepOf(r: Run)
    requires WellFormed(r)
    ensures InStep(r.tx)
  {
  }

  lemma Tainted(r: Run, e: Event)
    requires r.cutShort || r.converted
    ensures Do(r, e).cutShort || Do(r, e).converted
  {
    hide SendStart, Step, PayloadOf, IsLast;
  }

  /**
   In every run of direct sends with no reset inside a frame, the payloads of the bursts that were
   sent are those the modem asked for, in order, each exact; only the last may still be on its way.
   Such a run never stops the packet thread.
  */
  lemma {:induction false} Delivered(events: seq<Event>)
    ensures var r := Exec(events);
      Faithful(r) &&
      (!r.cutShort && !r.converted ==>
        r.tx.pc != Stopped
        && r.asked == AsmOf(r.out).bursts + OnTheWay(r.tx.stateModem, r.tx.pars.dataType, r.tx.stop.moreFrames, r.frames))
  {
    if events != [] {
      hide Do, Smooth;
      var before := events[..|events| - 1];
      Delivered(before);
      DoGoes(Exec(before), events[|events| - 1]);
    }
  }
}
