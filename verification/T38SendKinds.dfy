/**
 What the packets of a burst are, told by what the modem asked for: the modulation and its indicator, frames or raw
 data, how many bytes to a packet; and that a closed frame takes nothing more.
*/
module T38SendKinds {
  import opened BitSeq
  import opened EngineTypes
  import opened T38Types
  import opened T38Send
  import opened T38Run
  import opened T38SendSafety

  /** What `SendStart` was called with: the last time it was accepted. */
  datatype Request = NoRequest | Request(dataType: DataType, param: int, hdlcOnly: bool)

  function Requested(q: Request, r: Run, e: Event): Request {
    if e.CallStart? && StartOk(r.tx, e.dataType, e.param, e.hdlcOnly) then Request(e.dataType, e.param, e.hdlcOnly) else q
  }

  function LastRequest(events: seq<Event>): Request {
    if events == [] then NoRequest
    else
      var before := events[..|events| - 1];
      Requested(LastRequest(before), Exec(before), events[|events| - 1])
  }

  /** The row of the table that a burst of data is sent by. */
  predicate RowOf(row: ModRow, q: Request) { row in MODS && q.Request? && IsData(q.dataType) && row.val == q.param }

  /** The image's modulations carry frames when the fax machines have agreed on error correction; V.21 always does. */
  predicate InFrames(row: ModRow, q: Request) { row.mod == V21 || (q.Request? && q.hdlcOnly) }

  lemma {:induction false} RowFound(val: int, i: nat)
    requires i <= |MODS|
    ensures FindFrom(val, i).Some? <==> exists k :: i <= k < |MODS| && MODS[k].val == val
    decreases |MODS| - i
  {
    if i < |MODS| { RowFound(val, i + 1); }
  }

  /** In every run a burst is accepted exactly from an idle modem, and of data exactly with a number of the table. */
  lemma {:induction false} StartIff(events: seq<Event>, dataType: DataType, param: int, hdlcOnly: bool)
    ensures var t := Exec(events).tx;
      StartOk(t, dataType, param, hdlcOnly) <==>
        && t.stateModem == StmIdle
        && (dataType == DtCed || dataType == DtSilence || (IsData(dataType) && exists k :: 0 <= k < |MODS| && MODS[k].val == param))
  {
    hide Exec, FindFrom;
    RowFound(param, 0);
  }

  // ------------------------------------------------------------- the invariant

  /** The parameters of the burst are those of the request. */
  ghost predicate AsRequested(p: OutPars, q: Request) {
    && q.Request? && p.dataType == q.dataType
    && (IsData(q.dataType) ==>
          exists row :: RowOf(row, q) && p.mod == row.mod && p.ind == row.ind && p.br == row.br
                        && p.dataTypeT38 == if InFrames(row, q) then DtHdlc else DtRaw)
    && (!IsData(q.dataType) ==> p.dataTypeT38 == q.dataType)
  }

  /** Bytes in hand are at most 54, and at most 30 ms of the bit rate; frames are never in hand as raw bits. */
  predicate Sized(t: Tx) {
    && (t.pc.Got? && Direct(t.pars) ==> |t.pc.bytes| <= 54 && |t.pc.bytes| * 8000 <= 30 * t.pars.br)
    && (t.pc != Stopped && OnLine(t.stateOut) && t.stateOut != OutIndWait ==>
          t.pars.dataType == DtRaw || t.pars.dataTypeT38 == DtHdlc)
  }

  ghost predicate Fitting(t: Tx, q: Request) { (IsOut(t.stateModem) ==> AsRequested(t.pars, q)) && Sized(t) }

  lemma LenBound(br: nat)
    ensures PacketLen(br) <= 54 && PacketLen(br) * 8000 <= 30 * br
    ensures PacketLen(br) == 54 || (PacketLen(br) + 1) * 8000 > 30 * br
  {
  }

  lemma StepFitting(t: Tx, now: int, signal: bool, o: Oracle, q: Request)
    requires InStep(t) && Fitting(t, q)
    ensures Fitting(Step(t, now, signal, o).tx, q)
  {
    hide AsRequested, PacketLen, DelayEnd, ParsOk;
    LenBound(t.pars.br);
  }

  lemma StartFitting(t: Tx, dataType: DataType, param: int, hdlcOnly: bool)
    requires StartOk(t, dataType, param, hdlcOnly)
    ensures AsRequested(SendStart(t, dataType, param, hdlcOnly).pars, Request(dataType, param, hdlcOnly))
  {
    hide FindFrom;
    var q := Request(dataType, param, hdlcOnly);
    if IsData(dataType) {
      assert RowOf(GetModRow(param).value, q);
    }
  }

  lemma CallFitting(r: Run, e: Event, q: Request)
    requires InStep(r.tx) && Fitting(r.tx, q) && !e.Tick?
    ensures Fitting(Do(r, e).tx, Requested(q, r, e))
  {
    hide AsRequested, ParsOk, PayloadOf, IsLast, ParsFor;
    if e.CallStart? && StartOk(r.tx, e.dataType, e.param, e.hdlcOnly) { StartFitting(r.tx, e.dataType, e.param, e.hdlcOnly); }
  }

  lemma DoFitting(r: Run, e: Event, q: Request)
    requires InStep(r.tx) && Fitting(r.tx, q)
    ensures Fitting(Do(r, e).tx, Requested(q, r, e))
  {
    hide Fitting, InStep, Step;
    if e.Tick? {
      StepFitting(r.tx, r.clock + e.elapsed, e.signal, e.oracle, q);
    } else {
      hide Do;
      CallFitting(r, e, q);
    }
  }

  lemma {:induction false} AlwaysFitting(events: seq<Event>)
    ensures Fitting(Exec(events).tx, LastRequest(events)) && InStep(Exec(events).tx)
  {
    hide Fitting, Requested, InStep, Fits, Do;
    Grammar(events);
    if events == [] {
      NoneFitting();
    } else {
      var before := events[..|events| - 1];
      AlwaysFitting(before);
      DoFitting(Exec(before), events[|events| - 1], LastRequest(before));
    }
  }

  lemma NoneFitting()
    ensures Fitting(INITIAL.tx, NoRequest)
  {
  }

  // ------------------------------------------------------------- what is sent

  /** A field of a frame, and not of raw data. */
  predicate IsFrameField(f: Field) { !f.NonEcmData? && !f.NonEcmSigEnd? }

  /** A packet is of the burst that was asked for: its indicator, or its modulation and the kind of its field. */
  ghost predicate IsOf(p: Packet, q: Request) {
    match p
    case Ind(NoSignal) => true
    case Ind(CngTone) => true
    case Ind(CedTone) => q.Request? && q.dataType == DtCed
    case Ind(Training(_, _)) => exists row :: RowOf(row, q) && p.ind == row.ind
    case Data(mod, field) => exists row :: RowOf(row, q) && mod == row.mod && (IsFrameField(field) <==> InFrames(row, q))
                                           && (q.dataType == DtHdlc ==> InFrames(row, q))
  }

  lemma BeginOf(t: Tx, now: int, q: Request)
    requires InStep(t) && Fitting(t, q) && t.stateOut == OutIdle && IsOut(t.stateModem)
    ensures forall p :: p in Sent(BeginBurst(t, now).effect) ==> IsOf(p, q)
  {
    hide RowOf, InFrames;
  }

  lemma EndOf(t: Tx, o: Oracle, q: Request)
    requires InStep(t) && Fitting(t, q) && t.pc == Looking
    ensures t.stateOut == OutHdlcFcs ==> forall p :: p in Sent(EndConverted(t, o).effect) + Sent(EndFrame(t).effect) ==> IsOf(p, q)
    ensures t.stateOut == OutDataNoSig ==> forall p :: p in Sent(EndBurst(t).effect) ==> IsOf(p, q)
  {
    hide RowOf, InFrames, Direct;
  }

  lemma UseOf(t: Tx, q: Request)
    requires InStep(t) && Fitting(t, q) && t.pc.Got?
    ensures forall p :: p in Sent(Use(t).effect) ==> IsOf(p, q)
  {
    hide RowOf, InFrames, Direct;
  }

  lemma LookOf(t: Tx, now: int, o: Oracle, q: Request)
    requires InStep(t) && Fitting(t, q) && t.pc == Looking
    ensures forall p :: p in Sent(Look(t, now, o).effect) ==> IsOf(p, q)
  {
    hide BeginBurst, EndConverted, EndFrame, EndBurst, Fitting;
    match t.stateOut
    case OutIdle => if IsOut(t.stateModem) { BeginOf(t, now, q); }
    case OutHdlcFcs => EndOf(t, o, q);
    case OutDataNoSig => EndOf(t, o, q);
    case _ =>
  }

  lemma StepOf(t: Tx, now: int, signal: bool, o: Oracle, q: Request)
    requires InStep(t) && Fitting(t, q)
    ensures forall p :: p in Sent(Step(t, now, signal, o).effect) ==> IsOf(p, q)
  {
    hide Look, Use, Fitting, IsOf;
    if t.pc == Looking { LookOf(t, now, o, q); } else if t.pc.Got? { UseOf(t, q); }
  }

  /**
   In every run a packet that goes out is of the burst asked for last: by its number the modulation and the indicator
   of the table, frames if that is V.21 or error correction was agreed on, else raw data. Frames asked for where raw
   data is to go are not sent at all.
  */
  lemma {:induction false} SentAsAsked(events: seq<Event>, elapsed: nat, signal: bool, o: Oracle)
    ensures forall p :: p in Sent(Step(Exec(events).tx, Exec(events).clock + elapsed, signal, o).effect) ==> IsOf(p, LastRequest(events))
  {
    hide Exec, LastRequest, Fitting, InStep, Step, IsOf;
    AlwaysFitting(events);
    StepOf(Exec(events).tx, Exec(events).clock + elapsed, signal, o, LastRequest(events));
  }

  /**
   In every run, of data that goes as it came: a packet has at most 54 bytes and no more than 30 ms of the bit rate, and
   the thread takes as many as it may, in order, off the front of the queue.
  */
  lemma {:induction false} PacketsSized(events: seq<Event>)
    requires var t := Exec(events).tx; Direct(t.pars) && t.pc.Got?
    ensures var t := Exec(events).tx; |t.pc.bytes| <= 54 && |t.pc.bytes| * 8000 <= 30 * t.pars.br
  {
    AlwaysFitting(events);
    hide Exec, InStep, AsRequested;
  }

  lemma {:induction false} PacketsFull(events: seq<Event>, elapsed: nat, signal: bool, o: Oracle)
    requires var t := Exec(events).tx; Direct(t.pars) && t.pc == Looking && t.stateOut == OutData && t.data.attached
    ensures var t, t1 := Exec(events).tx, Step(Exec(events).tx, Exec(events).clock + elapsed, signal, o).tx;
      && t1.pc.Got? && t1.pc.bytes + t1.data.buf == t.data.buf
      && (t1.data.buf == [] || |t1.pc.bytes| == 54 || (|t1.pc.bytes| + 1) * 8000 > 30 * t.pars.br)
      && (t1.pc.count == if t.data.buf == [] && t.data.eof then -1 else |t1.pc.bytes|)
  {
    hide Exec, PacketLen;
    LenBound(Exec(events).tx.pars.br);
  }

  // ------------------------------------------------------------- a closed frame

  predicate EndOfSeq(a: seq<Byte>, b: seq<Byte>) { |a| <= |b| && a == b[|b| - |a|..] }

  predicate StillClosed(t: Tx, t1: Tx) { EndOfSeq(t1.data.buf, t.data.buf) && (!t1.data.eof ==> t1.data.buf == []) }

  lemma ClosedStep(t: Tx, now: int, signal: bool, o: Oracle)
    requires InStep(t) && t.data.eof && Direct(t.pars)
    ensures StillClosed(t, Step(t, now, signal, o).tx)
  {
    hide PacketLen, DelayEnd;
  }

  lemma ClosedCall(r: Run, e: Event)
    requires r.tx.data.eof && !e.Tick?
    ensures StillClosed(r.tx, Do(r, e).tx)
  {
    hide ParsFor, PayloadOf, IsLast, Direct;
  }

  /**
   In every run, when a frame that is sent as it came is closed, by the modem's stop or by its reset, nothing joins it:
   whatever comes next, the queue is the end of what it was, until it is emptied for the next frame or burst.
  */
  lemma {:induction false} ClosedStays(events: seq<Event>, e: Event)
    requires var t := Exec(events).tx; t.data.eof && Direct(t.pars)
    ensures var t, t1 := Exec(events).tx, Do(Exec(events), e).tx;
      EndOfSeq(t1.data.buf, t.data.buf) && (!t1.data.eof ==> t1.data.buf == [])
  {
    hide Exec, Step, InStep, Fits, Direct;
    Grammar(events);
    var r := Exec(events);
    if e.Tick? { ClosedStep(r.tx, r.clock + e.elapsed, e.signal, e.oracle); } else { hide Do; ClosedCall(r, e); }
  }

  // ------------------------------------------------------------- resets and CNG

  /** What the modem wants sent between bursts: what it asked for last, if it was not reset since and the thread has not looked. */
  function Wish(events: seq<Event>): DataType {
    if events == [] then DtNone
    else
      var before := events[..|events| - 1];
      match events[|events| - 1]
      case CallOnIdle(dataType) => dataType
      case CallReset => DtNone
      case Tick(_, _, _) => if AtIdle(Exec(before).tx) then DtNone else Wish(before)
      case _ => Wish(before)
  }

  /** The thread looks for what to do, and there is no burst to send. */
  predicate AtIdle(t: Tx) { t.pc == Looking && t.stateOut == OutIdle && !IsOut(t.stateModem) }

  lemma WishStep(t: Tx, now: int, signal: bool, o: Oracle)
    requires InStep(t)
    ensures var next := Step(t, now, signal, o);
      && next.tx.between.onIdle == (if AtIdle(t) then DtNone else t.between.onIdle)
      && (Sent(next.effect) == [Ind(CngTone)] <==> AtIdle(t) && t.between.onIdle == DtCng)
  {
    hide PacketLen, DelayEnd, Direct;
  }

  lemma WishCall(r: Run, e: Event)
    requires !e.Tick?
    ensures Do(r, e).tx.between.onIdle ==
      match e
      case CallOnIdle(dataType) => dataType
      case CallReset => DtNone
      case _ => r.tx.between.onIdle
  {
    hide ParsFor, PayloadOf, IsLast;
  }

  lemma WishDo(r: Run, e: Event)
    requires InStep(r.tx)
    ensures Do(r, e).tx.between.onIdle ==
      match e
      case CallOnIdle(dataType) => dataType
      case CallReset => DtNone
      case Tick(_, _, _) => if AtIdle(r.tx) then DtNone else r.tx.between.onIdle
      case _ => r.tx.between.onIdle
  {
    hide InStep, Step;
    if e.Tick? { WishStep(r.tx, r.clock + e.elapsed, e.signal, e.oracle); } else { hide Do; WishCall(r, e); }
  }

  lemma {:induction false} WishKept(events: seq<Event>)
    ensures Exec(events).tx.between.onIdle == Wish(events) && InStep(Exec(events).tx)
  {
    Grammar(events);
    if events != [] {
      var before, e := events[..|events| - 1], events[|events| - 1];
      WishKept(before);
      WishDo(Exec(before), e);
      hide InStep, Fits, Do;
    }
  }

  /** In every run CNG goes out exactly when the thread looks with no burst to send, and CNG was the last wish, and no reset withdrew it. */
  lemma {:induction false} CngIff(events: seq<Event>, elapsed: nat, signal: bool, o: Oracle)
    ensures Sent(Step(Exec(events).tx, Exec(events).clock + elapsed, signal, o).effect) == [Ind(CngTone)] <==>
      AtIdle(Exec(events).tx) && Wish(events) == DtCng
  {
    hide Exec, Wish, Step, InStep;
    WishKept(events);
    WishStep(Exec(events).tx, Exec(events).clock + elapsed, signal, o);
  }

  /** In every run a reset frees a modem that does not send; a sending one stays where it is, with its frame closed. */
  lemma {:induction false} ResetFrees(events: seq<Event>)
    ensures var t, t1 := Exec(events).tx, Exec(events + [CallReset]).tx;
      && (t1.stateModem == if t.stateModem == StmOutMoreData || t.stateModem == StmOutNoMoreData then t.stateModem else StmIdle)
      && t1.data.eof && t1.data.buf == t.data.buf && t1.stateOut == t.stateOut && t1.stop.callbackParam == -1
  {
    assert (events + [CallReset])[..|events|] == events;
  }

  /** What the last accepted stop said of more frames to come. */
  predicate MoreSaid(events: seq<Event>) {
    if events == [] then false
    else
      var before, e := events[..|events| - 1], events[|events| - 1];
      if e.CallStop? && StopOk(Exec(before).tx) then e.moreFrames else MoreSaid(before)
  }

  lemma MoreStep(t: Tx, now: int, signal: bool, o: Oracle)
    ensures Step(t, now, signal, o).tx.stop.moreFrames == t.stop.moreFrames
  {
    hide PacketLen, DelayEnd, Direct;
  }

  lemma MoreDo(r: Run, e: Event)
    ensures Do(r, e).tx.stop.moreFrames == if e.CallStop? && StopOk(r.tx) then e.moreFrames else r.tx.stop.moreFrames
  {
    hide Step, ParsFor, PayloadOf, IsLast;
    if e.Tick? { MoreStep(r.tx, r.clock + e.elapsed, e.signal, e.oracle); }
  }

  lemma {:induction false} MoreKept(events: seq<Event>)
    ensures Exec(events).tx.stop.moreFrames == MoreSaid(events)
  {
    if events != [] {
      hide Do;
      MoreKept(events[..|events| - 1]);
      MoreDo(Exec(events[..|events| - 1]), events[|events| - 1]);
    }
  }

  /**
   In every run the thread lets go of the modem exactly when it acknowledges its stop or ends its tone or silence: at the
   end of a frame with more to come the modem may go on, at the end of a burst, a tone or a silence it is idle.
  */
  lemma {:induction false} DoneFrees(events: seq<Event>, elapsed: nat, signal: bool, o: Oracle)
    ensures var t, next := Exec(events).tx, Step(Exec(events).tx, Exec(events).clock + elapsed, signal, o);
      if next.effect.Ack? || next.effect.EmitAck? then
        next.tx.stateModem == (if t.stateOut == OutHdlcFcs then StmOutMoreData else StmIdle) && (t.stateOut == OutHdlcFcs ==> MoreSaid(events))
      else next.tx.stateModem == t.stateModem
    ensures var t, next := Exec(events).tx, Step(Exec(events).tx, Exec(events).clock + elapsed, signal, o);
      t.pc == Looking && t.stateOut == OutHdlcFcs && Direct(t.pars) && t.stateModem == StmOutNoMoreData ==>
        (next.effect.Ack? || next.effect.EmitAck? <==> MoreSaid(events))
  {
    hide Exec, PacketLen, MoreSaid, DelayEnd, Fits;
    MoreKept(events);
    Grammar(events);
  }

  /** In every run the thread looks at the switch once between two delays: after a look it waits for the modem, or comes to the end of the round. */
  lemma {:induction false} LooksOnce(events: seq<Event>, elapsed: nat, signal: bool, o: Oracle)
    requires Exec(events).tx.pc == Looking
    ensures var t1 := Step(Exec(events).tx, Exec(events).clock + elapsed, signal, o).tx;
      t1.pc != Looking && t1.pc != Ready && (t1.pc == Waiting <==> AtIdle(Exec(events).tx) && Wish(events) != DtCng)
  {
    WishKept(events);
    hide Exec, PacketLen, Wish;
  }

  /** In every run the thread waits only with nothing to send; a signal of the modem makes it look again at once, a timeout after a pause. */
  lemma {:induction false} WaitEnds(events: seq<Event>, elapsed: nat, signal: bool, o: Oracle)
    requires Exec(events).tx.pc == Waiting
    ensures var t, t1 := Exec(events).tx, Step(Exec(events).tx, Exec(events).clock + elapsed, signal, o).tx;
      (t.stateOut == OutIdle || t.stateOut == OutData) && t1.pc == (if signal then Looking else Ready)
      && t1.data == t.data && t1.stateOut == t.stateOut
  {
    Grammar(events);
    hide Exec;
  }
}
