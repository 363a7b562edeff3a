/**
 What the modem is given is what it asked for: the modulation and the kind of data of its last request; and the wait
 for silence, which any end of signal ends, and nothing else that comes.
*/
module T38RecvAsked {
  import opened BitSeq
  import opened EngineTypes
  import opened T38Types
  import opened T38Send
  import opened T38Recv
  import opened T38RecvSafety

  /** What `RecvWait` was called with: the last time it was accepted, for data. */
  datatype Request = NoRequest | Request(dataType: DataType, param: int, hdlcOnly: bool)

  function Requested(q: Request, r: Rx, e: RxEvent): Request {
    if e.AskWait? && IsData(e.dataType) && WaitOk(r, e.dataType, e.param) then Request(e.dataType, e.param, e.hdlcOnly) else q
  }

  function LastRequest(events: seq<RxEvent>): Request {
    if events == [] then NoRequest
    else
      var before := events[..|events| - 1];
      Requested(LastRequest(before), RxExec(before), events[|events| - 1])
  }

  /** The row of the table with the number of the request. */
  predicate RowOf(row: ModRow, q: Request) { row in MODS && q.Request? && IsData(q.dataType) && row.val == q.param }

  lemma {:induction false} RowFound(val: int, i: nat)
    requires i <= |MODS|
    ensures FindFrom(val, i).Some? <==> exists k :: i <= k < |MODS| && MODS[k].val == val
    decreases |MODS| - i
  {
    if i < |MODS| { RowFound(val, i + 1); }
  }

  lemma Then(events: seq<RxEvent>, e: RxEvent)
    ensures RxExec(events + [e]) == RxDo(RxExec(events), e)
    ensures LastRequest(events + [e]) == Requested(LastRequest(events), RxExec(events), e)
  {
    assert (events + [e])[..|events|] == events;
    hide RxDo, Requested;
  }

  /**
   In every run a wait for data is accepted exactly from an idle modem with a number of the table: it has something to
   read at once, or waits; a wait for silence exactly from an idle modem: it waits or is done; and a refused one
   changes nothing.
  */
  lemma {:induction false} WaitIff(events: seq<RxEvent>, dataType: DataType, param: int, hdlcOnly: bool)
    ensures var r, r1 := RxExec(events), RxExec(events + [AskWait(dataType, param, hdlcOnly)]);
      if r.stateModem == StmIdle && IsData(dataType) && exists k :: 0 <= k < |MODS| && MODS[k].val == param then
        r1.stateModem == StmReady(r1.streams) && r1.streams.inn.Some?
      else if r.stateModem == StmIdle && dataType == DtSilence then
        r1.stateModem == StmIdle || r1.stateModem == StmInWaitSilence
      else r1 == r
  {
    var r, e := RxExec(events), AskWait(dataType, param, hdlcOnly);
    RowFound(param, 0);
    Then(events, e);
    ReceiveBuffers(events);
    hide RxExec, FindFrom;
    if WaitOk(r, dataType, param) && IsData(dataType) { TakenReady(r.streams, GetModRow(param).value, WantOf(dataType, GetModRow(param).value, hdlcOnly)); }
    hide TakeStream, StreamsOk, StateOk, WantOf;
  }

  /** The modem is told that there is something to read exactly if there is. */
  function StmReady(ss: Streams): StateModem {
    if ss.inn.Some? && ss.inn.value.queue != [] then StmInReadyData else StmInWaitData
  }

  lemma TakenReady(ss: Streams, row: ModRow, want: Want)
    requires StreamsOk(ss)
    ensures var s1 := TakeStream(ss, row, want);
      s1.inn.Some? && (s1.inn.value.queue != [] <==> Continues(ss, row) || ss.saved.Some?)
  {
  }

  // ------------------------------------------------------------- the stream is of the request

  /** The stream is still there as it was asked for, or is gone. */
  predicate SameAsked(s: Option<Stream>, s1: Option<Stream>) {
    s1.None? || (s.Some? && s1.value.row == s.value.row && s1.value.want == s.value.want)
  }

  lemma FieldSame(ss: Streams, t: Target, f: RxField)
    requires Points(ss, t)
    ensures Points(PutField(ss, t, f), t) && Points(PutField(ss, t, f), Nowhere)
    ensures SameAsked(ss.inn, PutField(ss, t, f).inn) && (ss.inn.Some? ==> PutField(ss, t, f).inn.Some?)
  {
    hide Touch;
  }

  lemma {:induction false} FieldsSame(r: Rx, t: Target, fields: seq<RxField>)
    requires Points(r.streams, t)
    ensures var r1 := HandleFields(r, t, fields);
      SameAsked(r.streams.inn, r1.streams.inn) && (r.streams.inn.Some? ==> r1.streams.inn.Some?)
      && (r1.stateModem == r.stateModem || (r.stateModem == StmInWaitSilence && r1.stateModem == StmIdle))
    decreases |fields|
  {
    hide PutField, EndsSignal;
    if fields != [] {
      var f := fields[0];
      FieldSame(r.streams, t, f);
      var r1 := r.(streams := PutField(r.streams, t, f), countIn := r.countIn + |f.data|);
      if !EndsSignal(f.kind) {
        FieldsSame(r1, t, fields[1..]);
      } else if r.stateModem != StmInWaitSilence {
        FieldsSame(r1.(carrierIn := 0), Nowhere, fields[1..]);
      }
    }
  }

  lemma {:induction false} ConvertedSame(s: Stream, says: seq<Converted>)
    requires s.first.Some?
    ensures var s1 := GetConverted(s, says).stream; s1.row == s.row && s1.want == s.want
    decreases says
  {
    if says != [] && !says[0].More? && s.queue != [] { ConvertedSame(PopBuf(s), says[1..]); }
  }

  /** No one but `RecvWait` changes what the stream was asked for as; and a modem that receives has one. */
  lemma OtherSame(r: Rx, e: RxEvent)
    requires RxOk(r) && !e.AskWait?
    ensures var r1 := RxDo(r, e);
      SameAsked(r.streams.inn, r1.streams.inn) && (IsIn(r1.stateModem) ==> IsIn(r.stateModem))
  {
    hide HandleFields, GetConverted, ApplyTo, Touch, TakeStream, FindInd, StreamsOk;
    match e
    case Arrive(p) => if r.pc == Rest { ArriveSame(r, p); }
    case GoOn =>
      if r.pc.Fields? { FieldsSame(r, Nowhere, r.pc.fields); } else if r.pc.Broken? { Ind2Same(r, r.pc.ind); }
    case AskRecv(count, says) =>
      if r.streams.inn.Some? && r.streams.inn.value.first.Some? { ConvertedSame(r.streams.inn.value, says); }
    case Lost => ToSame(r.streams, TargetOf(r.streams), Mark({BadFcs}));
    case _ =>
  }

  lemma ToSame(ss: Streams, t: Target, c: Change)
    requires Points(ss, t)
    ensures SameAsked(ss.inn, ApplyTo(ss, t, c).inn) && (ss.inn.Some? ==> ApplyTo(ss, t, c).inn.Some?) && Points(ApplyTo(ss, t, c), t)
    ensures t == ToIn && c.Shut? ==> !Open(ApplyTo(ss, t, c).inn)
  {
    hide Touch;
  }

  lemma Ind2Same(r: Rx, ind: Indicator)
    ensures var r1 := HandleInd2(r, ind);
      SameAsked(r.streams.inn, r1.streams.inn) && (IsIn(r1.stateModem) ==> IsIn(r.stateModem))
  {
    hide Touch, FindInd;
  }

  lemma ArriveSame(r: Rx, p: RxPacket)
    requires r.pc == Rest
    ensures var r1 := HandlePacket(r, p);
      SameAsked(r.streams.inn, r1.streams.inn) && (IsIn(r1.stateModem) ==> IsIn(r.stateModem))
  {
    hide HandleFields, HandleInd2, ApplyTo;
    match p
    case RxInd(ind) =>
      Ind2Same(r, ind);
      if Open(r.streams.inn) {
        var r1 := r.(streams := ApplyTo(r.streams, ToIn, Shut({OutOfOrder, NoCarrier})));
        ToSame(r.streams, ToIn, Shut({OutOfOrder, NoCarrier}));
        Ind2Same(r1, ind);
      }
    case RxData(mod, fields) =>
      var t := TargetOf(r.streams);
      FieldsSame(r, t, fields);
      ToSame(r.streams, t, Shut({OutOfOrder, NoCarrier}));
      FieldsSame(r.(streams := ApplyTo(r.streams, t, Shut({OutOfOrder, NoCarrier}))), Nowhere, fields);
  }

  /**
   The stream that the modem waits for or reads has the modulation asked for; its data is wanted as it was asked for, and
   comes in frames from V.21 and where error correction was agreed on.
  */
  ghost predicate IsAsked(s: Option<Stream>, q: Request) {
    s.Some? ==>
      && q.Request? && s.value.want.dataType == q.dataType
      && exists row :: RowOf(row, q) && s.value.row.mod == row.mod
                       && s.value.want.dataTypeT38 == if row.mod == V21 || q.hdlcOnly then DtHdlc else DtRaw
  }

  lemma WaitAsked(r: Rx, dataType: DataType, param: int, hdlcOnly: bool)
    requires IsData(dataType) && WaitOk(r, dataType, param)
    ensures IsAsked(RecvWait(r, dataType, param, hdlcOnly).streams.inn, Request(dataType, param, hdlcOnly))
  {
    hide FindFrom, TakeStream, Continues;
    var row := GetModRow(param).value;
    assert RowOf(row, Request(dataType, param, hdlcOnly));
    TakenIs(r.streams, row, WantOf(dataType, row, hdlcOnly));
  }

  lemma TakenIs(ss: Streams, row: ModRow, want: Want)
    ensures var s1 := TakeStream(ss, row, want); s1.inn.Some? && s1.inn.value.row.mod == row.mod && s1.inn.value.want == want
  {
    hide Touch;
  }

  lemma DoAsked(r: Rx, e: RxEvent, q: Request)
    requires RxOk(r) && IsAsked(r.streams.inn, q)
    ensures IsAsked(RxDo(r, e).streams.inn, Requested(q, r, e))
  {
    if e.AskWait? {
      hide IsAsked, TakeStream;
      if IsData(e.dataType) && WaitOk(r, e.dataType, e.param) { WaitAsked(r, e.dataType, e.param, e.hdlcOnly); }
      NoneAsked(Requested(q, r, e));
    } else {
      OtherSame(r, e);
      hide RxDo;
    }
  }

  lemma NoneAsked(q: Request)
    ensures IsAsked(None, q)
  {
  }

  /** In every run the stream that the modem has is of its last request. */
  lemma {:induction false} GivenAsAsked(events: seq<RxEvent>)
    ensures IsAsked(RxExec(events).streams.inn, LastRequest(events))
  {
    hide IsAsked, RxDo, Requested;
    if events == [] {
      NoneAsked(NoRequest);
    } else {
      var before := events[..|events| - 1];
      GivenAsAsked(before);
      ReceiveBuffers(before);
      DoAsked(RxExec(before), events[|events| - 1], LastRequest(before));
    }
  }

  // ------------------------------------------------------------- the end of receiving

  /**
   In every run a modem that stops receiving, or is reset, is idle, and the buffer that it was reading is gone; a sending
   one stays where it is.
  */
  lemma {:induction false} StopFrees(events: seq<RxEvent>)
    ensures var r, r1, r2 := RxExec(events), RxExec(events + [AskStop]), RxExec(events + [AskReset]);
      && (r.stateModem == StmInWaitData || r.stateModem == StmInReadyData || r.stateModem == StmInRecvData ==> r1.stateModem == StmIdle)
      && (!IsOut(r.stateModem) ==> r2.stateModem == StmIdle)
      && (r1.streams.inn.Some? ==> r1.streams.inn.value.first == None) && (r2.streams.inn.Some? ==> r2.streams.inn.value.first == None)
      && (IsOut(r.stateModem) || r.stateModem == StmInWaitSilence ==> r1 == r) && (IsOut(r.stateModem) ==> r2.stateModem == r.stateModem)
  {
    hide RxExec, RxOk, RecvStop, RxReset, LastRequest, Requested;
    Then(events, AskStop);
    Then(events, AskReset);
    ReceiveBuffers(events);
    StopIs(RxExec(events));
  }

  lemma StopIs(r: Rx)
    requires RxOk(r)
    ensures var r1, r2 := RecvStop(r), RxReset(r);
      && (r.stateModem == StmInWaitData || r.stateModem == StmInReadyData || r.stateModem == StmInRecvData ==> r1.stateModem == StmIdle)
      && (!IsOut(r.stateModem) ==> r2.stateModem == StmIdle)
      && (r1.streams.inn.Some? ==> r1.streams.inn.value.first == None) && (r2.streams.inn.Some? ==> r2.streams.inn.value.first == None)
      && (IsOut(r.stateModem) || r.stateModem == StmInWaitSilence ==> r1 == r) && (IsOut(r.stateModem) ==> r2.stateModem == r.stateModem)
  {
    hide StreamsOk, All;
  }

  // ------------------------------------------------------------- silence

  /** A modem that waits for silence has no stream, and none is saved. */
  predicate NoneHeld(r: Rx) { r.stateModem == StmInWaitSilence ==> r.streams.inn == None && r.streams.saved == None }

  lemma {:induction false} FieldsNone(r: Rx, fields: seq<RxField>)
    requires r.streams.inn == None && r.streams.saved == None && r.stateModem == StmInWaitSilence
    ensures var r1 := HandleFields(r, Nowhere, fields);
      && r1.streams == r.streams
      && r1.stateModem == (if exists i :: 0 <= i < |fields| && Ends(fields[i].kind) then StmIdle else StmInWaitSilence)
    decreases |fields|
  {
    if fields != [] && !Ends(fields[0].kind) {
      FieldsNone(r.(countIn := r.countIn + |fields[0].data|), fields[1..]);
      assert forall i :: 1 <= i < |fields| ==> fields[i] == fields[1..][i - 1];
    }
  }

  /** The field is an end of signal, with or without the end of a frame. */
  predicate Ends(k: FieldKind) { k == FHdlcSigEnd || k == FNonEcmSigEnd || k == FFcsOkSigEnd || k == FFcsBadSigEnd }

  lemma SilenceDo(r: Rx, e: RxEvent)
    requires RxOk(r) && NoneHeld(r)
    ensures NoneHeld(RxDo(r, e))
  {
    hide TakeStream, GetConverted, ApplyTo, HandleFields, FindInd, Touch;
    match e
    case Arrive(p) =>
      if r.pc == Rest {
        if r.stateModem == StmInWaitSilence { SilencePacket(r, p); } else { NotSilent(r, p); }
        hide HandlePacket;
      }
    case GoOn =>
      if r.pc.Fields? && r.stateModem == StmInWaitSilence { FieldsNone(r, r.pc.fields); }
      else if r.pc.Fields? { FieldsState(r, Nowhere, r.pc.fields); }
    case _ =>
  }

  lemma FieldsState(r: Rx, t: Target, fields: seq<RxField>)
    requires Points(r.streams, t) && r.stateModem != StmInWaitSilence
    ensures HandleFields(r, t, fields).stateModem != StmInWaitSilence
  {
    FieldsSame(r, t, fields);
  }

  lemma NotSilent(r: Rx, p: RxPacket)
    requires r.stateModem != StmInWaitSilence && r.pc == Rest
    ensures HandlePacket(r, p).stateModem != StmInWaitSilence
  {
    hide HandleFields, FindInd, Offer;
    match p
    case RxInd(_) =>
    case RxData(mod, fields) =>
      var t := TargetOf(r.streams);
      FieldsState(r, t, fields);
      ToSame(r.streams, t, Shut({OutOfOrder, NoCarrier}));
      FieldsState(r.(streams := ApplyTo(r.streams, t, Shut({OutOfOrder, NoCarrier}))), Nowhere, fields);
  }

  /** What ends a wait for silence: any indicator that the engine knows, and any end of signal. */
  predicate EndsSilence(p: RxPacket) {
    match p
    case RxInd(ind) => !ind.Training? || IsTraining(ind)
    case RxData(_, fields) => exists i :: 0 <= i < |fields| && Ends(fields[i].kind)
  }

  lemma SilencePacket(r: Rx, p: RxPacket)
    requires NoneHeld(r) && r.stateModem == StmInWaitSilence && r.pc == Rest
    ensures HandlePacket(r, p).stateModem == if EndsSilence(p) then StmIdle else StmInWaitSilence
    ensures NoneHeld(HandlePacket(r, p))
  {
    hide HandleFields, FindInd, Offer;
    match p
    case RxInd(ind) => FoundByInd(ind);
    case RxData(mod, fields) => FieldsNone(r, fields);
  }

  lemma {:induction false} AlwaysNoneHeld(events: seq<RxEvent>)
    ensures NoneHeld(RxExec(events))
  {
    if events != [] {
      var before := events[..|events| - 1];
      AlwaysNoneHeld(before);
      ReceiveBuffers(before);
      hide RxDo, NoneHeld;
      SilenceDo(RxExec(before), events[|events| - 1]);
    }
  }

  /** In every run a modem that waits for silence goes on waiting exactly until an indicator or an end of signal comes, or the line is gone. */
  lemma {:induction false} SilenceEnds(events: seq<RxEvent>, p: RxPacket)
    requires RxExec(events).stateModem == StmInWaitSilence && RxExec(events).pc == Rest
    ensures RxExec(events + [Arrive(p)]).stateModem == if EndsSilence(p) then StmIdle else StmInWaitSilence
    ensures RxExec(events + [LineDown] + [LineDownCallback]).stateModem == StmIdle
  {
    hide RxExec, HandlePacket, EndsSilence;
    AlwaysNoneHeld(events);
    Then(events, Arrive(p));
    SilencePacket(RxExec(events), p);
    Then(events, LineDown);
    Then(events + [LineDown], LineDownCallback);
  }

  // ------------------------------------------------------------- reading

  /** In every run a modem that is not receiving is given nothing, and changes nothing by asking. */
  lemma {:induction false} NotGiven(events: seq<RxEvent>, count: nat, says: seq<Converted>)
    requires RxExec(events).stateModem != StmInRecvData
    ensures RecvAnswer(RxExec(events), count, says) == Answer(-1, []) && RxExec(events + [AskRecv(count, says)]) == RxExec(events)
  {
    Then(events, AskRecv(count, says));
    hide RxExec, GetData;
  }

  /** Data is wanted as it comes: frames as frames, or raw data as raw data. */
  predicate AsItComes(s: Stream) { s.want.dataType == s.want.dataTypeT38 }

  /**
   In every run a modem that receives data as it comes is given the first bytes of the buffer that it reads, as many as it
   asks for and there are; -1 exactly at the end of a closed one, and 0 while there are none yet.
  */
  lemma {:induction false} GivenIff(events: seq<RxEvent>, count: nat, says: seq<Converted>)
    requires var r := RxExec(events); r.stateModem == StmInRecvData && r.streams.inn.Some? && r.streams.inn.value.first.Some? && AsItComes(r.streams.inn.value)
    ensures var st, a := RxExec(events).streams.inn.value, RecvAnswer(RxExec(events), count, says);
      var b := st.first.value;
      && |a.bytes| == (if count < |b.bytes| then count else |b.bytes|) && a.bytes == b.bytes[..|a.bytes|]
      && (a.count == -1 <==> b.bytes == [] && b.eof) && (a.count != -1 ==> a.count == |a.bytes|)
      && RxExec(events + [AskRecv(count, says)]).streams.inn == Some(st.(first := Some(b.(bytes := b.bytes[|a.bytes|..]))))
  {
    hide RxExec, LastRequest, Requested, RecvAnswer, Recv, Read;
    Then(events, AskRecv(count, says));
    PlainGiven(RxExec(events), count, says);
    ReadIs(RxExec(events).streams.inn.value.first.value, count);
  }

  lemma PlainGiven(r: Rx, count: nat, says: seq<Converted>)
    requires r.stateModem == StmInRecvData && r.streams.inn.Some? && r.streams.inn.value.first.Some? && AsItComes(r.streams.inn.value)
    ensures var st, a := r.streams.inn.value, RecvAnswer(r, count, says);
      && a == Read(st.first.value, count) && |a.bytes| <= |st.first.value.bytes|
      && Recv(r, count, says).streams.inn == Some(st.(first := Some(st.first.value.(bytes := st.first.value.bytes[|a.bytes|..]))))
  {
    hide GetConverted;
  }

  lemma ReadIs(b: Buf, count: nat)
    ensures var a := Read(b, count);
      && |a.bytes| == (if count < |b.bytes| then count else |b.bytes|) && a.bytes == b.bytes[..|a.bytes|]
      && (a.count == -1 <==> b.bytes == [] && b.eof) && (a.count != -1 ==> a.count == |a.bytes|)
  {
  }

  /** In every run there is nothing to give once the last buffer was left for one to come, nor of raw data that is wanted as frames. */
  lemma {:induction false} NothingToGive(events: seq<RxEvent>, count: nat, says: seq<Converted>)
    requires var r := RxExec(events); r.stateModem == StmInRecvData && r.streams.inn.Some?
    requires var st := RxExec(events).streams.inn.value; st.first == None || (!AsItComes(st) && !(st.want.dataType == DtRaw && st.want.dataTypeT38 == DtHdlc))
    ensures RecvAnswer(RxExec(events), count, says) == Answer(-1, []) && RxExec(events + [AskRecv(count, says)]) == RxExec(events)
  {
    Then(events, AskRecv(count, says));
    hide RxExec, GetConverted;
  }

  /** How many frames the codec says are at their end before it says more bytes. */
  function Ended(says: seq<Converted>): (k: nat)
    ensures k <= |says| && (k < |says| ==> says[k].More?)
  {
    if says == [] || says[0].More? then 0 else 1 + Ended(says[1..])
  }

  /** The stream with only the buffers from `k` on, the first of them being read. */
  predicate From(s: Stream, bs: seq<Buf>, k: nat) { k < |bs| && s.first == Some(bs[k]) && s.queue == bs[k + 1..] }

  /**
   Frames that are read as raw bits: one after the other, each left for the next one when the codec is at its end. Past
   the last one there is an end of the data only if the signal has ended; else the modem has to wait.
  */
  lemma {:induction false} ConvertedIs(s: Stream, says: seq<Converted>)
    requires s.first.Some?
    ensures var k, bs, v := Ended(says), All(s), GetConverted(s, says);
      if k >= |bs| then
        var last := bs[|bs| - 1];
        if NoCarrier in last.diag then v.answer == Answer(-1, []) && From(v.stream, bs, |bs| - 1)
        else v.answer == Answer(0, []) && v.stream.first == None && v.stream.queue == []
      else if k < |says| then
        v.answer == Answer(|says[k].bytes|, says[k].bytes) && From(v.stream, bs[k := bs[k].(bytes := says[k].rest)], k)
      else v.answer == Answer(0, []) && From(v.stream, bs, k)
    decreases says
  {
    if says != [] && !says[0].More? && s.queue != [] {
      assert All(PopBuf(s)) == All(s)[1..];
      ConvertedIs(PopBuf(s), says[1..]);
    }
  }

  // ------------------------------------------------------------- indicators

  /** An indicator says nothing new: it is repeated, or a no-signal before any data. */
  predicate Ignored(r: Rx, ind: Indicator) {
    Repeated(r.streams, ind) || (Open(r.streams.inn) && r.countIn == 0 && ind == NoSignal)
  }

  /** The saved stream is a new one for this training: one buffer, empty and open. */
  predicate NewSaved(s: Option<Stream>, ind: Indicator) {
    s.Some? && s.value.row.ind == ind && s.value.first == None && |s.value.queue| == 1
    && s.value.queue[0].bytes == [] && !s.value.queue[0].eof && s.value.queue[0].diag == {} && s.value.last == Some(s.value.queue[0].id)
  }

  lemma Ind2Is(r: Rx, ind: Indicator)
    ensures var r1 := HandleInd2(r, ind);
      && r1.pc == Rest
      && (!IsTraining(ind) ==> r1.streams == r.streams.(saved := None))
      && (IsTraining(ind) && r.stateModem != StmInWaitData ==> NewSaved(r1.streams.saved, ind) && r1.streams.inn == r.streams.inn)
  {
    FoundByInd(ind);
    hide FindInd, Offer;
  }

  /**
   In every run a modem that is reading is told of the indicator that cuts its stream short, before anything else is done;
   and then, or else at once, the saved stream is dropped, and a training begins a new one.
  */
  lemma {:induction false} IndTold(events: seq<RxEvent>, ind: Indicator)
    requires RxExec(events).pc == Rest && !Ignored(RxExec(events), ind)
    ensures var r, r1, r2 := RxExec(events), RxExec(events + [Arrive(RxInd(ind))]), RxExec(events + [Arrive(RxInd(ind))] + [GoOn]);
      && r1.pc == (if Open(r.streams.inn) && r.stateModem == StmInRecvData then Broken(ind) else Rest)
      && (r1.pc == Rest ==> r2 == r1) && !(Open(r2.streams.inn) && r.stateModem != StmInWaitData) && r2.pc == Rest
      && (!IsTraining(ind) ==> r2.streams.saved == None)
      && (IsTraining(ind) && r.stateModem != StmInWaitData ==> NewSaved(r2.streams.saved, ind))
  {
    var r := RxExec(events);
    Then(events, Arrive(RxInd(ind)));
    Then(events + [Arrive(RxInd(ind))], GoOn);
    Ind2Is(r, ind);
    if Open(r.streams.inn) {
      var cut := r.(streams := ApplyTo(r.streams, ToIn, Shut({OutOfOrder, NoCarrier})));
      ToSame(r.streams, ToIn, Shut({OutOfOrder, NoCarrier}));
      ToOther(r.streams);
      Ind2Is(cut, ind);
      Ind2Is(cut.(pc := Broken(ind)), ind);
    }
    WaitsClosed(events);
    hide RxExec, HandleInd2, ApplyTo, NewSaved;
  }

  lemma ToOther(ss: Streams)
    requires Points(ss, ToIn)
    ensures ApplyTo(ss, ToIn, Shut({OutOfOrder, NoCarrier})).saved == ss.saved
  {
  }

  lemma WaitsClosed(events: seq<RxEvent>)
    ensures RxExec(events).stateModem == StmInWaitData ==> !Open(RxExec(events).streams.inn)
  {
    hide RxExec;
    ReceiveBuffers(events);
    var r := RxExec(events);
    if r.streams.inn.Some? { OpenNotEmpty(r.streams.inn.value, r.streams.next); }
  }

  /** In every run, when the line is gone, no carrier is heard, nothing is saved and nothing is open. */
  lemma {:induction false} LineGoneDrops(events: seq<RxEvent>)
    ensures var r1 := RxExec(events + [LineDown]); r1.carrierIn == 0 && r1.streams.saved == None && !Open(r1.streams.inn)
  {
    Then(events, LineDown);
    hide RxExec, Touch;
  }

  /**
   In every run a modem that turns to sending must be idle; what it has not read is gone, and what is saved as well unless
   it is to send a silence.
  */
  lemma {:induction false} TurnDrops(events: seq<RxEvent>, dataType: DataType, accepted: bool)
    ensures var r, r1 := RxExec(events), RxExec(events + [AskSend(dataType, accepted)]);
      if r.stateModem != StmIdle then r1 == r
      else
        && r1.streams.inn == None && r1.streams.saved == (if dataType == DtSilence then r.streams.saved else None)
        && r1.stateModem == (if accepted then StmOutMoreData else StmIdle)
  {
    Then(events, AskSend(dataType, accepted));
    hide RxExec;
  }
}
