/** What every run of the receive side keeps, with the modem's calls coming between any two packets and inside every callback. */
module T38RecvSafety {
  import opened BitSeq
  import opened EngineTypes
  import opened T38Types
  import opened T38Send
  import opened T38Recv

  datatype RxEvent =
    | AskWait(dataType: DataType, param: int, hdlcOnly: bool)
    | AskStart
    | AskRecv(count: nat, says: seq<Converted>)
    | AskStop
    | AskReset
    | AskSend(dataType: DataType, accepted: bool)
    | SendEnds
    | Arrive(packet: RxPacket)
    | GoOn
    | Lost
    | LineDown
    | LineDownCallback

  /** One packet is handled at a time; a callback ends before the next one comes. */
  function RxDo(r: Rx, e: RxEvent): Rx {
    match e
    case AskWait(dataType, param, hdlcOnly) => RecvWait(r, dataType, param, hdlcOnly)
    case AskStart => RecvStart(r)
    case AskRecv(count, says) => Recv(r, count, says)
    case AskStop => RecvStop(r)
    case AskReset => RxReset(r)
    case AskSend(dataType, accepted) => TurnToSend(r, dataType, accepted)
    case SendEnds => if IsOut(r.stateModem) then r.(stateModem := StmIdle) else r
    case Arrive(packet) => if r.pc == Rest then HandlePacket(r, packet) else r
    case GoOn => Resume(r)
    case Lost => if r.pc == Rest then PacketLost(r) else r
    case LineDown => LineGone(r)
    case LineDownCallback => EndSilenceWait(r)
  }

  function RxExec(events: seq<RxEvent>): Rx {
    if events == [] then RX_START else RxDo(RxExec(events[..|events| - 1]), events[|events| - 1])
  }

  // ------------------------------------------------------------- streams

  /** The buffers are in order of arrival. */
  predicate InOrder(bs: seq<Buf>, next: nat) {
    && (forall i, j :: 0 <= i < j < |bs| ==> bs[i].id < bs[j].id)
    && (forall i :: 0 <= i < |bs| ==> bs[i].id < next)
  }

  /** `last` is the newest of the buffers, or null; it is open, and every other buffer has EOF. */
  predicate BufsOk(bs: seq<Buf>, last: Option<nat>, next: nat) {
    && InOrder(bs, next)
    && (forall i :: 0 <= i < |bs| ==> (bs[i].eof <==> !IsLast(last, bs[i])))
    && (last.Some? ==> bs != [] && bs[|bs| - 1].id == last.value)
  }

  predicate IsLast(last: Option<nat>, b: Buf) { last.Some? && last.value == b.id }

  predicate StreamOk(s: Stream, next: nat) { BufsOk(All(s), s.last, next) }

  lemma AllApply(s: Stream, c: Change)
    requires s.last.Some?
    ensures All(Apply(s, c)) == Touch(All(s), s.last.value, c)
  {
  }

  /** A buffer's address never changes, and its EOF only comes. */
  lemma ChangedEof(b: Buf, c: Change)
    ensures Changed(b, c).id == b.id && Changed(b, c).eof == (b.eof || c.Shut?)
  {
  }

  /** The same buffers, with EOF put to the last one or not. */
  lemma SameBufs(bs: seq<Buf>, bs1: seq<Buf>, last: Option<nat>, shut: bool, next: nat)
    requires BufsOk(bs, last, next) && last.Some? && |bs1| == |bs|
    requires forall i :: 0 <= i < |bs| ==> bs1[i].id == bs[i].id && bs1[i].eof == (bs[i].eof || (shut && bs[i].id == last.value))
    ensures BufsOk(bs1, if shut then None else last, next)
  {
  }

  lemma TouchOk(bs: seq<Buf>, last: Option<nat>, c: Change, next: nat)
    requires BufsOk(bs, last, next) && last.Some?
    ensures BufsOk(Touch(bs, last.value, c), if c.Shut? then None else last, next)
  {
    hide BufsOk, Changed;
    var bs1 := Touch(bs, last.value, c);
    forall i | 0 <= i < |bs|
      ensures bs1[i].id == bs[i].id && bs1[i].eof == (bs[i].eof || (c.Shut? && bs[i].id == last.value))
    {
      ChangedEof(bs[i], c);
    }
    SameBufs(bs, bs1, last, c.Shut?, next);
  }

  lemma {:induction false} ApplyOk(s: Stream, c: Change, next: nat)
    requires StreamOk(s, next)
    ensures StreamOk(Apply(s, c), next)
    ensures Apply(s, c).last == if c.Shut? then None else s.last
  {
    if s.last.Some? {
      AllApply(s, c);
      TouchOk(All(s), s.last, c, next);
      hide BufsOk;
    }
  }

  lemma PushOk(s: Stream, next: nat)
    requires StreamOk(s, next) && s.last == None
    ensures StreamOk(PushBuf(s, next), next + 1)
  {
    assert All(PushBuf(s, next)) == All(s) + [Buf(next, [], false, {})];
  }

  lemma {:induction false} DeleteOk(s: Stream, next: nat)
    requires StreamOk(s, next)
    ensures StreamOk(DeleteFirst(s), next)
  {
    if s.first.Some? {
      var bs := All(s);
      assert All(DeleteFirst(s)) == bs[1..];
      if |bs| > 1 { assert bs[0].id < bs[|bs| - 1].id; }
    }
  }

  lemma PopOk(s: Stream, next: nat)
    requires StreamOk(s, next)
    ensures StreamOk(PopBuf(s), next)
    ensures PopBuf(s).last.Some? ==> s.last.Some?
  {
    DeleteOk(s, next);
    hide BufsOk;
    assert All(PopBuf(s)) == All(DeleteFirst(s)) && PopBuf(s).last == DeleteFirst(s).last;
  }

  /** Reading bytes of the first buffer changes nothing of this. */
  lemma ReadOk(s: Stream, bytes: seq<Byte>, next: nat)
    requires StreamOk(s, next) && s.first.Some?
    ensures StreamOk(s.(first := Some(s.first.value.(bytes := bytes))), next)
  {
    var bs, bs1 := All(s), All(s.(first := Some(s.first.value.(bytes := bytes))));
    assert forall i :: 0 <= i < |bs| ==> bs1[i].id == bs[i].id && bs1[i].eof == bs[i].eof;
  }

  lemma {:induction false} ConvertedOk(s: Stream, says: seq<Converted>, next: nat)
    requires StreamOk(s, next) && s.first.Some?
    ensures StreamOk(GetConverted(s, says).stream, next)
    ensures GetConverted(s, says).stream.last.Some? ==> s.last.Some?
    decreases says
  {
    hide StreamOk;
    if says == [] {
    } else if says[0].More? {
      ReadOk(s, says[0].rest, next);
    } else if s.queue != [] {
      PopOk(s, next);
      ConvertedOk(PopBuf(s), says[1..], next);
    } else {
      DeleteOk(s, next);
    }
  }

  lemma GetDataOk(s: Stream, count: nat, says: seq<Converted>, next: nat)
    requires StreamOk(s, next)
    ensures StreamOk(GetData(s, count, says).stream, next)
    ensures GetData(s, count, says).stream.last.Some? ==> s.last.Some?
  {
    hide StreamOk, GetConverted;
    if s.first.Some? {
      ConvertedOk(s, says, next);
      var b := s.first.value;
      ReadOk(s, b.bytes[|Read(b, count).bytes|..], next);
    }
  }

  // ------------------------------------------------------------- both streams

  predicate OptOk(s: Option<Stream>, next: nat) { s.Some? ==> StreamOk(s.value, next) }

  /** Both streams are in order, at most one of them is open, and the saved one has buffers, of which none is being read. */
  predicate StreamsOk(ss: Streams) {
    && OptOk(ss.inn, ss.next) && OptOk(ss.saved, ss.next)
    && !(Open(ss.inn) && Open(ss.saved))
    && (ss.saved.Some? ==> ss.saved.value.first == None && ss.saved.value.queue != [])
  }

  /** The modem's state says what it has: nothing yet, a stream with a buffer in wait, or one being read. */
  predicate StateOk(m: StateModem, ss: Streams) {
    && (m == StmInWaitData ==> ss.inn.Some? && All(ss.inn.value) == [] && ss.saved == None)
    && (m == StmInReadyData ==> ss.inn.Some? && ss.inn.value.first == None && ss.inn.value.queue != [])
    && (ss.inn.Some? && ss.inn.value.first.Some? ==> m == StmInRecvData)
    && (m == StmInRecvData ==> ss.inn.Some?)
  }

  predicate RxOk(r: Rx) {
    && StreamsOk(r.streams) && StateOk(r.stateModem, r.streams)
    && (r.pc.Broken? ==> !Open(r.streams.inn) && !Open(r.streams.saved))
  }

  lemma LaterOk(s: Option<Stream>, next: nat)
    requires OptOk(s, next)
    ensures OptOk(s, next + 1)
  {
  }

  lemma {:induction false} MoveOk(to: Stream, from: Stream, next: nat)
    requires All(to) == [] && StreamOk(from, next)
    ensures StreamOk(MoveInto(to, from), next) && All(MoveInto(to, from)) == All(from)
  {
    assert to.queue == [] && to.first == None;
    assert All(MoveInto(to, from)) == All(from);
  }

  lemma DifferentOk(s: Stream, next: nat)
    requires All(s) == [] && s.last == None
    ensures var s1 := Apply(PushBuf(s, next), Shut({DiffSig}));
      StreamOk(s1, next + 1) && s1.last == None && s1.queue == [Buf(next, [], true, {DiffSig})] && s1.first == None
  {
    assert s.first == None && s.queue == [];
    PushOk(s, next);
    ApplyOk(PushBuf(s, next), Shut({DiffSig}), next + 1);
    hide StreamOk;
    assert PushBuf(s, next).queue == [Buf(next, [], false, {})];
    assert {} + {DiffSig} == {DiffSig};
  }

  lemma {:induction false} TakeOk(ss: Streams, row: ModRow, want: Want)
    requires StreamsOk(ss)
    ensures var ss1 := TakeStream(ss, row, want);
      StreamsOk(ss1) && StateOk(if Continues(ss, row) || ss.saved.Some? then StmInReadyData else StmInWaitData, ss1)
    ensures Open(TakeStream(ss, row, want).inn) ==> Open(ss.inn) || Open(ss.saved)
    ensures Open(TakeStream(ss, row, want).saved) ==> Open(ss.saved)
  {
    hide StreamOk;
    var blank := NewStream(row, want);
    if Continues(ss, row) {
      DeleteOk(ss.inn.value, ss.next);
      RewantOk(DeleteFirst(ss.inn.value), want, ss.next);
    } else if ss.saved == None {
      BlankOk(row, want, ss.next);
    } else if SameSignal(ss.saved, row) {
      MoveOk(blank, ss.saved.value, ss.next);
    } else {
      DifferentOk(blank, ss.next);
      LaterOk(ss.saved, ss.next);
    }
  }

  lemma BlankOk(row: ModRow, want: Want, next: nat)
    ensures StreamOk(NewStream(row, want), next)
  {
  }

  lemma RewantOk(s: Stream, want: Want, next: nat)
    requires StreamOk(s, next)
    ensures StreamOk(s.(want := want), next)
  {
    assert All(s.(want := want)) == All(s);
  }

  lemma ApplyToOk(ss: Streams, t: Target, c: Change)
    requires StreamsOk(ss) && Points(ss, t)
    ensures var ss1 := ApplyTo(ss, t, c);
      StreamsOk(ss1) && Points(ss1, t)
      && (Open(ss1.inn) <==> Open(ss.inn) && !(t == ToIn && c.Shut?))
      && (Open(ss1.saved) <==> Open(ss.saved) && !(t == ToSaved && c.Shut?))
  {
    hide StreamOk;
    if t == ToIn { ApplyOk(ss.inn.value, c, ss.next); }
    if t == ToSaved { ApplyOk(ss.saved.value, c, ss.next); }
  }

  lemma {:induction false} ApplyState(m: StateModem, ss: Streams, t: Target, c: Change)
    requires StateOk(m, ss) && Points(ss, t) && (m == StmInWaitData ==> t == Nowhere)
    ensures StateOk(m, ApplyTo(ss, t, c))
  {
  }

  lemma PushToOk(m: StateModem, ss: Streams, t: Target)
    requires StreamsOk(ss) && StateOk(m, ss) && Points(ss, t) && (m == StmInWaitData ==> t == Nowhere)
    requires !Open(ss.inn) && !Open(ss.saved)
    ensures var ss1 := PushTo(ss, t);
      StreamsOk(ss1) && StateOk(m, ss1) && Points(ss1, t)
      && (t == ToIn ==> !Open(ss1.saved)) && (t == ToSaved ==> !Open(ss1.inn))
      && (t == Nowhere ==> !Open(ss1.inn) && !Open(ss1.saved))
  {
    hide StreamOk;
    if t == ToIn { PushOk(ss.inn.value, ss.next); LaterOk(ss.saved, ss.next); }
    if t == ToSaved { PushOk(ss.saved.value, ss.next); LaterOk(ss.inn, ss.next); }
  }

  /** `t` is the stream that is open, if any is. */
  predicate Holds(ss: Streams, t: Target) {
    Points(ss, t) && (Open(ss.inn) ==> t == ToIn) && (Open(ss.saved) ==> t == ToSaved)
  }

  /** The end of a frame: its buffer is closed, and the next one made. */
  lemma NextFrameOk(m: StateModem, ss: Streams, t: Target)
    requires StreamsOk(ss) && StateOk(m, ss) && m != StmInWaitData && t != Nowhere && Holds(ss, t)
    ensures var ss1 := PushTo(ApplyTo(ss, t, Shut({})), t); StreamsOk(ss1) && StateOk(m, ss1) && Holds(ss1, t)
  {
    hide StreamsOk, StateOk, ApplyTo, PushTo;
    ApplyToOk(ss, t, Shut({}));
    ApplyState(m, ss, t, Shut({}));
    PushToOk(m, ApplyTo(ss, t, Shut({})), t);
  }

  lemma PutFieldOk(m: StateModem, ss: Streams, t: Target, f: RxField)
    requires StreamsOk(ss) && StateOk(m, ss) && (m == StmInWaitData ==> t == Nowhere)
    requires Points(ss, t) && (t == Nowhere || Holds(ss, t))
    ensures var ss1 := PutField(ss, t, f);
      && StreamsOk(ss1) && StateOk(m, ss1) && Points(ss1, t)
      && (t == Nowhere ==> ss1 == ss)
      && (t != Nowhere ==> Holds(ss1, t))
      && (t != Nowhere && EndsSignal(f.kind) ==> !Open(ss1.inn) && !Open(ss1.saved))
  {
    if t != Nowhere {
      hide StreamsOk, StateOk, ApplyTo, PushTo;
      var s1 := ApplyTo(ss, t, Append(f.data));
      ApplyToOk(ss, t, Append(f.data)); ApplyState(m, ss, t, Append(f.data));
      var s2 := if BadFrame(f.kind) then ApplyTo(s1, t, Mark({BadFcs})) else s1;
      if BadFrame(f.kind) { ApplyToOk(s1, t, Mark({BadFcs})); ApplyState(m, s1, t, Mark({BadFcs})); }
      var s3 := if EndsFrame(f.kind) then PushTo(ApplyTo(s2, t, Shut({})), t) else s2;
      if EndsFrame(f.kind) { NextFrameOk(m, s2, t); }
      if EndsSignal(f.kind) { ApplyToOk(s3, t, Shut({NoCarrier})); ApplyState(m, s3, t, Shut({NoCarrier})); }
    }
  }

  // ------------------------------------------------------------- packets

  lemma {:induction false} FieldsOk(r: Rx, t: Target, fields: seq<RxField>)
    requires StreamsOk(r.streams) && StateOk(r.stateModem, r.streams) && Points(r.streams, t)
    requires r.stateModem == StmInWaitData ==> t == Nowhere
    requires t == Nowhere || Holds(r.streams, t)
    ensures RxOk(HandleFields(r, t, fields))
    decreases |fields|
  {
    hide StreamsOk, PutField;
    if fields != [] {
      PutFieldOk(r.stateModem, r.streams, t, fields[0]);
      var r1 := r.(streams := PutField(r.streams, t, fields[0]), countIn := r.countIn + |fields[0].data|);
      if !EndsSignal(fields[0].kind) {
        FieldsOk(r1, t, fields[1..]);
      } else if r.stateModem != StmInWaitSilence {
        FieldsOk(r1.(carrierIn := 0), Nowhere, fields[1..]);
      }
    }
  }

  lemma OpenState(r: Rx)
    requires RxOk(r)
    ensures Open(r.streams.inn) ==> r.stateModem != StmInWaitData
  {
    if Open(r.streams.inn) { OpenNotEmpty(r.streams.inn.value, r.streams.next); }
  }

  lemma DataOk(r: Rx, mod: Modulation, fields: seq<RxField>)
    requires RxOk(r)
    ensures RxOk(HandleData(r, mod, fields))
  {
    hide HandleFields;
    var t := TargetOf(r.streams);
    OpenState(r);
    if t != Nowhere && ModOf(r.streams, t) != mod {
      ApplyToOk(r.streams, t, Shut({OutOfOrder, NoCarrier}));
      ApplyState(r.stateModem, r.streams, t, Shut({OutOfOrder, NoCarrier}));
      hide StreamsOk, StateOk;
      FieldsOk(r.(streams := ApplyTo(r.streams, t, Shut({OutOfOrder, NoCarrier}))), Nowhere, fields);
    } else {
      FieldsOk(r, t, fields);
    }
  }

  lemma OpenNotEmpty(s: Stream, next: nat)
    requires StreamOk(s, next)
    ensures s.last.Some? ==> All(s) != []
  {
  }

  lemma OfferOk(ss: Streams)
    requires StreamsOk(ss) && ss.inn.Some? && All(ss.inn.value) == [] && ss.saved.Some?
    ensures StreamsOk(Offer(ss)) && StateOk(StmInReadyData, Offer(ss))
  {
    OpenNotEmpty(ss.inn.value, ss.next);
    hide StreamOk;
    if SameSignal(ss.inn, ss.saved.value.row) {
      MoveOk(ss.inn.value, ss.saved.value, ss.next);
    } else {
      DifferentOk(ss.inn.value, ss.next);
      LaterOk(ss.saved, ss.next);
    }
  }

  lemma NewSavedOk(ss: Streams, row: ModRow)
    requires StreamsOk(ss) && !Open(ss.inn)
    ensures StreamsOk(Streams(ss.inn, Some(PushBuf(NewStream(row, NO_WANT), ss.next)), ss.next + 1))
  {
    BlankOk(row, NO_WANT, ss.next);
    PushOk(NewStream(row, NO_WANT), ss.next);
    LaterOk(ss.inn, ss.next);
    hide StreamOk;
  }

  lemma Ind2Ok(r: Rx, ind: Indicator)
    requires StreamsOk(r.streams) && StateOk(r.stateModem, r.streams) && !Open(r.streams.inn)
    ensures RxOk(HandleInd2(r, ind))
  {
    hide StreamOk, FindInd, Offer;
    if ind.Training? && FindInd(ind, 0).Some? {
      var row := FindInd(ind, 0).value;
      var ss := r.streams.(saved := None);
      NewSavedOk(ss, row);
      if r.stateModem == StmInWaitData {
        OfferOk(Streams(ss.inn, Some(PushBuf(NewStream(row, NO_WANT), ss.next)), ss.next + 1));
      }
    }
  }

  lemma IndOk(r: Rx, ind: Indicator)
    requires RxOk(r)
    ensures RxOk(HandleInd(r, ind))
  {
    OpenState(r);
    assert !(Open(r.streams.inn) && Open(r.streams.saved));
    hide HandleInd2, StreamsOk, StateOk, Repeated, ApplyTo;
    if Open(r.streams.inn) {
      var c := Shut({OutOfOrder, NoCarrier});
      ApplyToOk(r.streams, ToIn, c);
      ApplyState(r.stateModem, r.streams, ToIn, c);
      var r1 := r.(streams := ApplyTo(r.streams, ToIn, c));
      hide Open;
      Ind2Ok(r1, ind);
    } else {
      Ind2Ok(r, ind);
    }
  }

  // ------------------------------------------------------------- every run

  lemma LostOk(r: Rx)
    requires RxOk(r)
    ensures RxOk(PacketLost(r))
  {
    OpenState(r);
    hide StreamsOk;
    var t := TargetOf(r.streams);
    if t != Nowhere {
      ApplyToOk(r.streams, t, Mark({BadFcs}));
      ApplyState(r.stateModem, r.streams, t, Mark({BadFcs}));
    }
  }

  lemma GoneOk(r: Rx)
    requires RxOk(r)
    ensures RxOk(LineGone(r))
  {
    OpenState(r);
    var c := Shut(if r.countIn == 0 then {NoCarrier} else {OutOfOrder, NoCarrier});
    if Open(r.streams.inn) {
      ApplyToOk(r.streams, ToIn, c);
      ApplyState(r.stateModem, r.streams, ToIn, c);
    }
    hide StreamOk, All;
  }

  lemma ResumeOk(r: Rx)
    requires RxOk(r)
    ensures RxOk(Resume(r))
  {
    match r.pc
    case Rest =>
    case Broken(ind) => Ind2Ok(r, ind);
    case Fields(fields) => FieldsOk(r, Nowhere, fields);
  }

  lemma DropOk(ss: Streams, m: StateModem)
    requires StreamsOk(ss) && StateOk(m, ss)
    ensures StreamsOk(DropFirst(ss)) && DropFirst(ss).saved == ss.saved && (Open(DropFirst(ss).inn) ==> Open(ss.inn))
    ensures forall m1 :: (m1 == StmIdle || IsOut(m1)) ==> StateOk(m1, DropFirst(ss))
  {
    if ss.inn.Some? { DeleteOk(ss.inn.value, ss.next); }
    hide StreamOk;
  }

  lemma WaitKeeps(r: Rx, dataType: DataType, param: int, hdlcOnly: bool)
    requires RxOk(r)
    ensures RxOk(RecvWait(r, dataType, param, hdlcOnly))
  {
    if WaitOk(r, dataType, param) && dataType != DtSilence {
      var row := GetModRow(param).value;
      TakeOk(r.streams, row, WantOf(dataType, row, hdlcOnly));
      hide TakeStream;
    }
    hide StreamOk, GetModRow, StateOk;
  }

  lemma StartKeeps(r: Rx)
    requires RxOk(r)
    ensures RxOk(RecvStart(r)) && (r.stateModem == StmInReadyData ==> RecvStart(r).stateModem == StmInRecvData)
  {
    if r.stateModem == StmInReadyData { PopOk(r.streams.inn.value, r.streams.next); }
    hide StreamOk;
  }

  lemma RecvKeeps(r: Rx, count: nat, says: seq<Converted>)
    requires RxOk(r)
    ensures RxOk(Recv(r, count, says))
  {
    if r.streams.inn.Some? { GetDataOk(r.streams.inn.value, count, says, r.streams.next); }
    hide StreamOk, GetData;
  }

  lemma RxDoOk(r: Rx, e: RxEvent)
    requires RxOk(r)
    ensures RxOk(RxDo(r, e))
  {
    hide StreamOk, HandleInd, HandleData, Resume, PacketLost, LineGone, RecvWait, RecvStart, Recv, DropFirst;
    match e
    case AskWait(dataType, param, hdlcOnly) => WaitKeeps(r, dataType, param, hdlcOnly);
    case AskStart => StartKeeps(r);
    case AskRecv(count, says) => RecvKeeps(r, count, says);
    case AskStop => DropOk(r.streams, r.stateModem);
    case AskReset => DropOk(r.streams, r.stateModem);
    case Arrive(packet) =>
      if r.pc == Rest {
        match packet
        case RxInd(ind) => IndOk(r, ind);
        case RxData(mod, fields) => DataOk(r, mod, fields);
      }
    case GoOn => ResumeOk(r);
    case Lost => LostOk(r);
    case LineDown => GoneOk(r);
    case _ =>
  }

  /**
   In every run: each stream's buffers are in order of arrival; at most one stream is open; the open
   buffer is that stream's newest, and every other buffer has EOF; and a modem that is told there is
   data can start to read it.
  */
  lemma {:induction false} ReceiveBuffers(events: seq<RxEvent>)
    ensures RxOk(RxExec(events))
    ensures var ss := RxExec(events).streams;
      && !(Open(ss.inn) && Open(ss.saved))
      && (ss.inn.Some? ==> NewestOpen(ss.inn.value)) && (ss.saved.Some? ==> NewestOpen(ss.saved.value))
    ensures RxExec(events).stateModem == StmInReadyData ==> CanStart(RxExec(events))
  {
    if events != [] {
      var before := events[..|events| - 1];
      ReceiveBuffers(before);
      RxDoOk(RxExec(before), events[|events| - 1]);
    }
  }

  /** Arrival order, and EOF on all but the buffer `lastBuf` points to, which is the newest. */
  predicate NewestOpen(s: Stream) {
    var bs := All(s);
    && (forall i, j :: 0 <= i < j < |bs| ==> bs[i].id < bs[j].id)
    && (forall i :: 0 <= i < |bs| - 1 ==> bs[i].eof)
    && (s.last.Some? ==> bs != [] && bs[|bs| - 1].id == s.last.value && !bs[|bs| - 1].eof)
    && (s.last == None && bs != [] ==> bs[|bs| - 1].eof)
  }
}
