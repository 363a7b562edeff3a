/**
 The receive side of the T.38 engine: two streams of buffers that packets fill and the modem empties.
 Every buffer carries the number it was made with, which stands for its address, so that `lastBuf`
 is a pointer that could dangle.
*/
module T38Recv {
  import opened BitSeq
  import opened EngineTypes
  import opened T38Types
  import opened T38Send

  datatype Buf = Buf(id: nat, bytes: seq<Byte>, eof: bool, diag: Diag)

  /** What can be done to the buffer at an address: `PutData`, `SetDiag`, `PutEof`. */
  datatype Change = Append(bytes: seq<Byte>) | Mark(diag: Diag) | Shut(diag: Diag)

  function Changed(b: Buf, c: Change): Buf {
    match c
    case Append(bytes) => if b.eof then b else b.(bytes := b.bytes + bytes)
    case Mark(diag) => b.(diag := b.diag + diag)
    case Shut(diag) => b.(diag := b.diag + diag, eof := true)
  }

  /** The buffers after the change of the one at `id`. */
  function Touch(bs: seq<Buf>, id: nat, c: Change): (r: seq<Buf>)
    ensures |r| == |bs|
    ensures forall i :: 0 <= i < |bs| ==> r[i] == if bs[i].id == id then Changed(bs[i], c) else bs[i]
  {
    if bs == [] then [] else [if bs[0].id == id then Changed(bs[0], c) else bs[0]] + Touch(bs[1..], id, c)
  }

  /** What the modem wants to read, and what the line carries. */
  datatype Want = Want(dataType: DataType, dataTypeT38: DataType)

  datatype Stream = Stream(first: Option<Buf>, queue: seq<Buf>, last: Option<nat>, row: ModRow, want: Want)

  function NewStream(row: ModRow, want: Want): Stream { Stream(None, [], None, row, want) }

  const NO_WANT := Want(DtNone, DtNone)

  /** All the buffers, oldest first. */
  function All(s: Stream): seq<Buf> { if s.first.Some? then [s.first.value] + s.queue else s.queue }

  function PushBuf(s: Stream, id: nat): Stream { s.(queue := s.queue + [Buf(id, [], false, {})], last := Some(id)) }

  function DeleteFirst(s: Stream): Stream {
    if s.first == None then s
    else s.(first := None, last := if s.last == Some(s.first.value.id) then None else s.last)
  }

  function PopBuf(s: Stream): Stream {
    var s1 := DeleteFirst(s);
    if s1.queue == [] then s1 else s1.(first := Some(s1.queue[0]), queue := s1.queue[1..])
  }

  /** `PutData`, `SetDiag` and `PutEof`: on the buffer at `lastBuf`, if there is one. */
  function Apply(s: Stream, c: Change): Stream {
    if s.last == None then s
    else
      var id := s.last.value;
      s.(first := if s.first.Some? && s.first.value.id == id then Some(Changed(s.first.value, c)) else s.first,
         queue := Touch(s.queue, id, c), last := if c.Shut? then None else s.last)
  }

  function MoveInto(to: Stream, from: Stream): Stream { to.(queue := to.queue + All(from), last := from.last) }

  // ------------------------------------------------------------- the engine

  /** `modStreamIn`, `modStreamInSaved`, and the next address. */
  datatype Streams = Streams(inn: Option<Stream>, saved: Option<Stream>, next: nat)

  /** A data field as it arrives; more kinds than this engine sends. */
  datatype FieldKind = FHdlcData | FHdlcSigEnd | FFcsOk | FFcsBad | FFcsOkSigEnd | FFcsBadSigEnd | FNonEcmData | FNonEcmSigEnd

  datatype RxField = RxField(kind: FieldKind, data: seq<Byte>)

  datatype RxPacket = RxInd(ind: Indicator) | RxData(mod: Modulation, fields: seq<RxField>)

  /** Where `HandlePacket` is: not running, or inside a callback with the rest of an indicator or of the fields to do. */
  datatype RxPc = Rest | Broken(ind: Indicator) | Fields(fields: seq<RxField>)

  datatype Rx = Rx(streams: Streams, stateModem: StateModem, carrierIn: nat, countIn: nat, pc: RxPc)

  const RX_START := Rx(Streams(None, None, 0), StmIdle, 0, 0, Rest)

  predicate Open(s: Option<Stream>) { s.Some? && s.value.last.Some? }

  predicate IsIn(s: StateModem) { s == StmInWaitData || s == StmInReadyData || s == StmInRecvData }

  // ------------------------------------------------------------- the modem's calls

  function WantOf(dataType: DataType, row: ModRow, hdlcOnly: bool): Want {
    Want(dataType, if row.mod == V21 || hdlcOnly then DtHdlc else DtRaw)
  }

  predicate SameSignal(s: Option<Stream>, row: ModRow) { s.Some? && s.value.row.mod == row.mod }

  /** There are buffers left of a stream with the modulation that is asked for. */
  predicate Continues(ss: Streams, row: ModRow) {
    SameSignal(ss.inn, row) && DeleteFirst(ss.inn.value).queue != []
  }

  /** What `RecvWait` for data puts in place of `modStreamIn`. */
  function TakeStream(ss: Streams, row: ModRow, want: Want): Streams {
    var blank := NewStream(row, want);
    if Continues(ss, row) then ss.(inn := Some(DeleteFirst(ss.inn.value).(want := want)))
    else if ss.saved == None then ss.(inn := Some(blank))
    else if SameSignal(ss.saved, row) then ss.(inn := Some(MoveInto(blank, ss.saved.value)), saved := None)
    else ss.(inn := Some(Apply(PushBuf(blank, ss.next), Shut({DiffSig}))), next := ss.next + 1)
  }

  predicate WaitOk(r: Rx, dataType: DataType, param: int) {
    r.stateModem == StmIdle && (dataType == DtSilence || (IsData(dataType) && GetModRow(param).Some?))
  }

  function RecvWait(r: Rx, dataType: DataType, param: int, hdlcOnly: bool): Rx {
    if !WaitOk(r, dataType, param) then r
    else if dataType == DtSilence then
      r.(streams := r.streams.(inn := None),
         stateModem := if r.streams.inn.Some? && r.carrierIn != 0 && r.streams.saved == None then StmInWaitSilence else StmIdle)
    else
      var row := GetModRow(param).value;
      r.(streams := TakeStream(r.streams, row, WantOf(dataType, row, hdlcOnly)),
         stateModem := if Continues(r.streams, row) || r.streams.saved.Some? then StmInReadyData else StmInWaitData)
  }

  predicate CanStart(r: Rx) { r.stateModem == StmInReadyData && r.streams.inn.Some? && DeleteFirst(r.streams.inn.value).queue != [] }

  function RecvStart(r: Rx): Rx {
    if r.stateModem != StmInReadyData then r
    else if CanStart(r) then
      r.(streams := r.streams.(inn := Some(PopBuf(r.streams.inn.value))), stateModem := StmInRecvData)
    else r.(streams := r.streams.(inn := None), stateModem := StmIdle)
  }

  /** An answer of `Recv`: -1, or so many bytes. */
  datatype Answer = Answer(count: int, bytes: seq<Byte>)

  /** `DataStream::GetData` of the first buffer. */
  function Read(b: Buf, count: nat): Answer {
    if b.bytes == [] then Answer(if b.eof then -1 else 0, [])
    else
      var n := if count < |b.bytes| then count else |b.bytes|;
      Answer(n, b.bytes[..n])
  }

  datatype Served = Served(stream: Stream, answer: Answer)

  /** What the conversion of a frame to raw line bits, not looked into here, answers: bytes, or the end of the frame. */
  datatype Converted = More(bytes: seq<Byte>, rest: seq<Byte>) | End

  /** `ModStream::GetData` for frames that are read as raw bits: at the end of one frame it goes on with the next. */
  function GetConverted(s: Stream, says: seq<Converted>): Served
    requires s.first.Some?
    decreases says
  {
    if says == [] then Served(s, Answer(0, []))
    else if says[0].More? then
      Served(s.(first := Some(s.first.value.(bytes := says[0].rest))), Answer(|says[0].bytes|, says[0].bytes))
    else if s.queue != [] then GetConverted(PopBuf(s), says[1..])
    else if NoCarrier !in s.first.value.diag then Served(DeleteFirst(s), Answer(0, []))
    else Served(s, Answer(-1, []))
  }

  /** `ModStream::GetData`. */
  function GetData(s: Stream, count: nat, says: seq<Converted>): Served {
    if s.first == None then Served(s, Answer(-1, []))
    else if s.want == Want(DtRaw, DtHdlc) then GetConverted(s, says)
    else if s.want.dataType != s.want.dataTypeT38 then Served(s, Answer(-1, []))
    else
      var b := s.first.value;
      var a := Read(b, count);
      Served(s.(first := Some(b.(bytes := b.bytes[|a.bytes|..]))), a)
  }

  function RecvAnswer(r: Rx, count: nat, says: seq<Converted>): Answer {
    if r.stateModem != StmInRecvData || r.streams.inn == None then Answer(-1, []) else GetData(r.streams.inn.value, count, says).answer
  }

  function Recv(r: Rx, count: nat, says: seq<Converted>): Rx {
    if r.stateModem != StmInRecvData || r.streams.inn == None then r
    else r.(streams := r.streams.(inn := Some(GetData(r.streams.inn.value, count, says).stream)))
  }

  /** `RecvDiag`; no answer stands for the word with every error in it. */
  function RecvDiag(r: Rx): Option<Diag> {
    if r.streams.inn == None || r.streams.inn.value.first == None then None else Some(r.streams.inn.value.first.value.diag)
  }

  /** `modStreamIn->DeleteFirstBuf()`. */
  function DropFirst(ss: Streams): Streams { if ss.inn == None then ss else ss.(inn := Some(DeleteFirst(ss.inn.value))) }

  function RecvStop(r: Rx): Rx {
    if !IsIn(r.stateModem) then r else r.(streams := DropFirst(r.streams), stateModem := StmIdle)
  }

  function RxReset(r: Rx): Rx {
    r.(streams := DropFirst(r.streams), stateModem := if IsOut(r.stateModem) then r.stateModem else StmIdle)
  }

  /** What `SendStart` does to the streams, also when it refuses the data type after that. */
  function TurnToSend(r: Rx, dataType: DataType, accepted: bool): Rx {
    if r.stateModem != StmIdle then r
    else
      r.(streams := r.streams.(inn := None, saved := if dataType == DtSilence then r.streams.saved else None),
         stateModem := if accepted then StmOutMoreData else StmIdle)
  }

  // ------------------------------------------------------------- packets

  function EndSilenceWait(r: Rx): Rx { if r.stateModem == StmInWaitSilence then r.(stateModem := StmIdle) else r }

  /** An indicator of a stream that is still open says nothing new. */
  predicate Repeated(ss: Streams, ind: Indicator) {
    (Open(ss.inn) && ss.inn.value.row.ind == ind) || (Open(ss.saved) && ss.saved.value.row.ind == ind)
  }

  /** An indicator, up to the callback that tells the modem that its stream was broken off. */
  function HandleInd(r: Rx, ind: Indicator): Rx {
    if Repeated(r.streams, ind) then r
    else if !Open(r.streams.inn) then HandleInd2(r, ind)
    else if r.countIn == 0 && ind == NoSignal then r
    else
      var r1 := r.(streams := ApplyTo(r.streams, ToIn, Shut({OutOfOrder, NoCarrier})));
      if r.stateModem == StmInRecvData then r1.(pc := Broken(ind)) else HandleInd2(r1, ind)
  }

  /** The rest of it, with the lock taken again. */
  function HandleInd2(r: Rx, ind: Indicator): Rx {
    var ss := r.streams.(saved := None);
    if !ind.Training? then EndSilenceWait(r.(streams := ss, carrierIn := 0, pc := Rest))
    else
      match FindInd(ind, 0)
      case None => r.(streams := ss, pc := Rest)
      case Some(row) =>
        var s := PushBuf(NewStream(row, NO_WANT), ss.next);
        var r1 := r.(streams := Streams(ss.inn, Some(s), ss.next + 1), carrierIn := 1, countIn := 0, pc := Rest);
        if r.stateModem == StmInWaitData then r1.(streams := Offer(r1.streams), stateModem := StmInReadyData)
        else EndSilenceWait(r1)
  }

  /** The modem waits for data: it gets the new stream, or a buffer that says the signal is another one. */
  function Offer(ss: Streams): Streams
    requires ss.saved.Some?
  {
    if ss.inn == None then ss
    else if ss.inn.value.row.mod == ss.saved.value.row.mod then
      ss.(inn := Some(MoveInto(ss.inn.value, ss.saved.value)), saved := None)
    else ss.(inn := Some(Apply(PushBuf(ss.inn.value, ss.next), Shut({DiffSig}))), next := ss.next + 1)
  }

  /** Which stream data goes to: `modStream`. */
  datatype Target = Nowhere | ToIn | ToSaved

  function TargetOf(ss: Streams): Target { if Open(ss.inn) then ToIn else if Open(ss.saved) then ToSaved else Nowhere }

  predicate Points(ss: Streams, t: Target) { (t == ToIn ==> ss.inn.Some?) && (t == ToSaved ==> ss.saved.Some?) }

  function ApplyTo(ss: Streams, t: Target, c: Change): Streams
    requires Points(ss, t)
  {
    match t
    case Nowhere => ss
    case ToIn => ss.(inn := Some(Apply(ss.inn.value, c)))
    case ToSaved => ss.(saved := Some(Apply(ss.saved.value, c)))
  }

  function PushTo(ss: Streams, t: Target): Streams
    requires Points(ss, t)
  {
    match t
    case Nowhere => ss
    case ToIn => ss.(inn := Some(PushBuf(ss.inn.value, ss.next)), next := ss.next + 1)
    case ToSaved => ss.(saved := Some(PushBuf(ss.saved.value, ss.next)), next := ss.next + 1)
  }

  predicate EndsSignal(k: FieldKind) { k == FHdlcSigEnd || k == FFcsOkSigEnd || k == FFcsBadSigEnd || k == FNonEcmSigEnd }

  predicate EndsFrame(k: FieldKind) { k == FFcsOk || k == FFcsBad || k == FFcsOkSigEnd || k == FFcsBadSigEnd }

  predicate BadFrame(k: FieldKind) { k == FFcsBad || k == FFcsBadSigEnd }

  /** What one field does to the streams. */
  function PutField(ss: Streams, t: Target, f: RxField): Streams
    requires Points(ss, t)
  {
    var s1 := ApplyTo(ss, t, Append(f.data));
    var s2 := if BadFrame(f.kind) then ApplyTo(s1, t, Mark({BadFcs})) else s1;
    var s3 := if EndsFrame(f.kind) then PushTo(ApplyTo(s2, t, Shut({})), t) else s2;
    if EndsSignal(f.kind) then ApplyTo(s3, t, Shut({NoCarrier})) else s3
  }

  /** The loop over the fields; an end of signal forgets the stream, and may make a callback. */
  function HandleFields(r: Rx, t: Target, fields: seq<RxField>): Rx
    requires Points(r.streams, t)
    decreases |fields|
  {
    if fields == [] then r.(pc := Rest)
    else
      var f := fields[0];
      var r1 := r.(streams := PutField(r.streams, t, f), countIn := r.countIn + |f.data|);
      if !EndsSignal(f.kind) then HandleFields(r1, t, fields[1..])
      else if r.stateModem == StmInWaitSilence then r1.(carrierIn := 0, stateModem := StmIdle, pc := Fields(fields[1..]))
      else HandleFields(r1.(carrierIn := 0), Nowhere, fields[1..])
  }

  function ModOf(ss: Streams, t: Target): Modulation
    requires Points(ss, t) && t != Nowhere
  {
    if t == ToIn then ss.inn.value.row.mod else ss.saved.value.row.mod
  }

  function HandleData(r: Rx, mod: Modulation, fields: seq<RxField>): Rx {
    var t := TargetOf(r.streams);
    if t != Nowhere && ModOf(r.streams, t) != mod then
      HandleFields(r.(streams := ApplyTo(r.streams, t, Shut({OutOfOrder, NoCarrier}))), Nowhere, fields)
    else HandleFields(r, t, fields)
  }

  function HandlePacket(r: Rx, p: RxPacket): Rx {
    match p
    case RxInd(ind) => HandleInd(r, ind)
    case RxData(mod, fields) => HandleData(r, mod, fields)
  }

  /** `HandlePacket` goes on after a callback. */
  function Resume(r: Rx): Rx {
    match r.pc
    case Rest => r
    case Broken(ind) => HandleInd2(r, ind)
    case Fields(fields) => HandleFields(r, Nowhere, fields)
  }

  /** `HandlePacketLost`. */
  function PacketLost(r: Rx): Rx {
    var t := TargetOf(r.streams);
    if t != Nowhere && ModOf(r.streams, t) == V21 then r.(streams := ApplyTo(r.streams, t, Mark({BadFcs}))) else r
  }

  /** `OnChangeEnableFakeIn`, when the real line is gone: up to its callback, and after it. */
  function LineGone(r: Rx): Rx {
    var diag := if r.countIn == 0 then {NoCarrier} else {OutOfOrder, NoCarrier};
    var inn := if Open(r.streams.inn) then Some(Apply(r.streams.inn.value, Shut(diag))) else r.streams.inn;
    r.(carrierIn := 0, streams := r.streams.(inn := inn, saved := None))
  }
}
