/**
 The transmit side of the T.38 engine: the modem's calls `SendStart`, `Send`, `SendStop`,
 and the thread that runs `PreparePacket`, as atomic steps between two releases of the
 engine lock.
*/
module T38Send {
  import opened BitSeq
  import opened EngineTypes
  import opened T38Types

  const MS_PER_OUT: nat := 30

  datatype StateOut =
    OutIdle | OutCedWait | OutSilenceWait | OutIndWait | OutData | OutHdlcFcs | OutDataNoSig | OutNoSig

  datatype StateModem =
    StmIdle | StmOutMoreData | StmOutNoMoreData | StmInWaitSilence | StmInWaitData | StmInReadyData | StmInRecvData

  predicate IsOut(s: StateModem) { s == StmOutMoreData || s == StmOutNoMoreData }

  /** `ModParsOut`. */
  datatype OutPars = OutPars(dataType: DataType, dataTypeT38: DataType, ind: Indicator, lenInd: int, mod: Modulation, br: nat)

  const INVALID_PARS := OutPars(DtNone, DtNone, NoSignal, -1, V21, 0)

  /** Where the packet thread is: before its delay, before the locked switch, in the middle of it, waiting for the modem, or past it. */
  datatype Pc = Ready | Looking | Got(count: int, bytes: seq<Byte>) | Waiting | Closing(redo: bool) | Stopped

  /** `bufOut`, its EOF flag, and whether `hdlcOut` still reads it. */
  datatype OutBuf = OutBuf(buf: seq<Byte>, eof: bool, attached: bool)

  /** What the last `SendStop` asked for: `moreFramesOut` and `callbackParamOut`. */
  datatype StopPars = StopPars(moreFrames: bool, callbackParam: int)

  /** The bytes counted against the bit rate (`getRawCount`) and the times they are held to. */
  datatype Pace = Pace(rawCount: nat, timeBegin: int, timeDelayEnd: int, doDelay: bool)

  /** What is looked at between bursts: `onIdleOut`, `delaySignalOut` and `isCarrierIn`. */
  datatype Between = Between(onIdle: DataType, delaySignal: bool, carrierIn: nat)

  datatype Tx = Tx(
    stateOut: StateOut,
    stateModem: StateModem,
    pars: OutPars,
    pc: Pc,
    data: OutBuf,
    countOut: nat,
    stop: StopPars,
    pace: Pace,
    between: Between)

  const START := Tx(OutNoSig, StmIdle, INVALID_PARS, Ready, OutBuf([], false, false), 0, StopPars(false, -1),
                    Pace(0, 0, 0, true), Between(DtNone, false, 0))

  // -------------------------------------------------------------- the modem's calls

  function ParsFor(dataType: DataType, param: int, hdlcOnly: bool): Option<OutPars> {
    match dataType
    case DtCed => Some(OutPars(DtCed, DtCed, CedTone, param, V21, 0))
    case DtSilence => Some(OutPars(DtSilence, DtSilence, NoSignal, param, V21, 0))
    case DtHdlc | DtRaw =>
      (match GetModRow(param)
       case None => None
       case Some(r) =>
         Some(OutPars(dataType, if r.mod == V21 || hdlcOnly then DtHdlc else DtRaw, r.ind, r.lenInd, r.mod, r.br)))
    case _ => None
  }

  /** Whether `SendStart` is accepted, and what it leaves. */
  predicate StartOk(t: Tx, dataType: DataType, param: int, hdlcOnly: bool) {
    t.stateModem == StmIdle && ParsFor(dataType, param, hdlcOnly).Some?
  }

  function SendStart(t: Tx, dataType: DataType, param: int, hdlcOnly: bool): Tx {
    if StartOk(t, dataType, param, hdlcOnly) then
      t.(pars := ParsFor(dataType, param, hdlcOnly).value, data := t.data.(buf := [], eof := false),
         stateModem := StmOutMoreData)
    else if t.stateModem == StmIdle then t.(pars := INVALID_PARS)
    else t
  }

  predicate SendOk(t: Tx) { t.stateModem == StmOutMoreData && !t.data.eof }

  function Send(t: Tx, bytes: seq<Byte>): Tx {
    if SendOk(t) then t.(data := t.data.(buf := t.data.buf + bytes)) else t
  }

  predicate StopOk(t: Tx) { t.stateModem == StmOutMoreData }

  function SendStop(t: Tx, moreFrames: bool, callbackParam: int): Tx {
    if StopOk(t) then
      t.(data := t.data.(eof := true), stateModem := StmOutNoMoreData, stop := StopPars(moreFrames, callbackParam))
    else t
  }

  function Reset(t: Tx): Tx {
    t.(data := t.data.(eof := true), between := t.between.(onIdle := DtNone), stop := t.stop.(callbackParam := -1),
       stateModem := if IsOut(t.stateModem) then t.stateModem else StmIdle)
  }

  /** Something is on the line, or the gap after the last no-signal lasts. */
  predicate Busy(t: Tx, now: int) { t.stateOut != OutIdle || (t.between.delaySignal && t.pace.timeBegin > now) }

  // ------------------------------------------------------------- the packet thread

  /** What one step does besides changing the state. */
  datatype Effect = Nothing | Emit(packet: Packet) | Ack(done: bool) | EmitAck(packet: Packet) | Fail

  datatype Outcome = Outcome(tx: Tx, effect: Effect)

  /** What the conversion of raw line bytes to HDLC frames, not looked into here, answers. */
  datatype Oracle = Oracle(bytes: seq<Byte>, ended: bool, rest: seq<Byte>, fcsOk: bool, rawCount: nat)

  /** How many bytes go into one packet. */
  function PacketLen(br: nat): nat {
    var len := MS_PER_OUT * br / 8000;
    if len > 54 then 54 else len
  }

  predicate IsData(dataType: DataType) { dataType == DtHdlc || dataType == DtRaw }

  /** The modem's data reaches the packets unconverted: frames as frames, or raw bytes as raw bytes. */
  predicate Direct(p: OutPars) { p.dataType == p.dataTypeT38 && IsData(p.dataType) }

  function Failed(t: Tx): Outcome { Outcome(t.(pc := Stopped), Fail) }

  /** Case `stOutIdle`, with data to send: wait for the gap after the last signal, then for the other side's carrier, then begin. */
  function BeginBurst(t: Tx, now: int): Outcome {
    var wait := if t.pars.dataType == DtHdlc then 500 else if t.pars.dataType == DtRaw then 2000 else 0;
    if t.between.delaySignal && t.pars.dataType != DtSilence && t.pace.timeBegin > now then
      Outcome(t.(pc := Closing(true)), Nothing)
    else if t.between.carrierIn == 1 && wait > 0 then
      Outcome(t.(between := t.between.(delaySignal := false, carrierIn := 2), pace := t.pace.(timeBegin := now + wait),
                 pc := Closing(true)), Nothing)
    else if t.between.carrierIn != 0 && wait > 0 && t.pace.timeBegin > now then
      Outcome(t.(between := t.between.(delaySignal := false), pc := Closing(true)), Nothing)
    else
      Indicate(t.(between := t.between.(delaySignal := false, carrierIn := if wait > 0 then 0 else t.between.carrierIn)))
  }

  function Indicate(t: Tx): Outcome {
    if IsData(t.pars.dataTypeT38) then Outcome(t.(stateOut := OutIndWait, pc := Closing(false)), Emit(Ind(t.pars.ind)))
    else if t.pars.dataTypeT38 == DtCed then Outcome(t.(stateOut := OutCedWait, pc := Closing(false)), Emit(Ind(t.pars.ind)))
    else if t.pars.dataTypeT38 == DtSilence then Outcome(t.(stateOut := OutSilenceWait, pc := Closing(true)), Nothing)
    else Failed(t)
  }

  /** Case `stOutIndWait`: the indicator's time is over, start on the data. */
  function BeginData(t: Tx, now: int): Outcome {
    var t1 := t.(stateOut := OutData, countOut := 0, data := t.data.(attached := true),
                 pace := t.pace.(timeBegin := now, rawCount := 0));
    if !IsData(t.pars.dataType) || !IsData(t.pars.dataTypeT38) || (t.pars.dataTypeT38 == DtRaw && t.pars.dataType == DtHdlc)
    then Failed(t1)  // frames as raw bits: not implemented
    else Outcome(t1.(pc := Closing(true)), Nothing)
  }

  /** Case `stOutData`, up to the callback: `hdlcOut.GetData`. */
  function Fetch(t: Tx, o: Oracle): Tx {
    if !Direct(t.pars) then
      t.(data := t.data.(buf := o.rest), pace := t.pace.(rawCount := o.rawCount),
         pc := if o.bytes != [] then Got(|o.bytes|, o.bytes) else if o.ended then Got(-1, []) else Got(0, []))
    else if !t.data.attached || (t.data.buf == [] && t.data.eof) then
      t.(data := t.data.(attached := false), pc := Got(-1, []))
    else
      var len := PacketLen(t.pars.br);
      var n := if len < |t.data.buf| then len else |t.data.buf|;
      t.(data := t.data.(buf := t.data.buf[n..]), pace := t.pace.(rawCount := t.pace.rawCount + n),
         pc := Got(n, t.data.buf[..n]))
  }

  /** Case `stOutData`, after the callback: what becomes of the `count` bytes. */
  function Use(t: Tx): Outcome
    requires t.pc.Got?
  {
    if t.pc.count == 0 then Outcome(t.(pc := Waiting), Nothing)
    else if !IsData(t.pars.dataTypeT38) then Failed(t)
    else if t.pc.count == -1 then
      Outcome(t.(stateOut := if t.pars.dataTypeT38 == DtHdlc then OutHdlcFcs else OutDataNoSig, pc := Closing(true)), Nothing)
    else
      Outcome(t.(countOut := t.countOut + |t.pc.bytes|, pc := Closing(false)),
              Emit(Data(t.pars.mod, if t.pars.dataTypeT38 == DtHdlc then HdlcData(t.pc.bytes) else NonEcmData(t.pc.bytes))))
  }

  /** Case `stOutHdlcFcs`, for data that came as raw bits. */
  function EndConverted(t: Tx, o: Oracle): Outcome {
    var t1 := t.(countOut := 0, data := t.data.(buf := o.rest), pace := t.pace.(rawCount := o.rawCount),
                 pc := Closing(t.countOut == 0), stateOut := if o.ended then OutDataNoSig else OutData);
    Outcome(t1, if t.countOut != 0 then Emit(Data(t.pars.mod, if o.fcsOk then HdlcFcsOk else HdlcFcsBad)) else Nothing)
  }

  /** Case `stOutHdlcFcs`, for data that came as frames. */
  function EndFrame(t: Tx): Outcome {
    if t.stateModem != StmOutNoMoreData then Failed(t)
    else
      var t1 := t.(countOut := 0, data := OutBuf([], false, true), pace := t.pace.(rawCount := t.pace.rawCount + 4),
                   pc := Closing(t.countOut == 0));
      var packet := Data(t.pars.mod, HdlcFcsOk);
      if t.stop.moreFrames then
        Outcome(t1.(stateOut := OutData, stateModem := StmOutMoreData), if t.countOut != 0 then EmitAck(packet) else Ack(true))
      else
        Outcome(t1.(stateOut := OutDataNoSig), if t.countOut != 0 then Emit(packet) else Nothing)
  }

  /** Case `stOutDataNoSig`. */
  function EndBurst(t: Tx): Outcome {
    if t.stateModem != StmOutNoMoreData || !IsData(t.pars.dataTypeT38) then Failed(t)
    else
      Outcome(t.(stateOut := OutNoSig, stateModem := StmIdle, pc := Closing(false)),
              EmitAck(Data(t.pars.mod, if t.pars.dataTypeT38 == DtHdlc then HdlcSigEnd else NonEcmSigEnd)))
  }

  /** No burst, and the modem sends nothing: at most one tone asked for by `SendOnIdle`. */
  function Idle(t: Tx): Outcome {
    var cng := t.between.onIdle == DtCng;
    Outcome(t.(between := t.between.(onIdle := DtNone), pc := if cng then Closing(false) else Waiting),
            if cng then Emit(Ind(CngTone)) else Nothing)
  }

  /** Case `stOutNoSig`. */
  function SendNoSignal(t: Tx, now: int): Outcome {
    Outcome(t.(stateOut := OutIdle, between := t.between.(delaySignal := true), pace := t.pace.(timeBegin := now + 75),
               pc := Closing(false)), Emit(Ind(NoSignal)))
  }

  /** Cases `stOutCedWait` and `stOutSilenceWait`: the time of the tone or the silence is over. */
  function EndTone(t: Tx): Outcome {
    var silence := t.stateOut == OutSilenceWait;
    Outcome(t.(stateOut := if silence then OutIdle else OutNoSig, stateModem := StmIdle, pc := Closing(true),
               pace := t.pace.(doDelay := t.pace.doDelay && !silence)),
            Ack(t.stateModem == StmOutNoMoreData))
  }

  /** The locked switch of `PreparePacket`. */
  function Look(t: Tx, now: int, o: Oracle): Outcome {
    match t.stateOut
    case OutIdle => if IsOut(t.stateModem) then BeginBurst(t, now) else Idle(t)
    case OutCedWait => EndTone(t)
    case OutSilenceWait => EndTone(t)
    case OutIndWait => BeginData(t, now)
    case OutData => Outcome(Fetch(t, o), Nothing)
    case OutHdlcFcs => if t.pars.dataType == DtRaw then EndConverted(t, o) else EndFrame(t)
    case OutDataNoSig => EndBurst(t)
    case OutNoSig => SendNoSignal(t, now)
  }

  /** The delay before the next round, computed after the switch. */
  function DelayEnd(t: Tx, now: int): int {
    match t.stateOut
    case OutIdle | OutDataNoSig | OutNoSig => now + MS_PER_OUT
    case OutCedWait | OutSilenceWait | OutIndWait => now + t.pars.lenInd
    case OutData | OutHdlcFcs => if t.pars.br == 0 then now else PaceEnd(t)
  }

  /** When the bytes counted so far are due at the bit rate, and one packet time more. */
  function PaceEnd(t: Tx): int
    requires t.pars.br != 0
  {
    t.pace.timeBegin + t.pace.rawCount * 8000 / t.pars.br + MS_PER_OUT
  }

  /** The end of the delay, if its time has come. */
  function Delay(t: Tx, now: int): Tx {
    if t.pace.doDelay && t.pace.timeDelayEnd > now then t else t.(pace := t.pace.(doDelay := true), pc := Looking)
  }

  /** The end of the wait for the modem: with a signal, or, for a packet that has to be ready in time, without one. */
  function Wake(t: Tx, now: int, signal: bool): Tx {
    if !signal then t.(pace := t.pace.(doDelay := true), pc := Ready)
    else if t.stateOut == OutData then
      t.(pace := t.pace.(rawCount := 0, timeBegin := now - MS_PER_OUT, doDelay := false), pc := Looking)
    else t.(pc := Looking)
  }

  /** After the switch: the next delay, then the next round, of this packet if it is still to come (`redo`). */
  function Close(t: Tx, now: int): Tx
    requires t.pc.Closing?
  {
    t.(pace := t.pace.(timeDelayEnd := DelayEnd(t, now), doDelay := t.pace.doDelay || !t.pc.redo), pc := Ready)
  }

  /** One step of the thread at time `now`; `signal` tells whether a wait ends with data or with a timeout. */
  function Step(t: Tx, now: int, signal: bool, o: Oracle): Outcome {
    match t.pc
    case Ready => Outcome(Delay(t, now), Nothing)
    case Looking => Look(t, now, o)
    case Got(_, _) => Use(t)
    case Waiting => Outcome(Wake(t, now, signal), Nothing)
    case Closing(_) => Outcome(Close(t, now), Nothing)
    case Stopped => Outcome(t, Nothing)
  }
}
