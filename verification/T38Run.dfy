/** Runs of the transmit side: the modem's calls and the packet thread's steps in any order, with what was asked and what came out. */
module T38Run {
  import opened BitSeq
  import opened EngineTypes
  import opened T38Types
  import opened T38Send
  import opened T38Grammar

  datatype Event =
    | CallStart(dataType: DataType, param: int, hdlcOnly: bool)
    | CallSend(bytes: seq<Byte>)
    | CallStop(moreFrames: bool, callbackParam: int)
    | CallOnIdle(dataType: DataType)
    | CallReset
    | Carrier(heard: bool)
    | Receive(stateModem: StateModem)
    | Tick(elapsed: nat, signal: bool, oracle: Oracle)

  /**
   The engine, the clock in ms and the packets sent. The rest is history: the frames of this
   transmission that `SendStop` closed, the bytes accepted since, the payloads of whole
   transmissions asked for, the callback parameters of the stops accepted and of the stops
   acknowledged; whether a modem reset came inside a frame, or data was asked to be converted.
  */
  datatype Run = Run(
    tx: Tx,
    clock: int,
    out: seq<Packet>,
    frames: seq<seq<Byte>>,
    cur: seq<Byte>,
    asked: seq<Payload>,
    stops: seq<int>,
    acks: seq<int>,
    cutShort: bool,
    converted: bool)

  const INITIAL := Run(START, 0, [], [], [], [], [], [], false, false)

  function NonEmpty(frames: seq<seq<Byte>>): seq<seq<Byte>> {
    if frames == [] then []
    else
      var before := NonEmpty(frames[..|frames| - 1]);
      var last := frames[|frames| - 1];
      if last == [] then before else before + [last]
  }

  /** What a transmission with these frames is to arrive as; one that carries raw data has one frame. */
  function PayloadOf(dataType: DataType, frames: seq<seq<Byte>>): Payload
    requires frames != []
  {
    if dataType == DtHdlc then FramesOf(NonEmpty(frames)) else ImageOf(frames[|frames| - 1])
  }

  function DoStart(r: Run, dataType: DataType, param: int, hdlcOnly: bool): Run {
    var tx := SendStart(r.tx, dataType, param, hdlcOnly);
    if StartOk(r.tx, dataType, param, hdlcOnly) then
      r.(tx := tx, frames := [], cur := [], converted := r.converted || (IsData(dataType) && !Direct(tx.pars)))
    else r.(tx := tx)
  }

  function DoSend(r: Run, bytes: seq<Byte>): Run {
    r.(tx := Send(r.tx, bytes), cur := if SendOk(r.tx) then r.cur + bytes else r.cur)
  }

  /** The modem says that this stop is the last of its transmission; raw data has only one. */
  predicate IsLast(dataType: DataType, moreFrames: bool) { IsData(dataType) && (dataType == DtRaw || !moreFrames) }

  function DoStop(r: Run, moreFrames: bool, callbackParam: int): Run {
    if !StopOk(r.tx) then r
    else
      var dataType := r.tx.pars.dataType;
      var frames := r.frames + [r.cur];
      r.(tx := SendStop(r.tx, moreFrames, callbackParam), frames := frames, cur := [], stops := r.stops + [callbackParam],
         asked := if IsLast(dataType, moreFrames) then r.asked + [PayloadOf(dataType, frames)] else r.asked)
  }

  /** A reset replaces the callback parameter of the stop it finds pending. */
  function DoReset(r: Run): Run {
    r.(tx := Reset(r.tx),
       cutShort := r.cutShort || r.tx.stateModem == StmOutMoreData,
       stops := if r.tx.stateModem == StmOutNoMoreData && r.stops != [] then r.stops[..|r.stops| - 1] + [-1] else r.stops)
  }

  /** The packet that an effect sends, if any. */
  function Sent(effect: Effect): seq<Packet> {
    if effect.Emit? || effect.EmitAck? then [effect.packet] else []
  }

  /** The stop that an effect acknowledges, if any: the modem's callback, made after its `SendStop`. */
  function Acked(t: Tx, effect: Effect): seq<int> {
    if effect.EmitAck? || (effect.Ack? && effect.done) then [t.stop.callbackParam] else []
  }

  function DoTick(r: Run, elapsed: nat, signal: bool, o: Oracle): Run {
    var now := r.clock + elapsed;
    var next := Step(r.tx, now, signal, o);
    r.(tx := next.tx, clock := now, out := r.out + Sent(next.effect), acks := r.acks + Acked(next.tx, next.effect))
  }

  function Do(r: Run, e: Event): Run {
    match e
    case CallStart(dataType, param, hdlcOnly) => DoStart(r, dataType, param, hdlcOnly)
    case CallSend(bytes) => DoSend(r, bytes)
    case CallStop(moreFrames, callbackParam) => DoStop(r, moreFrames, callbackParam)
    case CallOnIdle(dataType) => r.(tx := r.tx.(between := r.tx.between.(onIdle := dataType)))
    case CallReset => DoReset(r)
    case Carrier(heard) => r.(tx := r.tx.(between := r.tx.between.(carrierIn := if heard then 1 else 0)))
    case Receive(s) => if IsOut(r.tx.stateModem) || IsOut(s) then r else r.(tx := r.tx.(stateModem := s))
    case Tick(elapsed, signal, o) => DoTick(r, elapsed, signal, o)
  }

  function Exec(events: seq<Event>): Run {
    if events == [] then INITIAL else Do(Exec(events[..|events| - 1]), events[|events| - 1])
  }
}
