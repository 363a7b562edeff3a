/**
 When the packet thread gives up, exactly; that a reset inside a frame can make it give up; that without one
 a stop is always acknowledged in the end; and what is known once the engine says that nothing is left to send.
*/
module T38SendLimits {
  import opened BitSeq
  import opened EngineTypes
  import opened T38Types
  import opened T38Send
  import opened T38Grammar
  import opened T38Run
  import opened T38SendSafety
  import opened T38SendPayload

  // ------------------------------------------------------------- giving up

  /** The thread is at the end of a frame or of a burst. */
  predicate AtEnd(t: Tx) { t.pc == Looking && (t.stateOut == OutHdlcFcs || t.stateOut == OutDataNoSig) }

  /** Whether the modem's frame is closed by a reset alone after `e`, if it was (`closed`) or was not before. */
  predicate ClosedThen(t: Tx, closed: bool, e: Event) {
    match e
    case CallReset => t.stateModem == StmOutMoreData || closed
    case CallStop(_, _) => t.stateModem != StmOutMoreData && closed
    case CallStart(dataType, param, hdlcOnly) => !StartOk(t, dataType, param, hdlcOnly) && closed
    case _ => closed
  }

  /** A reset has closed the frame that the modem is in, and no `SendStop` has come since. */
  predicate ClosedByReset(events: seq<Event>) {
    events != [] &&
    ClosedThen(Exec(events[..|events| - 1]).tx, ClosedByReset(events[..|events| - 1]), events[|events| - 1])
  }

  /** The thread has come to the end of the frame. */
  predicate Spent(t: Tx) {
    t.stateOut == OutHdlcFcs || t.stateOut == OutDataNoSig || (t.stateOut == OutData && (t.pc == Got(-1, []) || !t.data.attached))
  }

  /** A frame that the modem is in has EOF exactly if a reset has closed it, and the thread comes to its end only then. */
  predicate ClosedOk(t: Tx, closed: bool) {
    && (t.stateModem == StmOutMoreData ==> (t.data.eof <==> closed) && (Spent(t) ==> closed))
    && (t.stateModem == StmOutNoMoreData ==> !closed)
    && (IsOut(t.stateModem) && IsData(t.pars.dataType) ==> Direct(t.pars))
  }

  /** At the end of a frame or burst the thread gives up exactly if the modem's `SendStop` is missing. */
  lemma LookGivesUp(t: Tx, now: int, o: Oracle, closed: bool)
    requires InStep(t) && ClosedOk(t, closed) && t.pc == Looking
    ensures Look(t, now, o).tx.pc == Stopped <==> AtEnd(t) && closed
    ensures ClosedOk(Look(t, now, o).tx, closed)
  {
    assert t.stateOut == OutData ==> PacketLen(t.pars.br) > 0;
    hide PacketLen;
  }

  lemma StepGivesUp(t: Tx, now: int, signal: bool, o: Oracle, closed: bool)
    requires InStep(t) && ClosedOk(t, closed)
    ensures var t1 := Step(t, now, signal, o).tx;
      ClosedOk(t1, closed) && (t1.pc == Stopped <==> t.pc == Stopped || (AtEnd(t) && closed))
  {
    hide Look, DelayEnd;
    if t.pc == Looking { LookGivesUp(t, now, o, closed); }
  }

  /** A new transmission starts with a new frame; a refused one leaves the modem idle or as it was. */
  lemma StartClosed(r: Run, dataType: DataType, param: int, hdlcOnly: bool, closed: bool)
    requires InStep(r.tx) && ClosedOk(r.tx, closed) && !DoStart(r, dataType, param, hdlcOnly).converted
    ensures var r1 := DoStart(r, dataType, param, hdlcOnly);
      ClosedOk(r1.tx, !StartOk(r.tx, dataType, param, hdlcOnly) && closed) && (r1.tx.pc == r.tx.pc)
  {
  }

  lemma StopClosed(r: Run, moreFrames: bool, callbackParam: int, closed: bool)
    requires ClosedOk(r.tx, closed)
    ensures var r1 := DoStop(r, moreFrames, callbackParam);
      ClosedOk(r1.tx, r.tx.stateModem != StmOutMoreData && closed) && r1.tx.pc == r.tx.pc
  {
    hide PayloadOf, IsLast;
  }

  lemma ResetClosed(r: Run, closed: bool)
    requires ClosedOk(r.tx, closed)
    ensures ClosedOk(DoReset(r).tx, r.tx.stateModem == StmOutMoreData || closed) && DoReset(r).tx.pc == r.tx.pc
  {
  }

  lemma OtherClosed(r: Run, e: Event, closed: bool)
    requires ClosedOk(r.tx, closed) && (e.CallSend? || e.CallOnIdle? || e.Carrier? || e.Receive?)
    ensures ClosedOk(Do(r, e).tx, closed) && Do(r, e).tx.pc == r.tx.pc
  {
  }

  lemma ClosedStep(r: Run, e: Event, closed: bool)
    requires InStep(r.tx) && ClosedOk(r.tx, closed) && !Do(r, e).converted
    ensures ClosedOk(Do(r, e).tx, ClosedThen(r.tx, closed, e))
    ensures Do(r, e).tx.pc == Stopped <==> r.tx.pc == Stopped || (e.Tick? && AtEnd(r.tx) && closed)
  {
    hide InStep, ClosedOk, Step, DoStart, DoStop, DoReset, DoSend, AtEnd, StartOk;
    match e
    case Tick(elapsed, signal, o) => StepGivesUp(r.tx, r.clock + elapsed, signal, o, closed);
    case CallStart(dataType, param, hdlcOnly) => StartClosed(r, dataType, param, hdlcOnly, closed);
    case CallStop(moreFrames, callbackParam) => StopClosed(r, moreFrames, callbackParam, closed);
    case CallReset => ResetClosed(r, closed);
    case _ => OtherClosed(r, e, closed);
  }

  lemma ClosedPush(before: seq<Event>, e: Event)
    ensures ClosedByReset(before + [e]) == ClosedThen(Exec(before).tx, ClosedByReset(before), e)
  {
    hide Exec, StartOk;
    assert (before + [e])[..|before|] == before && (before + [e])[|before|] == e;
  }

  /** At packet `k` of the run the thread was at an end, and the frame was closed by a reset alone. */
  ghost predicate UnstoppedAt(events: seq<Event>, k: nat) {
    k < |events| && events[k].Tick? && AtEnd(Exec(events[..k]).tx) && ClosedByReset(events[..k])
  }

  /**
   In every run without conversion, the thread has given up if and only if it came, at some moment, to the end of a
   frame that a modem reset had closed and that no `SendStop` had closed after that.
  */
  lemma {:induction false} GivesUp(events: seq<Event>)
    requires !Exec(events).converted
    ensures ClosedOk(Exec(events).tx, ClosedByReset(events))
    ensures Exec(events).tx.pc == Stopped <==> exists k :: UnstoppedAt(events, k)
  {
    if events != [] {
      hide Do, ClosedOk, AtEnd, ClosedByReset, ClosedThen;
      var n := |events| - 1;
      var before := events[..n];
      ConvertedStays(Exec(before), events[n]);
      GivesUp(before);
      Grammar(before);
      assert events == before + [events[n]];
      ClosedPush(before, events[n]);
      ClosedStep(Exec(before), events[n], ClosedByReset(before));
      forall k: nat | k < n ensures UnstoppedAt(events, k) <==> UnstoppedAt(before, k) { assert events[..k] == before[..k]; }
      assert UnstoppedAt(events, n) <==> events[n].Tick? && AtEnd(Exec(before).tx) && ClosedByReset(before);
    }
  }

  lemma ConvertedStays(r: Run, e: Event)
    ensures r.converted ==> Do(r, e).converted
  {
  }

  const NO_ORACLE := Oracle([], false, [], false, 0)

  /** The run `events` leaves the engine in `t` at time `clock`, with a reset inside a frame or without. */
  ghost predicate Reaches(events: seq<Event>, t: Tx, clock: int, cutShort: bool) {
    var r := Exec(events);
    r.tx == t && r.clock == clock && r.cutShort == cutShort && !r.converted
  }

  lemma Call(events: seq<Event>, e: Event)
    ensures Exec(events + [e]) == Do(Exec(events), e)
  {
    assert (events + [e])[..|events|] == events;
  }

  lemma Wait(events: seq<Event>, t: Tx, clock: int, cutShort: bool, elapsed: nat) returns (longer: seq<Event>)
    requires Reaches(events, t, clock, cutShort)
    ensures Reaches(longer, Step(t, clock + elapsed, false, NO_ORACLE).tx, clock + elapsed, cutShort)
  {
    hide Step;
    longer := events + [Tick(elapsed, false, NO_ORACLE)];
    Call(events, Tick(elapsed, false, NO_ORACLE));
  }

  const FRAME_PARS := OutPars(DtHdlc, DtHdlc, Training(V21, false), 900, V21, 300)

  lemma FrameParsFor()
    ensures ParsFor(DtHdlc, 3, false) == Some(FRAME_PARS)
  {
    assert GetModRow(3) == Some(ModRow(3, Training(V21, false), 900, V21, 300));
  }

  const QUIET := Tx(OutIdle, StmIdle, INVALID_PARS, Ready, OutBuf([], false, false), 0, StopPars(false, -1),
                    Pace(0, 75, 30, true), Between(DtNone, true, 0))

  /** The engine once its first no-signal is out. */
  lemma FirstNoSignal() returns (events: seq<Event>)
    ensures Reaches(events, QUIET, 0, false)
  {
    assert Reaches([], START, 0, false);
    hide Exec;
    events := Wait([], START, 0, false, 0);
    var t := START.(pc := Looking);
    events := Wait(events, t, 0, false, 0);
    t := t.(stateOut := OutIdle, between := Between(DtNone, true, 0), pace := Pace(0, 75, 0, true), pc := Closing(false));
    events := Wait(events, t, 0, false, 0);
  }

  /** A V.21 transmission is started, and its indicator goes out as soon as the gap after no-signal is over. */
  lemma FirstIndicator() returns (events: seq<Event>)
    ensures Reaches(events, QUIET.(stateModem := StmOutMoreData, pars := FRAME_PARS, stateOut := OutIndWait,
                                   between := Between(DtNone, false, 0), pace := Pace(0, 75, 1000, true)), 100, false)
  {
    hide Exec;
    events := FirstNoSignal();
    FrameParsFor();
    Call(events, CallStart(DtHdlc, 3, false));
    events := events + [CallStart(DtHdlc, 3, false)];
    var t := QUIET.(stateModem := StmOutMoreData, pars := FRAME_PARS);
    assert Reaches(events, t, 0, false);
    hide ParsFor;
    events := Wait(events, t, 0, false, 100);
    events := Wait(events, t.(pc := Looking), 100, false, 0);
    t := t.(stateOut := OutIndWait, between := Between(DtNone, false, 0), pc := Closing(false));
    events := Wait(events, t, 100, false, 0);
  }

  /** The same up to the time its first frame is looked for; nothing of it is sent yet. */
  lemma FirstFrame() returns (events: seq<Event>, t: Tx)
    ensures Reaches(events, t, 1000, false)
    ensures t == Tx(OutData, StmOutMoreData, FRAME_PARS, Ready, OutBuf([], false, true), 0, StopPars(false, -1),
                    Pace(0, 1000, 1030, true), Between(DtNone, false, 0))
  {
    hide Exec;
    events := FirstIndicator();
    t := QUIET.(stateModem := StmOutMoreData, pars := FRAME_PARS, stateOut := OutIndWait,
                between := Between(DtNone, false, 0), pace := Pace(0, 75, 1000, true));
    events := Wait(events, t, 100, false, 900);
    events := Wait(events, t.(pc := Looking), 1000, false, 0);
    t := t.(stateOut := OutData, data := OutBuf([], false, true), pace := Pace(0, 1000, 1000, true), pc := Closing(true));
    events := Wait(events, t, 1000, false, 0);
    t := t.(pc := Ready, pace := Pace(0, 1000, 1030, true));
  }

  /**
   The same transmission, with a reset before its `SendStop`: the reset sets EOF but leaves the
   modem's state, so the thread comes to the end of the frame and gives up.
  */
  lemma {:induction false} ResetInsideFrame() returns (events: seq<Event>)
    ensures var r := Exec(events); r.cutShort && !r.converted && r.tx.pc == Stopped
  {
    var t: Tx;
    events, t := FirstFrame();
    Call(events, CallReset);
    events := events + [CallReset];
    t := t.(data := OutBuf([], true, true));
    hide Exec;
    assert Reaches(events, t, 1000, true);
    events := Wait(events, t, 1000, true, 30);
    t := t.(pc := Looking);
    events := Wait(events, t, 1030, true, 0);
    t := t.(data := OutBuf([], true, false), pc := Got(-1, []));
    events := Wait(events, t, 1030, true, 0);
    t := t.(stateOut := OutHdlcFcs, pc := Closing(true));
    events := Wait(events, t, 1030, true, 0);
    t := t.(pc := Ready);
    events := Wait(events, t, 1030, true, 0);
    events := Wait(events, t.(pc := Looking), 1030, true, 0);
  }

  // ------------------------------------------------------------- progress

  /** How many more rounds of the switch there are at most before a pending stop is acknowledged. */
  function Rounds(t: Tx): nat {
    match t.stateOut
    case OutNoSig => |t.data.buf| + 8
    case OutIdle => |t.data.buf| + (if t.between.carrierIn == 1 then 7 else 6)
    case OutIndWait => |t.data.buf| + 5
    case OutCedWait | OutSilenceWait => 4
    case OutData => |t.data.buf| + (if t.data.attached then 4 else 3)
    case OutHdlcFcs => 2
    case OutDataNoSig => 1
  }

  /** How many more steps there are in this round. */
  function StepsLeft(pc: Pc): nat {
    match pc
    case Got(_, _) => 5
    case Closing(_) => 4
    case Waiting => 3
    case Ready => 2
    case Looking => 1
    case Stopped => 0
  }

  /** A bound on the steps of the thread to come. */
  function Work(t: Tx): nat { 6 * Rounds(t) + StepsLeft(t.pc) }

  /** How long to wait so that no delay is left to sit out. */
  function Patience(t: Tx, clock: int): (elapsed: nat)
    ensures clock + elapsed >= t.pace.timeDelayEnd && clock + elapsed >= t.pace.timeBegin
  {
    var end := if t.pace.timeDelayEnd > t.pace.timeBegin then t.pace.timeDelayEnd else t.pace.timeBegin;
    if end > clock then end - clock else 0
  }

  /** A stop is pending, in a direct transmission or a tone, and every byte of it is accounted for. */
  ghost predicate Due(t: Tx, all: seq<seq<Byte>>, a: Asm) {
    && InStep(t) && t.stateModem == StmOutNoMoreData && t.pc != Stopped
    && (IsData(t.pars.dataType) ==> Direct(t.pars) && Carried(t, all, a))
  }

  lemma FetchFalls(t: Tx, o: Oracle, all: seq<seq<Byte>>, a: Asm)
    requires Due(t, all, a) && t.pc == Looking && t.stateOut == OutData
    ensures Work(Fetch(t, o)) < Work(t)
  {
    hide NonEmpty, ArrivedUpTo, Fits;
    assert PacketLen(t.pars.br) > 0;
  }

  lemma LookFalls(t: Tx, now: int, o: Oracle, all: seq<seq<Byte>>, a: Asm)
    requires Due(t, all, a) && now >= t.pace.timeBegin && t.pc == Looking
    ensures var next := Look(t, now, o); Acked(next.tx, next.effect) != [] || Work(next.tx) < Work(t)
  {
    hide NonEmpty, ArrivedUpTo, PacketLen;
    if t.stateOut == OutData { hide Look, Work; FetchFalls(t, o, all, a); LookIsFetch(t, now, o); } else { hide Fetch; }
  }

  lemma LookIsFetch(t: Tx, now: int, o: Oracle)
    requires t.stateOut == OutData
    ensures Look(t, now, o) == Outcome(Fetch(t, o), Nothing)
  {
  }

  /** Each step that does not acknowledge the stop leaves less to do before that, whatever wakes the thread. */
  lemma StepFalls(t: Tx, now: int, signal: bool, o: Oracle, all: seq<seq<Byte>>, a: Asm)
    requires Due(t, all, a) && now >= t.pace.timeDelayEnd && now >= t.pace.timeBegin
    ensures var next := Step(t, now, signal, o); Acked(next.tx, next.effect) != [] || Work(next.tx) < Work(t)
  {
    hide NonEmpty, ArrivedUpTo, PacketLen, Look, DelayEnd;
    if t.pc == Looking { LookFalls(t, now, o, all, a); }
  }

  /** The thread never changes what a stop asked for, and a pending stop stays pending until it is acknowledged. */
  lemma StepStop(t: Tx, now: int, signal: bool, o: Oracle)
    ensures var next := Step(t, now, signal, o);
      next.tx.stop == t.stop
      && (t.stateModem == StmOutNoMoreData && Acked(next.tx, next.effect) == [] ==> next.tx.stateModem == StmOutNoMoreData)
  {
    StepAcks(t, now, signal, o);
  }

  /** The run has no reset inside a frame and no conversion, and its last stop is not acknowledged yet. */
  predicate Waits(r: Run) { !r.cutShort && !r.converted && r.tx.stateModem == StmOutNoMoreData }

  lemma DueFrom(r: Run)
    requires Faithful(r) && Waits(r)
    ensures Due(r.tx, AllFrames(r.tx.stateModem, r.frames, r.cur), AsmOf(r.out))
  {
    hide Carried, AsmOf, Fits, OnTheWay;
  }

  /** A step of the thread after a wait that outlasts the delays it is held by. */
  predicate LongEnough(r: Run, e: Event) { e.Tick? && e.elapsed >= Patience(r.tx, r.clock) }

  /** The next step acknowledges the stop, or leaves less to do before that. */
  lemma TickFalls(r: Run, e: Event)
    requires Faithful(r) && Waits(r) && LongEnough(r, e)
    ensures var r1 := Do(r, e);
      r1.acks == r.acks + [r.tx.stop.callbackParam]
      || (r1.acks == r.acks && r1.tx.stop == r.tx.stop && Waits(r1) && Work(r1.tx) < Work(r.tx))
  {
    hide Step, Work, Faithful, Due;
    DueFrom(r);
    var now := r.clock + e.elapsed;
    StepFalls(r.tx, now, e.signal, e.oracle, AllFrames(r.tx.stateModem, r.frames, r.cur), AsmOf(r.out));
    StepStop(r.tx, now, e.signal, e.oracle);
    hide AllFrames, AsmOf;
  }

  lemma DoAcksGrow(r: Run, e: Event)
    ensures r.acks <= Do(r, e).acks
  {
    hide Step, SendStart, PayloadOf, IsLast, Acked;
  }

  /** No acknowledgement is taken back. */
  lemma {:induction false} AcksGrow(events: seq<Event>, more: seq<Event>)
    ensures Exec(events).acks <= Exec(events + more).acks
    decreases |more|
  {
    hide Do;
    if more == [] {
      assert events + [] == events;
    } else {
      AcksGrow(events, more[..|more| - 1]);
      assert (events + more)[..|events + more| - 1] == events + more[..|more| - 1];
      DoAcksGrow(Exec(events + more[..|more| - 1]), more[|more| - 1]);
    }
  }

  /** All the steps of `more`, taken after `events`, are steps of the thread that wait long enough. */
  ghost predicate AllLongEnough(events: seq<Event>, more: seq<Event>) {
    forall i :: 0 <= i < |more| ==> LongEnough(Exec(events + more[..i]), more[i])
  }

  /**
   From any point where a stop is pending time alone brings its acknowledgement, on every schedule: any steps of the
   thread, woken by data or by a timeout, that outlast its delays, if they are `Work` at least.
  */
  lemma {:induction false} StopIsAnswered(events: seq<Event>, more: seq<Event>)
    requires Waits(Exec(events)) && AllLongEnough(events, more) && |more| >= Work(Exec(events).tx)
    ensures Exec(events).acks + [Exec(events).tx.stop.callbackParam] <= Exec(events + more).acks
    decreases |more|
  {
    hide Exec, Do, Faithful, Work, AsmOf, OnTheWay, LongEnough, Waits;
    var r := Exec(events);
    Delivered(events);
    assert !r.cutShort && !r.converted ==> Faithful(r);
    WorkSome(r);
    var e, rest := more[0], more[1..];
    assert events + more[..0] == events;
    assert LongEnough(Exec(events + more[..0]), more[0]);
    TickFalls(r, e);
    Call(events, e);
    assert events + [e] + rest == events + more;
    if Exec(events + [e]).acks == r.acks + [r.tx.stop.callbackParam] {
      AcksGrow(events + [e], rest);
    } else {
      forall i | 0 <= i < |rest| ensures LongEnough(Exec(events + [e] + rest[..i]), rest[i]) {
        assert events + [e] + rest[..i] == events + more[..i + 1];
        assert LongEnough(Exec(events + more[..i + 1]), more[i + 1]);
      }
      StopIsAnswered(events + [e], rest);
    }
  }

  lemma WorkSome(r: Run)
    requires Waits(r)
    ensures Work(r.tx) > 0
  {
  }

  // ------------------------------------------------------------- nothing on its way

  /** Once the engine says that sending is completed. */
  lemma {:induction false} AllSent(events: seq<Event>, now: int)
    requires !Busy(Exec(events).tx, now)
    ensures var r := Exec(events);
      && GramOf(r.out) == Quiet
      && (!IsOut(r.tx.stateModem) ==> r.acks == r.stops)
      && (!IsOut(r.tx.stateModem) && !r.cutShort && !r.converted ==> AsmOf(r.out).bursts == r.asked)
  {
    hide Exec, GramOf, AsmOf, InStep, Carried;
    Grammar(events);
    Acknowledged(events);
    Delivered(events);
  }

  /** And while it says that it is not, there is a burst on the line, the no-signal after it is not out or new, or a silence lasts. */
  lemma {:induction false} StillBusy(events: seq<Event>, now: int)
    requires Busy(Exec(events).tx, now)
    ensures var r := Exec(events);
      GramOf(r.out) != Quiet || r.tx.stateOut == OutSilenceWait || now < r.tx.pace.timeBegin
  {
    hide Exec, GramOf, InStep;
    Grammar(events);
  }
}
