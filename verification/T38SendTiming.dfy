/**
 When the packet thread begins a burst, and how long its indicators, tones and silences last: exactly, in every run,
 told by the times at which things were seen and not by what the engine remembers of them.
*/
module T38SendTiming {
  import opened BitSeq
  import opened EngineTypes
  import opened T38Types
  import opened T38Send
  import opened T38Grammar
  import opened T38Run
  import opened T38SendSafety

  /**
   What an observer notes: when the last no-signal went out, and whether a silence has begun since; whether the other
   side's carrier is heard, when the thread first found it with a burst to begin and the gap over, and how many ms it
   has been waited out for, if it has; how long the modem said its signal is; when the last round of the switch ended,
   and the last one that began an indicator, a tone or a silence.
  */
  datatype Clocks = Clocks(quietAt: int, silenced: bool, heard: bool, found: Option<int>, waited: nat, length: int, closedAt: int, toneAt: int)

  const CLOCKS_START := Clocks(0, false, false, None, 0, -1, -30, 0)

  /** The modem's calls, and the receive side. */
  function Noted(k: Clocks, r: Run, e: Event): Clocks {
    match e
    case Carrier(heard) => k.(heard := heard, found := None, waited := 0)
    case CallStart(dataType, param, hdlcOnly) =>
      if StartOk(r.tx, dataType, param, hdlcOnly) then k.(length := LengthOf(dataType, param))
      else if r.tx.stateModem == StmIdle then k.(length := -1) else k
    case Tick(elapsed, signal, o) => Clocked(k, r.tx, r.clock + elapsed, Step(r.tx, r.clock + elapsed, signal, o).effect)
    case _ => k
  }

  /** A tone or a silence lasts as long as the modem says, an indicator as long as the table says. */
  function LengthOf(dataType: DataType, param: int): int {
    if IsData(dataType) && GetModRow(param).Some? then GetModRow(param).value.lenInd else param
  }

  /** How long the other side's carrier is waited out, in ms. */
  function CarrierWait(dataType: DataType): nat { if dataType == DtHdlc then 500 else 2000 }

  /** The gap of 75 ms after the last no-signal is over; a silence does not keep it. */
  predicate GapOver(k: Clocks, now: int) { k.silenced || now >= k.quietAt + 75 }

  /** The thread looks for what to do, with a burst of data to begin. */
  predicate AtBurst(t: Tx) { t.pc == Looking && t.stateOut == OutIdle && IsOut(t.stateModem) && IsData(t.pars.dataType) }

  /** The carrier is not heard, or was waited out, now or before. */
  predicate CarrierOver(k: Clocks, dataType: DataType, now: int) {
    !k.heard || k.waited > 0 || (k.found.Some? && now >= k.found.value + CarrierWait(dataType))
  }

  /** A step of the thread from `t`. */
  function Clocked(k: Clocks, t: Tx, now: int, effect: Effect): Clocks {
    if effect == Emit(Ind(NoSignal)) then k.(quietAt := now, silenced := false)
    else if t.pc.Closing? then k.(closedAt := now, toneAt := if InTone(t.stateOut) then now else k.toneAt)
    else if AtBurst(t) && GapOver(k, now) && k.heard && k.waited == 0 then
      if k.found == None then k.(found := Some(now))
      else if now >= k.found.value + CarrierWait(t.pars.dataType) then k.(waited := CarrierWait(t.pars.dataType))
      else k
    else if t.pc == Looking && t.stateOut == OutIdle && IsOut(t.stateModem) && t.pars.dataType == DtSilence then k.(silenced := true)
    else k
  }

  datatype Timed = Timed(run: Run, clocks: Clocks)

  function TimeAll(events: seq<Event>): Timed {
    if events == [] then Timed(INITIAL, CLOCKS_START)
    else
      var before := TimeAll(events[..|events| - 1]);
      Timed(Do(before.run, events[|events| - 1]), Noted(before.clocks, before.run, events[|events| - 1]))
  }

  lemma {:induction false} TimeRuns(events: seq<Event>)
    ensures TimeAll(events).run == Exec(events)
  {
    if events != [] {
      hide Do, Noted;
      TimeRuns(events[..|events| - 1]);
    }
  }

  // ------------------------------------------------------------- the invariant

  /** What the engine remembers of the gap. */
  predicate GapKept(t: Tx, k: Clocks, clock: int) {
    t.stateOut == OutIdle || t.stateOut == OutSilenceWait ==>
      if t.between.delaySignal then t.pace.timeBegin == k.quietAt + 75 && !k.silenced else GapOver(k, clock)
  }

  /** What it remembers of the carrier. */
  predicate CarrierKept(t: Tx, k: Clocks, clock: int) {
    && t.between.carrierIn == (if !k.heard || k.waited > 0 then 0 else if k.found == None then 1 else 2)
    && (k.found.Some? ==> k.heard) && (k.waited > 0 ==> k.found.Some? && clock >= k.found.value + k.waited && k.waited >= 500)
    && (t.between.carrierIn == 2 ==>
          && t.stateOut == OutIdle && IsOut(t.stateModem) && IsData(t.pars.dataType) && !t.between.delaySignal
          && t.pace.timeBegin == k.found.value + CarrierWait(t.pars.dataType))
  }

  /** An indicator, a tone or a silence is on the line, and the thread waits for the end of its time. */
  predicate InTone(s: StateOut) { s == OutIndWait || s == OutCedWait || s == OutSilenceWait }

  /** How long the thread pauses after a round that left `t`, but for a burst's data, which is paced by its bytes. */
  function Pause(t: Tx, k: Clocks): int { if InTone(t.stateOut) then k.length else 30 }

  predicate PauseKept(t: Tx, k: Clocks, clock: int) {
    && (IsOut(t.stateModem) ==> t.pars.lenInd == k.length)
    && (OnLine(t.stateOut) && t.stateOut != OutIndWait ==> clock >= k.toneAt + k.length)
    && (t.stateOut != OutData && t.stateOut != OutHdlcFcs ==>
          && (t.pc == Ready || t.pc == Looking || t.pc == Waiting ==> t.pace.timeDelayEnd == k.closedAt + Pause(t, k))
          && (t.pc == Looking && InTone(t.stateOut) ==> clock >= k.closedAt + Pause(t, k))
          && ((t.pc == Ready || t.pc == Looking) && InTone(t.stateOut) ==> k.toneAt == k.closedAt)
          && (t.pc == Looking || t.pc == Waiting ==> t.pace.doDelay)
          && (InTone(t.stateOut) ==> t.pace.doDelay || (t.pc.Closing? && !t.pc.redo))
          && (t.pc == Waiting ==> t.stateOut == OutIdle))
  }

  predicate Kept(t: Tx, k: Clocks, clock: int) { GapKept(t, k, clock) && CarrierKept(t, k, clock) && PauseKept(t, k, clock) }

  // ------------------------------------------------------------- one step

  lemma KeptLater(t: Tx, k: Clocks, clock: int, now: int)
    requires Kept(t, k, clock) && clock <= now
    ensures Kept(t, k, now)
  {
  }

  lemma BeginBurstKept(t: Tx, k: Clocks, now: int)
    requires Kept(t, k, now) && InStep(t) && t.pc == Looking && t.stateOut == OutIdle && IsOut(t.stateModem)
    ensures var next := BeginBurst(t, now); Kept(next.tx, Clocked(k, t, now, next.effect), now)
  {
  }

  lemma DataKept(t: Tx, k: Clocks, now: int, o: Oracle)
    requires Kept(t, k, now) && InStep(t) && t.pc == Looking && (t.stateOut == OutData || t.stateOut == OutHdlcFcs)
    ensures var next := Look(t, now, o); Kept(next.tx, Clocked(k, t, now, next.effect), now)
  {
    hide PacketLen, BeginBurst, BeginData, EndBurst, EndTone, Idle, SendNoSignal;
  }

  lemma LookKept(t: Tx, k: Clocks, now: int, o: Oracle)
    requires Kept(t, k, now) && InStep(t) && t.pc == Looking
    ensures var next := Look(t, now, o); Kept(next.tx, Clocked(k, t, now, next.effect), now)
  {
    hide BeginBurst, Fetch, EndFrame, EndConverted;
    match t.stateOut
    case OutIdle => if IsOut(t.stateModem) { hide Clocked, Kept; BeginBurstKept(t, k, now); }
    case OutData => hide Clocked, Kept; DataKept(t, k, now, o);
    case OutHdlcFcs => hide Clocked, Kept; DataKept(t, k, now, o);
    case _ =>
  }

  lemma StepKept(t: Tx, k: Clocks, clock: int, now: int, signal: bool, o: Oracle)
    requires Kept(t, k, clock) && clock <= now && InStep(t)
    ensures var next := Step(t, now, signal, o); Kept(next.tx, Clocked(k, t, now, next.effect), now)
  {
    hide Look, GapKept, CarrierKept, PauseKept;
    KeptLater(t, k, clock, now);
    if t.pc == Looking { hide Clocked; LookKept(t, k, now, o); }
    else if t.pc.Got? { UseKept(t, k, now); }
    else { PauseKeeps(t, k, now, signal, o); }
  }

  lemma UseKept(t: Tx, k: Clocks, now: int)
    requires Kept(t, k, now) && InStep(t) && t.pc.Got?
    ensures var next := Use(t); Kept(next.tx, Clocked(k, t, now, next.effect), now)
  {
  }

  lemma PauseKeeps(t: Tx, k: Clocks, now: int, signal: bool, o: Oracle)
    requires Kept(t, k, now) && InStep(t) && t.pc != Looking && !t.pc.Got?
    ensures var next := Step(t, now, signal, o); Kept(next.tx, Clocked(k, t, now, next.effect), now)
  {
    hide Look, Use;
  }

  // ------------------------------------------------------------- every run

  lemma StartKept(r: Run, k: Clocks, dataType: DataType, param: int, hdlcOnly: bool)
    requires Kept(r.tx, k, r.clock) && InStep(r.tx)
    ensures var e := CallStart(dataType, param, hdlcOnly); Kept(Do(r, e).tx, Noted(k, r, e), r.clock)
  {
    hide CarrierWait, GetModRow;
    StartLength(dataType, param, hdlcOnly);
    hide ParsFor, LengthOf;
  }

  lemma StartLength(dataType: DataType, param: int, hdlcOnly: bool)
    ensures ParsFor(dataType, param, hdlcOnly).Some? ==> ParsFor(dataType, param, hdlcOnly).value.lenInd == LengthOf(dataType, param)
  {
  }

  lemma CallKept(r: Run, k: Clocks, e: Event)
    requires Kept(r.tx, k, r.clock) && InStep(r.tx) && !e.Tick? && !e.CallStart?
    ensures Kept(Do(r, e).tx, Noted(k, r, e), r.clock) && Do(r, e).clock == r.clock
  {
    hide PayloadOf, IsLast, ParsOk;
    match e
    case Carrier(_) => hide DoSend, DoStop, DoReset, GapKept, PauseKept; OtherKept(r, k, e);
    case _ => hide GapKept, CarrierKept, PauseKept; OtherKept(r, k, e); CarrierStays(r, k, e);
  }

  lemma CarrierStays(r: Run, k: Clocks, e: Event)
    requires CarrierKept(r.tx, k, r.clock) && InStep(r.tx) && !e.Tick? && !e.CallStart? && !e.Carrier?
    ensures CarrierKept(Do(r, e).tx, k, r.clock)
  {
    hide PayloadOf, IsLast, ParsOk;
  }

  lemma OtherKept(r: Run, k: Clocks, e: Event)
    requires GapKept(r.tx, k, r.clock) && PauseKept(r.tx, k, r.clock) && InStep(r.tx) && !e.Tick? && !e.CallStart?
    ensures GapKept(Do(r, e).tx, Noted(k, r, e), r.clock) && PauseKept(Do(r, e).tx, Noted(k, r, e), r.clock) && Do(r, e).clock == r.clock
  {
    hide PayloadOf, IsLast, ParsOk;
  }

  lemma NotedKept(r: Run, k: Clocks, e: Event)
    requires Kept(r.tx, k, r.clock) && WellFormed(r)
    ensures Kept(Do(r, e).tx, Noted(k, r, e), Do(r, e).clock)
  {
    hide Kept, Step, Clocked, InStep, Fits, GramOf, DoStart, DoStop, DoReset, DoSend;
    match e
    case Tick(elapsed, signal, o) => StepKept(r.tx, k, r.clock, r.clock + elapsed, signal, o);
    case CallStart(dataType, param, hdlcOnly) => StartKept(r, k, dataType, param, hdlcOnly); SameClock(r, dataType, param, hdlcOnly);
    case _ => CallKept(r, k, e);
  }

  lemma SameClock(r: Run, dataType: DataType, param: int, hdlcOnly: bool)
    ensures DoStart(r, dataType, param, hdlcOnly).clock == r.clock
  {
  }

  lemma {:induction false} AlwaysKept(events: seq<Event>)
    ensures var w := TimeAll(events); Kept(w.run.tx, w.clocks, w.run.clock) && WellFormed(w.run)
  {
    if events != [] {
      hide Do, Noted, Kept, WellFormed;
      var before := events[..|events| - 1];
      AlwaysKept(before);
      NotedKept(TimeAll(before).run, TimeAll(before).clocks, events[|events| - 1]);
      DoKeeps(TimeAll(before).run, events[|events| - 1]);
    }
  }

  // ------------------------------------------------------------- when a burst begins

  /** The effect sends an indicator of this kind. */
  predicate SendsTraining(effect: Effect) { effect.Emit? && effect.packet.Ind? && effect.packet.ind.Training? }

  lemma BurstStep(t: Tx, k: Clocks, now: int, signal: bool, o: Oracle)
    requires Kept(t, k, now) && InStep(t)
    ensures SendsTraining(Step(t, now, signal, o).effect) <==>
      AtBurst(t) && GapOver(k, now) && CarrierOver(k, t.pars.dataType, now)
    ensures SendsTraining(Step(t, now, signal, o).effect) ==> Step(t, now, signal, o).effect.packet.ind == t.pars.ind
    ensures Step(t, now, signal, o).effect == Emit(Ind(CedTone)) <==>
      t.pc == Looking && t.stateOut == OutIdle && IsOut(t.stateModem) && t.pars.dataType == DtCed && GapOver(k, now)
  {
    hide Fetch, PauseKept;
  }

  /**
   In every run: the indicator of a burst of data goes out exactly when the thread looks for what to do with a burst to
   begin, 75 ms have passed since the last no-signal (or a silence has begun since), and the other side's carrier is
   not heard, or the thread has known of it, with the gap over, for 500 ms if frames are to be sent and 2000 ms if raw
   data is; a carrier that was waited out once is not waited out again.
  */
  lemma {:induction false} BurstBegins(events: seq<Event>, elapsed: nat, signal: bool, o: Oracle)
    ensures var w := TimeAll(events);
      var t, k, now := w.run.tx, w.clocks, w.run.clock + elapsed;
      SendsTraining(Step(t, now, signal, o).effect) <==>
        && AtBurst(t) && (k.silenced || now >= k.quietAt + 75)
        && (!k.heard || k.waited > 0 || (k.found.Some? && now - k.found.value >= (if t.pars.dataType == DtHdlc then 500 else 2000)))
  {
    hide TimeAll, Step, Kept, WellFormed;
    var w := TimeAll(events);
    AlwaysKept(events);
    FormedInStep(w.run);
    KeptLater(w.run.tx, w.clocks, w.run.clock, w.run.clock + elapsed);
    BurstStep(w.run.tx, w.clocks, w.run.clock + elapsed, signal, o);
  }

  lemma FormedInStep(r: Run)
    requires WellFormed(r)
    ensures InStep(r.tx)
  {
  }

  /**
   So no indicator goes out over the other side's carrier before the thread has known of that carrier for 500 ms; and
   2000 ms, for raw data, unless a burst of frames has waited it out before.
  */
  lemma {:induction false} NotOverCarrier(events: seq<Event>, elapsed: nat, signal: bool, o: Oracle)
    requires var w := TimeAll(events); w.clocks.heard && SendsTraining(Step(w.run.tx, w.run.clock + elapsed, signal, o).effect)
    ensures var w := TimeAll(events);
      var t, k, now := w.run.tx, w.clocks, w.run.clock + elapsed;
      && k.found.Some? && now >= k.found.value + 500
      && (t.pars.dataType == DtRaw && k.waited == 0 ==> now >= k.found.value + 2000)
  {
    hide TimeAll, Step;
    AlwaysKept(events);
    BurstBegins(events, elapsed, signal, o);
    hide GapKept, PauseKept, WellFormed;
  }

  /** CED waits out the gap as well, and no carrier. */
  lemma {:induction false} CedBegins(events: seq<Event>, elapsed: nat, signal: bool, o: Oracle)
    ensures var w := TimeAll(events);
      var t, k, now := w.run.tx, w.clocks, w.run.clock + elapsed;
      Step(t, now, signal, o).effect == Emit(Ind(CedTone)) <==>
        && t.pc == Looking && t.stateOut == OutIdle && IsOut(t.stateModem) && t.pars.dataType == DtCed
        && (k.silenced || now >= k.quietAt + 75)
  {
    hide TimeAll, Step, Kept, WellFormed;
    var w := TimeAll(events);
    AlwaysKept(events);
    FormedInStep(w.run);
    KeptLater(w.run.tx, w.clocks, w.run.clock, w.run.clock + elapsed);
    BurstStep(w.run.tx, w.clocks, w.run.clock + elapsed, signal, o);
  }

  // ------------------------------------------------------------- how long things last

  /**
   In every run: while an indicator, a tone or a silence is on the line, the thread goes on exactly when as much time has
   passed as the modem said, or the table says for its modulation; and elsewhere between bursts after 30 ms, or at once
   after a silence.
  */
  lemma {:induction false} PauseEnds(events: seq<Event>, elapsed: nat, signal: bool, o: Oracle)
    requires var t := TimeAll(events).run.tx; t.pc == Ready && t.stateOut != OutData && t.stateOut != OutHdlcFcs
    ensures var w := TimeAll(events);
      var t, k, now := w.run.tx, w.clocks, w.run.clock + elapsed;
      var goesOn := Step(t, now, signal, o).tx.pc == Looking;
      if InTone(t.stateOut) then goesOn <==> now >= k.toneAt + k.length
      else goesOn <==> now >= k.closedAt + 30 || !t.pace.doDelay
  {
    hide TimeAll, Look, Use, Wake, Close, GapKept, CarrierKept, WellFormed;
    AlwaysKept(events);
  }

  /** What an effect sends or acknowledges that has to wait for the end of an indicator, a tone or a silence. */
  predicate AfterTone(t: Tx, effect: Effect) {
    (effect.Emit? && effect.packet.Data?) || (effect.EmitAck? && effect.packet.Data?) || (effect.Ack? && InTone(t.stateOut))
  }

  /** In every run no data goes out, and no tone or silence is acknowledged, before that time is over. */
  lemma {:induction false} NothingEarly(events: seq<Event>, elapsed: nat, signal: bool, o: Oracle)
    requires var w := TimeAll(events); AfterTone(w.run.tx, Step(w.run.tx, w.run.clock + elapsed, signal, o).effect)
    ensures var w := TimeAll(events); w.run.clock + elapsed >= w.clocks.toneAt + w.clocks.length
  {
    hide TimeAll, Fetch, GapKept, CarrierKept, Fits, GramOf, Delay, Wake, Close;
    AlwaysKept(events);
  }

  // ------------------------------------------------------------- the tone between bursts

  function CngAsked(events: seq<Event>): nat {
    if events == [] then 0
    else CngAsked(events[..|events| - 1]) + (if events[|events| - 1] == CallOnIdle(DtCng) then 1 else 0)
  }

  function CngSent(packets: seq<Packet>): nat {
    if packets == [] then 0 else CngSent(packets[..|packets| - 1]) + (if packets[|packets| - 1] == Ind(CngTone) then 1 else 0)
  }

  function CngDue(t: Tx): nat { if t.between.onIdle == DtCng then 1 else 0 }

  lemma CngPush(packets: seq<Packet>, effect: Effect)
    ensures CngSent(packets + Sent(effect)) == CngSent(packets) + (if effect == Emit(Ind(CngTone)) || effect == EmitAck(Ind(CngTone)) then 1 else 0)
  {
    if Sent(effect) == [] {
      assert packets + [] == packets;
    } else {
      assert (packets + Sent(effect))[..|packets|] == packets;
    }
  }

  lemma CngStep(t: Tx, now: int, signal: bool, o: Oracle)
    requires InStep(t)
    ensures var next := Step(t, now, signal, o);
      CngDue(next.tx) + (if next.effect == Emit(Ind(CngTone)) || next.effect == EmitAck(Ind(CngTone)) then 1 else 0) <= CngDue(t)
  {
    hide PacketLen;
  }

  lemma CngDo(r: Run, e: Event)
    requires WellFormed(r)
    ensures CngSent(Do(r, e).out) + CngDue(Do(r, e).tx) <=
      CngSent(r.out) + CngDue(r.tx) + (if e == CallOnIdle(DtCng) then 1 else 0)
  {
    hide Step, GramOf, Fits, InStep, CngSent, CngDue;
    if e.Tick? {
      CngStep(r.tx, r.clock + e.elapsed, e.signal, e.oracle);
      CngPush(r.out, Step(r.tx, r.clock + e.elapsed, e.signal, e.oracle).effect);
    } else {
      CngCall(r, e);
      hide Do;
    }
  }

  /** No more CNG goes out than was asked for. */
  lemma {:induction false} CngAtMost(events: seq<Event>)
    ensures CngSent(Exec(events).out) + CngDue(Exec(events).tx) <= CngAsked(events)
  {
    if events != [] {
      var before := events[..|events| - 1];
      CngAtMost(before);
      Grammar(before);
      CngDo(Exec(before), events[|events| - 1]);
      hide Do, WellFormed, CngDue, CngSent;
    }
  }

  lemma CngCall(r: Run, e: Event)
    requires !e.Tick?
    ensures Do(r, e).out == r.out && CngDue(Do(r, e).tx) <= CngDue(r.tx) + (if e == CallOnIdle(DtCng) then 1 else 0)
  {
    hide ParsFor, PayloadOf, IsLast;
  }

  /** And when it is asked for, with the thread looking for what to do and no burst to send, it goes out. */
  lemma {:induction false} CngComes(events: seq<Event>, elapsed: nat, signal: bool, o: Oracle)
    requires var t := Exec(events).tx; t.pc == Looking && t.stateOut == OutIdle && !IsOut(t.stateModem)
    ensures Exec(events + [CallOnIdle(DtCng)] + [Tick(elapsed, signal, o)]).out == Exec(events).out + [Ind(CngTone)]
  {
    var asked := events + [CallOnIdle(DtCng)];
    assert asked[..|events|] == events;
    assert (asked + [Tick(elapsed, signal, o)])[..|asked|] == asked;
  }
}
