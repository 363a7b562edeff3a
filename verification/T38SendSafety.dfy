/** What every run of the transmit side keeps, whatever the interleaving. */
module T38SendSafety {
  import opened BitSeq
  import opened EngineTypes
  import opened T38Types
  import opened T38Send
  import opened T38Grammar
  import opened T38Run

  predicate InBurst(s: StateOut) { s != OutIdle && s != OutNoSig }

  predicate ParsOk(p: OutPars) {
    if IsData(p.dataType) then
      IsData(p.dataTypeT38) && IsTraining(p.ind) && p.ind.mod == p.mod && 300 <= p.br <= 14400
    else (p.dataType == DtCed || p.dataType == DtSilence) && p.dataTypeT38 == p.dataType && (p.dataType == DtCed ==> p.ind == CedTone)
  }

  /** The three machines agree: a burst on the line has a modem behind it that is sending, with parameters to match. */
  predicate InStep(t: Tx) {
    && (InBurst(t.stateOut) ==> IsOut(t.stateModem))
    && (IsOut(t.stateModem) ==> ParsOk(t.pars))
    && (t.stateOut == OutCedWait ==> t.pars.dataType == DtCed)
    && (t.stateOut == OutSilenceWait ==> t.pars.dataType == DtSilence)
    && (OnLine(t.stateOut) ==> IsData(t.pars.dataType))
    && (t.stateOut == OutHdlcFcs ==> t.pars.dataTypeT38 == DtHdlc)
    && (t.pc.Got? ==> t.stateOut == OutData && -1 <= t.pc.count && (t.pc.count > 0 <==> t.pc.bytes != []))
    && (t.pc.Waiting? ==> t.stateOut == OutIdle || t.stateOut == OutData)
  }

  /** A training indicator has gone out and its end of signal has not. */
  predicate OnLine(s: StateOut) { s == OutIndWait || s == OutData || s == OutHdlcFcs || s == OutDataNoSig }

  /** Where a well-formed stream stands when the engine is in state `t`. */
  predicate Fits(t: Tx, g: Gram) {
    match t.stateOut
    case OutNoSig | OutCedWait => g == Ended
    case OutIdle | OutSilenceWait => g == Quiet
    case OutIndWait => g == Body(t.pars.mod, Any, false)
    case OutData | OutHdlcFcs => FitsBody(t.pars, t.countOut, g)
    case OutDataNoSig => g.Body? && FitsBody(t.pars, t.countOut, g) && (t.pars.dataTypeT38 == DtHdlc ==> !g.open)
  }

  predicate FitsBody(p: OutPars, countOut: nat, g: Gram) {
    && g.Body? && g.mod == p.mod
    && (g.kind == Any || g.kind == if p.dataTypeT38 == DtHdlc then Frames else Image)
    && (g.open ==> g.kind != Any)
    && (p.dataTypeT38 == DtHdlc ==> (g.open <==> countOut > 0))
  }

  lemma ParsForOk(dataType: DataType, param: int, hdlcOnly: bool)
    requires ParsFor(dataType, param, hdlcOnly).Some?
    ensures ParsOk(ParsFor(dataType, param, hdlcOnly).value)
    ensures ParsFor(dataType, param, hdlcOnly).value.dataType == dataType
  {
    if IsData(dataType) {
      RowOk(GetModRow(param).value);
    }
  }

  function After(g: Gram, effect: Effect): Gram {
    if Sent(effect) == [] then g else NextGram(g, Sent(effect)[0])
  }

  ghost predicate Kept(next: Outcome, g: Gram) { InStep(next.tx) && Fits(next.tx, After(g, next.effect)) }

  lemma BeginBurstKeeps(t: Tx, now: int, g: Gram)
    requires InStep(t) && Fits(t, g) && t.stateOut == OutIdle && IsOut(t.stateModem)
    ensures Kept(BeginBurst(t, now), g)
  {
  }

  lemma BeginDataKeeps(t: Tx, now: int, g: Gram)
    requires InStep(t) && Fits(t, g) && t.stateOut == OutIndWait
    ensures Kept(BeginData(t, now), g)
  {
  }

  lemma FetchKeeps(t: Tx, o: Oracle, g: Gram)
    requires InStep(t) && Fits(t, g) && t.stateOut == OutData
    ensures InStep(Fetch(t, o)) && Fits(Fetch(t, o), g)
  {
  }

  lemma UseKeeps(t: Tx, g: Gram)
    requires InStep(t) && Fits(t, g) && t.pc.Got?
    ensures Kept(Use(t), g)
  {
  }

  lemma EndConvertedKeeps(t: Tx, o: Oracle, g: Gram)
    requires InStep(t) && Fits(t, g) && t.stateOut == OutHdlcFcs
    ensures Kept(EndConverted(t, o), g)
  {
  }

  lemma EndFrameKeeps(t: Tx, g: Gram)
    requires InStep(t) && Fits(t, g) && t.stateOut == OutHdlcFcs
    ensures Kept(EndFrame(t), g)
  {
  }

  lemma EndBurstKeeps(t: Tx, g: Gram)
    requires InStep(t) && Fits(t, g) && t.stateOut == OutDataNoSig
    ensures Kept(EndBurst(t), g)
  {
  }

  /** What the locked switch keeps. */
  lemma {:induction false} LookKeeps(t: Tx, now: int, o: Oracle, g: Gram)
    requires InStep(t) && Fits(t, g) && t.pc == Looking
    ensures Kept(Look(t, now, o), g)
  {
    hide BeginBurst, BeginData, Fetch, EndConverted, EndFrame, EndBurst, FitsBody;
    match t.stateOut
    case OutIdle => if IsOut(t.stateModem) { BeginBurstKeeps(t, now, g); }
    case OutIndWait => BeginDataKeeps(t, now, g);
    case OutData => FetchKeeps(t, o, g);
    case OutHdlcFcs => EndConvertedKeeps(t, o, g); EndFrameKeeps(t, g);
    case OutDataNoSig => EndBurstKeeps(t, g);
    case _ =>
  }

  lemma StepKeeps(t: Tx, now: int, signal: bool, o: Oracle, g: Gram)
    requires InStep(t) && Fits(t, g)
    ensures Kept(Step(t, now, signal, o), g)
  {
    hide Look, Use, FitsBody, DelayEnd;
    if t.pc == Looking {
      LookKeeps(t, now, o, g);
    } else if t.pc.Got? {
      UseKeeps(t, g);
    }
  }

  lemma GramPush(packets: seq<Packet>, p: Packet)
    ensures GramOf(packets + [p]) == NextGram(GramOf(packets), p)
    ensures AsmOf(packets + [p]) == NextAsm(AsmOf(packets), p)
  {
    assert (packets + [p])[..|packets|] == packets;
  }

  lemma OutAfter(packets: seq<Packet>, effect: Effect)
    ensures GramOf(packets + Sent(effect)) == After(GramOf(packets), effect)
  {
    if Sent(effect) == [] {
      assert packets + [] == packets;
    } else {
      GramPush(packets, Sent(effect)[0]);
    }
  }

  ghost predicate WellFormed(r: Run) { InStep(r.tx) && Fits(r.tx, GramOf(r.out)) }

  lemma TickKeeps(r: Run, elapsed: nat, signal: bool, o: Oracle)
    requires WellFormed(r)
    ensures WellFormed(DoTick(r, elapsed, signal, o))
  {
    hide Step, InStep, Fits, GramOf;
    StepKeeps(r.tx, r.clock + elapsed, signal, o, GramOf(r.out));
    OutAfter(r.out, Step(r.tx, r.clock + elapsed, signal, o).effect);
  }

  lemma StartKeeps(t: Tx, dataType: DataType, param: int, hdlcOnly: bool, g: Gram)
    requires InStep(t) && Fits(t, g)
    ensures var t1 := SendStart(t, dataType, param, hdlcOnly); InStep(t1) && Fits(t1, g)
  {
    hide FitsBody;
    if StartOk(t, dataType, param, hdlcOnly) { ParsForOk(dataType, param, hdlcOnly); }
    hide ParsFor, ParsOk;
  }

  lemma DoKeeps(r: Run, e: Event)
    requires WellFormed(r)
    ensures WellFormed(Do(r, e))
  {
    hide GramOf, FitsBody, DoTick, SendStart, ParsOk;
    match e
    case CallStart(dataType, param, hdlcOnly) => StartKeeps(r.tx, dataType, param, hdlcOnly, GramOf(r.out));
    case Tick(elapsed, signal, o) => TickKeeps(r, elapsed, signal, o);
    case _ =>
  }

  /**
   In every run, with resets and conversions anywhere: the packets sent so far are the beginning of
   a stream of well-formed bursts, each followed at once by no-signal, and the modem is in a sending
   state as long as a burst is on the line.
  */
  lemma {:induction false} Grammar(events: seq<Event>)
    ensures WellFormed(Exec(events))
    ensures GramOf(Exec(events).out) != Broken
    ensures InBurst(Exec(events).tx.stateOut) ==> IsOut(Exec(events).tx.stateModem)
  {
    if events != [] {
      hide Do;
      var before := events[..|events| - 1];
      Grammar(before);
      DoKeeps(Exec(before), events[|events| - 1]);
    }
  }

  // ------------------------------------------------------------ acknowledgements

  function PendingStop(t: Tx): seq<int> { if t.stateModem == StmOutNoMoreData then [t.stop.callbackParam] else [] }

  lemma StepAcks(t: Tx, now: int, signal: bool, o: Oracle)
    ensures var next := Step(t, now, signal, o); Acked(next.tx, next.effect) + PendingStop(next.tx) == PendingStop(t)
  {
  }

  lemma DoAcks(r: Run, e: Event)
    requires r.stops == r.acks + PendingStop(r.tx)
    ensures Do(r, e).stops == Do(r, e).acks + PendingStop(Do(r, e).tx)
  {
    hide Step, ParsFor, PayloadOf, IsLast, Direct;
    match e
    case Tick(elapsed, signal, o) => StepAcks(r.tx, r.clock + elapsed, signal, o);
    case CallStart(_, _, _) => hide DoTick, DoStop, DoReset, DoSend;
    case CallStop(_, _) => hide DoTick, DoStart, DoReset, DoSend;
    case CallReset => hide DoTick, DoStart, DoStop, DoSend;
    case _ => hide DoTick, DoStart, DoStop, DoReset;
  }

  /**
   In every run the accepted stops are acknowledged in order, each exactly once, with the callback
   parameter it was given (or the reset's); the only one still due is the one the modem is in.
  */
  lemma {:induction false} Acknowledged(events: seq<Event>)
    ensures var r := Exec(events); r.stops == r.acks + PendingStop(r.tx)
  {
    if events != [] {
      var before := events[..|events| - 1];
      Acknowledged(before);
      DoAcks(Exec(before), events[|events| - 1]);
    }
  }
}
