/** The packets of a burst never run ahead of the modem's bit rate by more than a millisecond, and one more for each time the modem made them wait. */
module T38SendPacing {
  import opened BitSeq
  import opened EngineTypes
  import opened T38Types
  import opened T38Send
  import opened T38Grammar
  import opened T38Run
  import opened T38SendSafety

  /** What is seen of a burst: when its data began, how many bytes of data its packets have carried, how often it waited for the modem. */
  datatype Meter = Meter(begun: int, sent: nat, delays: nat)

  function DataIn(effect: Effect): nat {
    if Sent(effect) == [] then 0
    else
      match Sent(effect)[0]
      case Data(_, HdlcData(data)) => |data|
      case Data(_, NonEcmData(data)) => |data|
      case _ => 0
  }

  /** The step from `t`, at time `now`, seen by the meter. */
  function Metered(m: Meter, t: Tx, now: int, signal: bool, o: Oracle): Meter {
    if t.stateOut == OutIndWait && t.pc == Looking then Meter(now, 0, 0)
    else if t.stateOut == OutData && t.pc == Waiting && signal then m.(delays := m.delays + 1)
    else m.(sent := m.sent + DataIn(Step(t, now, signal, o).effect))
  }

  datatype Watched = Watched(run: Run, meter: Meter)

  function Watch(w: Watched, e: Event): Watched {
    Watched(Do(w.run, e),
            if e.Tick? then Metered(w.meter, w.run.tx, w.run.clock + e.elapsed, e.signal, e.oracle) else w.meter)
  }

  function WatchAll(events: seq<Event>): Watched {
    if events == [] then Watched(INITIAL, Meter(0, 0, 0)) else Watch(WatchAll(events[..|events| - 1]), events[|events| - 1])
  }

  lemma {:induction false} WatchRuns(events: seq<Event>)
    ensures WatchAll(events).run == Exec(events)
  {
    if events != [] {
      hide Do, Metered;
      WatchRuns(events[..|events| - 1]);
    }
  }

  // ------------------------------------------------------------- the invariant

  /** Bits times a thousand that `br` bit/s is good for in `ms` milliseconds. */
  function Worth(br: nat, ms: int): int { br * ms }

  lemma WorthAdds(br: nat, a: int, b: int)
    ensures Worth(br, a) + Worth(br, b) == Worth(br, a + b)
    ensures a <= b ==> Worth(br, a) <= Worth(br, b)
  {
    if a <= b { assert br * (b - a) >= 0; }
  }

  /** All the bytes counted are due, and one packet time has gone by since. */
  predicate InTime(t: Tx, clock: int) { 8000 * t.pace.rawCount < Worth(t.pars.br, clock - t.pace.timeBegin - 29) }

  /** The delay that is set is long enough for that. */
  predicate Held(t: Tx) { t.pars.br > 0 && t.pace.timeDelayEnd >= PaceEnd(t) }

  predicate Pacing(t: Tx) { Direct(t.pars) && (t.stateOut == OutData || t.stateOut == OutHdlcFcs) }

  predicate OnTime(t: Tx, clock: int) {
    match t.pc
    case Ready => (t.pace.doDelay && Held(t)) || InTime(t, clock)
    case Looking | Waiting => InTime(t, clock)
    case Got(count, _) =>
      if count > 0 then 8000 * t.pace.rawCount < Worth(t.pars.br, clock - t.pace.timeBegin + 1) else InTime(t, clock)
    case Closing(redo) => redo && !t.pace.doDelay ==> InTime(t, clock)
    case Stopped => true
  }

  function InHand(t: Tx): nat { if t.pc.Got? then |t.pc.bytes| else 0 }

  /** What was sent and is not counted any more was due before the present count began. */
  predicate Earlier(t: Tx, m: Meter) {
    8000 * (m.sent + InHand(t) - t.pace.rawCount) <= Worth(t.pars.br, t.pace.timeBegin - m.begun + m.delays)
  }

  predicate Paced(t: Tx, clock: int, m: Meter) {
    && ((t.pc == Looking || t.pc == Waiting) && !t.pace.doDelay ==> t.stateOut == OutData)
    && (Pacing(t) ==> OnTime(t, clock) && Earlier(t, m))
  }

  lemma HeldInTime(t: Tx, clock: int)
    requires Held(t) && t.pace.timeDelayEnd <= clock
    ensures InTime(t, clock)
  {
    var a, b := t.pace.rawCount * 8000, t.pars.br;
    var q := a / b;
    assert a == b * q + a % b;
    assert q + 1 <= clock - t.pace.timeBegin - 29;
    WorthAdds(b, q + 1, clock - t.pace.timeBegin - 29);
    assert b * (q + 1) == b * q + b;
  }

  lemma LaterInTime(t: Tx, clock: int, now: int)
    requires clock <= now
    ensures InTime(t, clock) ==> InTime(t, now)
    ensures OnTime(t, clock) ==> OnTime(t, now)
  {
    WorthAdds(t.pars.br, clock - t.pace.timeBegin - 29, now - t.pace.timeBegin - 29);
    WorthAdds(t.pars.br, clock - t.pace.timeBegin + 1, now - t.pace.timeBegin + 1);
  }

  lemma DelayPaced(t: Tx, now: int, m: Meter)
    requires Paced(t, now, m) && t.pc == Ready && InStep(t)
    ensures Paced(Delay(t, now), now, m)
  {
    if Pacing(t) && t.pace.doDelay && Held(t) && t.pace.timeDelayEnd <= now { HeldInTime(t, now); }
    hide Worth;
  }

  lemma WakePaced(t: Tx, now: int, signal: bool, m: Meter)
    requires Paced(t, now, m) && t.pc == Waiting && InStep(t)
    ensures Paced(Wake(t, now, signal), now, if t.stateOut == OutData && signal then m.(delays := m.delays + 1) else m)
  {
    if Pacing(t) && signal {
      var br, tb := t.pars.br, t.pace.timeBegin;
      WorthAdds(br, tb - m.begun + m.delays, now - tb - 29);
      assert Worth(br, 1) == br;
    }
    hide Worth;
  }

  lemma ClosePaced(t: Tx, now: int, m: Meter)
    requires Paced(t, now, m) && t.pc.Closing? && InStep(t)
    ensures Paced(Close(t, now), now, m)
  {
    hide Worth;
  }

  lemma FetchPaced(t: Tx, now: int, o: Oracle, m: Meter)
    requires Paced(t, now, m) && t.pc == Looking && t.stateOut == OutData && InStep(t)
    ensures Paced(Fetch(t, o), now, m)
  {
    var ms := now - t.pace.timeBegin - 29;
    WorthAdds(t.pars.br, ms, 30);
    assert Worth(t.pars.br, 30) == 30 * t.pars.br;
    assert 8000 * PacketLen(t.pars.br) <= 30 * t.pars.br;
    hide Worth, PacketLen, Fits;
  }

  lemma UsePaced(t: Tx, now: int, m: Meter)
    requires Paced(t, now, m) && t.pc.Got? && InStep(t)
    ensures Paced(Use(t).tx, now, m.(sent := m.sent + DataIn(Use(t).effect)))
  {
    hide Worth, Held;
  }

  lemma BeginDataPaced(t: Tx, now: int, m: Meter)
    requires Paced(t, now, m) && t.pc == Looking && t.stateOut == OutIndWait
    ensures Paced(BeginData(t, now).tx, now, Meter(now, 0, 0))
  {
  }

  lemma EndFramePaced(t: Tx, now: int, m: Meter)
    requires Paced(t, now, m) && t.pc == Looking && t.stateOut == OutHdlcFcs && Direct(t.pars)
    ensures Paced(EndFrame(t).tx, now, m) && DataIn(EndFrame(t).effect) == 0
  {
    hide Worth, Held;
  }

  lemma LookPaced(t: Tx, now: int, o: Oracle, m: Meter)
    requires Paced(t, now, m) && t.pc == Looking && InStep(t)
    ensures Paced(Look(t, now, o).tx, now, if t.stateOut == OutIndWait then Meter(now, 0, 0) else m)
    ensures DataIn(Look(t, now, o).effect) == 0
  {
    hide Worth, Held, PacketLen;
    match t.stateOut
    case OutIndWait => hide Fetch, EndFrame; BeginDataPaced(t, now, m);
    case OutData => hide Paced; FetchPaced(t, now, o, m);
    case OutHdlcFcs => hide Fetch, BeginData; if Direct(t.pars) { EndFramePaced(t, now, m); }
    case _ => hide Fetch, BeginData, EndFrame, EndConverted;
  }

  lemma {:induction false} StepPaced(t: Tx, clock: int, now: int, signal: bool, o: Oracle, m: Meter)
    requires Paced(t, clock, m) && clock <= now && InStep(t)
    ensures Paced(Step(t, now, signal, o).tx, now, Metered(m, t, now, signal, o))
  {
    hide Look, Use, Delay, Wake, Close, Paced;
    PacedLater(t, clock, now, m);
    assert DataIn(Nothing) == 0;
    hide DataIn, InStep;
    match t.pc
    case Ready => DelayPaced(t, now, m);
    case Looking => LookPaced(t, now, o, m);
    case Got(_, _) => UsePaced(t, now, m);
    case Waiting => WakePaced(t, now, signal, m);
    case Closing(_) => ClosePaced(t, now, m);
    case Stopped =>
  }

  lemma PacedLater(t: Tx, clock: int, now: int, m: Meter)
    requires Paced(t, clock, m) && clock <= now
    ensures Paced(t, now, m)
  {
    LaterInTime(t, clock, now);
    hide OnTime, Earlier;
  }

  // ------------------------------------------------------------- every run

  /** The modem's calls leave the thread's times alone, and the parameters of a burst on the line. */
  lemma CallLeaves(r: Run, e: Event)
    requires InStep(r.tx) && !e.Tick?
    ensures var t1 := Do(r, e).tx;
      && t1.pc == r.tx.pc && t1.pace == r.tx.pace && t1.stateOut == r.tx.stateOut && Do(r, e).clock == r.clock
      && (t1.pars == r.tx.pars || !InBurst(r.tx.stateOut))
  {
    hide ParsFor, PayloadOf, IsLast, ParsOk, Direct;
  }

  /** Only a step of the thread moves these times. */
  lemma StillPaced(t: Tx, t1: Tx, clock: int, m: Meter)
    requires Paced(t, clock, m) && t1.pc == t.pc && t1.pace == t.pace && t1.stateOut == t.stateOut
    requires t1.pars == t.pars || !InBurst(t.stateOut)
    ensures Paced(t1, clock, m)
  {
    hide Direct, Worth;
  }

  lemma WatchPaced(w: Watched, e: Event)
    requires WellFormed(w.run) && Paced(w.run.tx, w.run.clock, w.meter)
    ensures var w1 := Watch(w, e); Paced(w1.run.tx, w1.run.clock, w1.meter)
  {
    hide GramOf, Fits, Step, Metered, InStep, Paced;
    if e.Tick? {
      StepPaced(w.run.tx, w.run.clock, w.run.clock + e.elapsed, e.signal, e.oracle, w.meter);
    } else {
      CallLeaves(w.run, e);
      StillPaced(w.run.tx, Do(w.run, e).tx, w.run.clock, w.meter);
      hide Do;
    }
  }

  lemma {:induction false} AlwaysPaced(events: seq<Event>)
    ensures var w := WatchAll(events); Paced(w.run.tx, w.run.clock, w.meter) && WellFormed(w.run)
  {
    if events != [] {
      hide Watch, Paced;
      var before := events[..|events| - 1];
      AlwaysPaced(before);
      WatchPaced(WatchAll(before), events[|events| - 1]);
      DoKeeps(WatchAll(before).run, events[|events| - 1]);
      assert WatchAll(events).run == Do(WatchAll(before).run, events[|events| - 1]) by { WatchRuns(events); WatchRuns(before); }
    }
  }

  lemma OnlyUseSends(t: Tx, now: int, signal: bool, o: Oracle)
    ensures DataIn(Step(t, now, signal, o).effect) > 0 ==> t.pc.Got?
  {
    hide Fetch, Delay, Wake, Close;
  }

  lemma UseOnTime(t: Tx, now: int, m: Meter)
    requires Paced(t, now, m) && InStep(t) && t.pc.Got? && Direct(t.pars) && DataIn(Use(t).effect) > 0
    ensures var t1 := Use(t).tx;
      && t1.pars == t.pars && t1.pace == t.pace
      && 8000 * t.pace.rawCount < Worth(t.pars.br, now - t.pace.timeBegin + 1)
      && 8000 * (m.sent + DataIn(Use(t).effect)) < Worth(t.pars.br, now - m.begun + 1 + m.delays)
  {
    WorthAdds(t.pars.br, t.pace.timeBegin - m.begun + m.delays, now - t.pace.timeBegin + 1);
    hide Worth;
  }

  /**
   In every run, whenever a packet of directly sent data goes out: the bytes counted since `timeBegin`,
   and all the bytes of the burst since its data began, are less than the bit rate is good for up to
   one millisecond from now (and one more for each wait for the modem).
  */
  lemma {:induction false} NeverAhead(events: seq<Event>, elapsed: nat, signal: bool, o: Oracle)
    requires var t := WatchAll(events).run.tx;
      Direct(t.pars) && DataIn(Step(t, WatchAll(events).run.clock + elapsed, signal, o).effect) > 0
    ensures var w := Watch(WatchAll(events), Tick(elapsed, signal, o));
      var pace, br, now := w.run.tx.pace, w.run.tx.pars.br, w.run.clock;
      && 8000 * pace.rawCount < br * (now - pace.timeBegin + 1)
      && 8000 * w.meter.sent < br * (now - w.meter.begun + 1 + w.meter.delays)
  {
    hide WatchAll, Use, Paced, InStep, Fits, GramOf, DataIn, Direct, Delay, Wake, Close, Look;
    var w := WatchAll(events);
    var now := w.run.clock + elapsed;
    AlwaysPaced(events);
    OnlyUseSends(w.run.tx, now, signal, o);
    PacedLater(w.run.tx, w.run.clock, now, w.meter);
    UseOnTime(w.run.tx, now, w.meter);
  }
}
