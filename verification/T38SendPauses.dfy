/**
 How long the thread pauses after each round, in every run: told by what an observer counts of the bytes taken, and not
 by what the engine remembers.
*/
module T38SendPauses {
  import opened BitSeq
  import opened EngineTypes
  import opened T38Types
  import opened T38Send
  import opened T38Run
  import opened T38SendSafety

  /**
   When the present count of bytes began, and how many were taken since, with four for the end of each frame; when the
   next round is due; and whether it comes at once instead.
  */
  datatype Beat = Beat(since: int, count: nat, due: int, atOnce: bool)

  const BEAT_START := Beat(0, 0, 0, false)

  /** A burst's data is on the line. */
  predicate InData(s: StateOut) { s == OutData || s == OutHdlcFcs }

  /** When the bytes counted are due at the bit rate, and 30 ms more. */
  function Due(k: Beat, br: nat): int
    requires br > 0
  {
    k.since + k.count * 8000 / br + 30
  }

  /**
   A step of the thread from `t` to `t1`. The count starts over with the data, and 30 ms back when the modem has made the
   burst wait. The next round comes at once after a silence, or after such a wait as long as nothing was sent.
  */
  function Beaten(k: Beat, t: Tx, t1: Tx, now: int, signal: bool, sent: bool): Beat {
    match t.pc
    case Ready => if t1.pc == Looking then k.(atOnce := false) else k
    case Looking =>
      (match t.stateOut
       case OutIndWait => k.(since := now, count := 0)
       case OutData => if t1.pc.Got? then k.(count := k.count + |t1.pc.bytes|) else k
       case OutHdlcFcs => k.(count := k.count + 4, atOnce := k.atOnce && !sent)
       case OutSilenceWait => k.(atOnce := true)
       case _ => k.(atOnce := k.atOnce && !sent))
    case Waiting => if !signal then k.(atOnce := false) else if t.stateOut == OutData then Beat(now - 30, 0, k.due, true) else k
    case Got(_, _) => k.(atOnce := k.atOnce && !sent)
    case Closing(_) =>
      if InData(t.stateOut) then (if t.pars.br > 0 then k.(due := Due(k, t.pars.br)) else k)
      else if t.stateOut == OutIndWait || t.stateOut == OutCedWait || t.stateOut == OutSilenceWait then k.(due := now + t.pars.lenInd)
      else k.(due := now + 30)
    case Stopped => k
  }

  function BeatThen(k: Beat, r: Run, e: Event): Beat {
    if !e.Tick? then k
    else
      var next := Step(r.tx, r.clock + e.elapsed, e.signal, e.oracle);
      Beaten(k, r.tx, next.tx, r.clock + e.elapsed, e.signal, Sent(next.effect) != [])
  }

  function BeatOf(events: seq<Event>): Beat {
    if events == [] then BEAT_START
    else
      var before := events[..|events| - 1];
      BeatThen(BeatOf(before), Exec(before), events[|events| - 1])
  }

  /** Data that goes as it came, or no data. */
  predicate Plain(t: Tx) { Direct(t.pars) || !InData(t.stateOut) }

  predicate InBeat(t: Tx, k: Beat) {
    && (Plain(t) && !t.pc.Closing? && t.pc != Stopped ==> t.pace.timeDelayEnd == k.due)
    && (Direct(t.pars) && InData(t.stateOut) && t.pc != Stopped ==> t.pace.rawCount == k.count && t.pace.timeBegin == k.since)
    && (t.pc == Closing(false) ==> !k.atOnce)
    && (t.pc != Closing(false) && t.pc != Stopped ==> t.pace.doDelay == !k.atOnce)
  }

  lemma LookBeat(t: Tx, k: Beat, now: int, signal: bool, o: Oracle)
    requires InStep(t) && InBeat(t, k) && t.pc == Looking
    ensures var next := Look(t, now, o); InBeat(next.tx, Beaten(k, t, next.tx, now, signal, Sent(next.effect) != []))
  {
    hide PacketLen, Due;
    match t.stateOut
    case OutIdle => hide BeginData, Fetch, EndFrame, EndConverted, EndBurst, EndTone;
    case OutData => hide BeginBurst, BeginData, EndFrame, EndConverted, EndBurst, EndTone;
    case _ => hide BeginBurst, Fetch;
  }

  lemma StepBeat(t: Tx, k: Beat, now: int, signal: bool, o: Oracle)
    requires InStep(t) && InBeat(t, k)
    ensures var next := Step(t, now, signal, o); InBeat(next.tx, Beaten(k, t, next.tx, now, signal, Sent(next.effect) != []))
  {
    hide Look;
    if t.pc == Looking { LookBeat(t, k, now, signal, o); }
  }

  lemma CallBeat(r: Run, e: Event, k: Beat)
    requires InStep(r.tx) && InBeat(r.tx, k) && !e.Tick?
    ensures InBeat(Do(r, e).tx, k)
  {
    hide ParsFor, PayloadOf, IsLast, ParsOk, Direct;
  }

  lemma DoBeat(r: Run, e: Event, k: Beat)
    requires InStep(r.tx) && InBeat(r.tx, k)
    ensures InBeat(Do(r, e).tx, BeatThen(k, r, e))
  {
    hide InStep, InBeat, Step, Beaten;
    if e.Tick? {
      StepBeat(r.tx, k, r.clock + e.elapsed, e.signal, e.oracle);
    } else {
      hide Do;
      CallBeat(r, e, k);
    }
  }

  lemma StartsInBeat()
    ensures InBeat(INITIAL.tx, BEAT_START)
  {
  }

  lemma {:induction false} AlwaysInBeat(events: seq<Event>)
    ensures InBeat(Exec(events).tx, BeatOf(events)) && InStep(Exec(events).tx)
  {
    hide InBeat, InStep, Fits, Do, BeatThen;
    Grammar(events);
    if events == [] {
      StartsInBeat();
    } else {
      var before := events[..|events| - 1];
      AlwaysInBeat(before);
      DoBeat(Exec(before), events[|events| - 1], BeatOf(before));
    }
  }

  /**
   In every run, but for converted data: the thread goes on after a pause exactly when the next round is due, or comes at
   once. Within a burst that is when the bytes taken since the data began, or since the modem made the burst wait, are
   due at the bit rate, and 30 ms after that.
  */
  lemma {:induction false} GoesOn(events: seq<Event>, elapsed: nat, signal: bool, o: Oracle)
    requires Exec(events).tx.pc == Ready && Plain(Exec(events).tx)
    ensures var r, k := Exec(events), BeatOf(events);
      Step(r.tx, r.clock + elapsed, signal, o).tx.pc == Looking <==> k.atOnce || r.clock + elapsed >= k.due
  {
    hide Exec, BeatOf, InStep, Look, Plain;
    AlwaysInBeat(events);
  }
}
