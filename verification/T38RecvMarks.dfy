/**
 What a diagnostic is worth: every buffer is in one stream at most, and a flag that a loss or a cut puts to the buffer
 being filled stays with it as long as it lives, whatever comes after; nothing else is touched.
*/
module T38RecvMarks {
  import opened BitSeq
  import opened EngineTypes
  import opened T38Types
  import opened T38Send
  import opened T38Recv
  import opened T38RecvSafety

  /** What is known of a buffer: it is not here, or may be, or has a flag if it is. */
  datatype Known = Absent | Perhaps | With(flag: DiagFlag)

  predicate Fits(bs: seq<Buf>, id: nat, x: Known) {
    x == Perhaps || forall i :: 0 <= i < |bs| && bs[i].id == id ==> x.With? && x.flag in bs[i].diag
  }

  predicate In(s: Option<Stream>, id: nat, x: Known) { s.Some? ==> Fits(All(s.value), id, x) }

  /** The buffer is in one stream at most, and `x` is known of it there; one not made yet is in none. */
  predicate Sole(ss: Streams, id: nat, x: Known) {
    && (id >= ss.next ==> x == Perhaps && In(ss.inn, id, Absent) && In(ss.saved, id, Absent))
    && ((In(ss.inn, id, x) && In(ss.saved, id, Absent)) || (In(ss.inn, id, Absent) && In(ss.saved, id, x)))
  }

  // ------------------------------------------------------------- streams

  lemma Weaker(bs: seq<Buf>, id: nat, x: Known)
    ensures Fits(bs, id, Absent) ==> Fits(bs, id, x)
    ensures Fits(bs, id, Perhaps)
  {
  }

  lemma NoneFits(id: nat, x: Known)
    ensures Fits([], id, x)
  {
  }

  lemma ApplyFits(s: Stream, c: Change, id: nat, x: Known)
    requires Fits(All(s), id, x)
    ensures Fits(All(Apply(s, c)), id, x)
  {
    if s.last.Some? {
      AllApply(s, c);
      var bs, bs1 := All(s), All(Apply(s, c));
      forall i | 0 <= i < |bs1| && bs1[i].id == id && x != Perhaps ensures x.With? && x.flag in bs1[i].diag { ChangedEof(bs[i], c); }
    }
  }

  lemma PushFits(s: Stream, next: nat, id: nat, x: Known)
    requires Fits(All(s), id, x) && (id != next || x == Perhaps)
    ensures Fits(All(PushBuf(s, next)), id, x)
  {
    assert All(PushBuf(s, next)) == All(s) + [Buf(next, [], false, {})];
  }

  lemma DeleteFits(s: Stream, id: nat, x: Known)
    requires Fits(All(s), id, x)
    ensures Fits(All(DeleteFirst(s)), id, x)
  {
    if s.first.Some? { assert All(DeleteFirst(s)) == All(s)[1..]; }
  }

  lemma PopFits(s: Stream, id: nat, x: Known)
    requires Fits(All(s), id, x)
    ensures Fits(All(PopBuf(s)), id, x)
  {
    DeleteFits(s, id, x);
    assert All(PopBuf(s)) == All(DeleteFirst(s));
  }

  lemma MoveFits(to: Stream, from: Stream, id: nat, x: Known)
    requires Fits(All(to), id, x) && Fits(All(from), id, x)
    ensures Fits(All(MoveInto(to, from)), id, x)
  {
    assert All(MoveInto(to, from)) == All(to) + All(from);
  }

  lemma ReadFits(s: Stream, bytes: seq<Byte>, id: nat, x: Known)
    requires s.first.Some? && Fits(All(s), id, x)
    ensures Fits(All(s.(first := Some(s.first.value.(bytes := bytes)))), id, x)
  {
    var bs, bs1 := All(s), All(s.(first := Some(s.first.value.(bytes := bytes))));
    assert forall i :: 0 <= i < |bs1| ==> bs1[i].id == bs[i].id && bs1[i].diag == bs[i].diag;
  }

  lemma {:induction false} ConvertedFits(s: Stream, says: seq<Converted>, id: nat, x: Known)
    requires s.first.Some? && Fits(All(s), id, x)
    ensures Fits(All(GetConverted(s, says).stream), id, x)
    decreases says
  {
    hide Fits;
    if says != [] {
      if says[0].More? {
        ReadFits(s, says[0].rest, id, x);
      } else if s.queue != [] {
        PopFits(s, id, x);
        ConvertedFits(PopBuf(s), says[1..], id, x);
      } else {
        DeleteFits(s, id, x);
      }
    }
  }

  lemma GetDataFits(s: Stream, count: nat, says: seq<Converted>, id: nat, x: Known)
    requires Fits(All(s), id, x)
    ensures Fits(All(GetData(s, count, says).stream), id, x)
  {
    hide Fits, GetConverted;
    if s.first.Some? {
      ConvertedFits(s, says, id, x);
      var b := s.first.value;
      ReadFits(s, b.bytes[|Read(b, count).bytes|..], id, x);
    }
  }

  lemma NewFits(row: ModRow, want: Want, id: nat, x: Known)
    ensures All(NewStream(row, want)) == [] && Fits(All(NewStream(row, want)), id, x)
  {
  }

  lemma RewantFits(s: Stream, want: Want, id: nat, x: Known)
    requires Fits(All(s), id, x)
    ensures Fits(All(s.(want := want)), id, x)
  {
    assert All(s.(want := want)) == All(s);
  }

  // ------------------------------------------------------------- the engine

  /** One of the two streams is another one now, in which as much is known of the buffer as before. */
  lemma InnSole(ss: Streams, ss1: Streams, id: nat, x: Known)
    requires Sole(ss, id, x) && ss1.saved == ss.saved && ss1.next >= ss.next
    requires In(ss.inn, id, x) ==> In(ss1.inn, id, x)
    requires In(ss.inn, id, Absent) && !(ss.next <= id < ss1.next) ==> In(ss1.inn, id, Absent)
    ensures Sole(ss1, id, x)
  {
    if ss.inn.Some? { Weaker(All(ss.inn.value), id, x); }
    if ss1.inn.Some? { Weaker(All(ss1.inn.value), id, x); }
    hide Fits;
  }

  lemma SavedSole(ss: Streams, ss1: Streams, id: nat, x: Known)
    requires Sole(ss, id, x) && ss1.inn == ss.inn && ss1.next >= ss.next
    requires In(ss.saved, id, x) ==> In(ss1.saved, id, x)
    requires In(ss.saved, id, Absent) && !(ss.next <= id < ss1.next) ==> In(ss1.saved, id, Absent)
    ensures Sole(ss1, id, x)
  {
    if ss.saved.Some? { Weaker(All(ss.saved.value), id, x); }
    if ss1.saved.Some? { Weaker(All(ss1.saved.value), id, x); }
    hide Fits;
  }

  lemma ApplyKnown(s: Stream, c: Change, id: nat, x: Known)
    ensures Fits(All(s), id, x) ==> Fits(All(Apply(s, c)), id, x)
    ensures Fits(All(s), id, Absent) ==> Fits(All(Apply(s, c)), id, Absent)
  {
    hide Fits, Apply, All;
    if Fits(All(s), id, x) { ApplyFits(s, c, id, x); }
    if Fits(All(s), id, Absent) { ApplyFits(s, c, id, Absent); }
  }

  lemma PushKnown(s: Stream, next: nat, id: nat, x: Known)
    requires id == next ==> x == Perhaps
    ensures Fits(All(s), id, x) ==> Fits(All(PushBuf(s, next)), id, x)
    ensures id != next && Fits(All(s), id, Absent) ==> Fits(All(PushBuf(s, next)), id, Absent)
  {
    hide Fits, PushBuf, All;
    if Fits(All(s), id, x) { PushFits(s, next, id, x); }
    if id != next && Fits(All(s), id, Absent) { PushFits(s, next, id, Absent); }
  }

  lemma ApplyToSole(ss: Streams, t: Target, c: Change, id: nat, x: Known)
    requires Points(ss, t) && Sole(ss, id, x)
    ensures Sole(ApplyTo(ss, t, c), id, x) && Points(ApplyTo(ss, t, c), t)
  {
    hide Fits, Apply, All;
    if t == ToIn { ApplyKnown(ss.inn.value, c, id, x); InnSole(ss, ApplyTo(ss, t, c), id, x); }
    if t == ToSaved { ApplyKnown(ss.saved.value, c, id, x); SavedSole(ss, ApplyTo(ss, t, c), id, x); }
  }

  lemma PushToSole(ss: Streams, t: Target, id: nat, x: Known)
    requires Points(ss, t) && Sole(ss, id, x)
    ensures Sole(PushTo(ss, t), id, x) && Points(PushTo(ss, t), t)
  {
    hide Fits, PushBuf, All;
    if t == ToIn { PushKnown(ss.inn.value, ss.next, id, x); InnSole(ss, PushTo(ss, t), id, x); }
    if t == ToSaved { PushKnown(ss.saved.value, ss.next, id, x); SavedSole(ss, PushTo(ss, t), id, x); }
  }

  lemma PutFieldSole(ss: Streams, t: Target, f: RxField, id: nat, x: Known)
    requires Points(ss, t) && Sole(ss, id, x)
    ensures Sole(PutField(ss, t, f), id, x) && Points(PutField(ss, t, f), t)
  {
    hide Sole, ApplyTo, PushTo;
    ApplyToSole(ss, t, Append(f.data), id, x);
    var s1 := ApplyTo(ss, t, Append(f.data));
    ApplyToSole(s1, t, Mark({BadFcs}), id, x);
    var s2 := if BadFrame(f.kind) then ApplyTo(s1, t, Mark({BadFcs})) else s1;
    ApplyToSole(s2, t, Shut({}), id, x);
    PushToSole(ApplyTo(s2, t, Shut({})), t, id, x);
    var s3 := if EndsFrame(f.kind) then PushTo(ApplyTo(s2, t, Shut({})), t) else s2;
    ApplyToSole(s3, t, Shut({NoCarrier}), id, x);
  }

  lemma {:induction false} FieldsSole(r: Rx, t: Target, fields: seq<RxField>, id: nat, x: Known)
    requires Points(r.streams, t) && Sole(r.streams, id, x)
    ensures Sole(HandleFields(r, t, fields).streams, id, x)
    decreases |fields|
  {
    hide Sole, PutField;
    if fields != [] {
      PutFieldSole(r.streams, t, fields[0], id, x);
      var r1 := r.(streams := PutField(r.streams, t, fields[0]), countIn := r.countIn + |fields[0].data|);
      if !EndsSignal(fields[0].kind) { FieldsSole(r1, t, fields[1..], id, x); }
      else if r.stateModem != StmInWaitSilence { FieldsSole(r1.(carrierIn := 0), Nowhere, fields[1..], id, x); }
    }
  }

  lemma DataSole(r: Rx, mod: Modulation, fields: seq<RxField>, id: nat, x: Known)
    requires Sole(r.streams, id, x)
    ensures Sole(HandleData(r, mod, fields).streams, id, x)
  {
    hide Sole, HandleFields, ApplyTo;
    var t := TargetOf(r.streams);
    ApplyToSole(r.streams, t, Shut({OutOfOrder, NoCarrier}), id, x);
    if t != Nowhere && ModOf(r.streams, t) != mod {
      FieldsSole(r.(streams := ApplyTo(r.streams, t, Shut({OutOfOrder, NoCarrier}))), Nowhere, fields, id, x);
    } else {
      FieldsSole(r, t, fields, id, x);
    }
  }

  /** A stream goes on in the other one. */
  lemma MovedSole(ss: Streams, to: Stream, id: nat, x: Known)
    requires Sole(ss, id, x) && ss.saved.Some? && (All(to) == [] || (ss.inn.Some? && All(to) == All(ss.inn.value)))
    ensures Sole(ss.(inn := Some(MoveInto(to, ss.saved.value)), saved := None), id, x)
  {
    hide Fits, All, MoveInto;
    NoneFits(id, x); NoneFits(id, Absent);
    Weaker(All(to), id, x);
    Weaker(All(ss.saved.value), id, x);
    if Fits(All(to), id, x) && Fits(All(ss.saved.value), id, x) { MoveFits(to, ss.saved.value, id, x); }
    if Fits(All(to), id, Absent) && Fits(All(ss.saved.value), id, Absent) { MoveFits(to, ss.saved.value, id, Absent); }
  }

  /** A buffer that says the signal is another one is put to a stream, or to a new one. */
  lemma DiffersSole(ss: Streams, s: Stream, id: nat, x: Known)
    requires Sole(ss, id, x) && (All(s) == [] || ss.inn == Some(s))
    ensures Sole(ss.(inn := Some(Apply(PushBuf(s, ss.next), Shut({DiffSig}))), next := ss.next + 1), id, x)
  {
    hide Fits, All, Apply, PushBuf;
    NoneFits(id, x); NoneFits(id, Absent);
    PushKnown(s, ss.next, id, x);
    ApplyKnown(PushBuf(s, ss.next), Shut({DiffSig}), id, x);
    InnSole(ss, ss.(inn := Some(Apply(PushBuf(s, ss.next), Shut({DiffSig}))), next := ss.next + 1), id, x);
  }

  lemma OfferSole(ss: Streams, id: nat, x: Known)
    requires ss.saved.Some? && Sole(ss, id, x)
    ensures Sole(Offer(ss), id, x)
  {
    hide Sole, Apply, PushBuf, MoveInto, All;
    if ss.inn.Some? {
      MovedSole(ss, ss.inn.value, id, x);
      DiffersSole(ss, ss.inn.value, id, x);
    }
  }

  lemma DroppedSole(ss: Streams, id: nat, x: Known)
    requires Sole(ss, id, x)
    ensures Sole(ss.(saved := None), id, x) && Sole(ss.(inn := None), id, x)
  {
    if ss.inn.Some? { Weaker(All(ss.inn.value), id, x); }
    if ss.saved.Some? { Weaker(All(ss.saved.value), id, x); }
    hide Fits;
  }

  lemma FreshSole(ss: Streams, row: ModRow, id: nat, x: Known)
    requires Sole(ss, id, x) && ss.saved == None
    ensures Sole(Streams(ss.inn, Some(PushBuf(NewStream(row, NO_WANT), ss.next)), ss.next + 1), id, x)
  {
    hide Fits, PushBuf, All;
    NewFits(row, NO_WANT, id, x); NewFits(row, NO_WANT, id, Absent);
    PushKnown(NewStream(row, NO_WANT), ss.next, id, x);
    SavedSole(ss, Streams(ss.inn, Some(PushBuf(NewStream(row, NO_WANT), ss.next)), ss.next + 1), id, x);
  }

  lemma Ind2Sole(r: Rx, ind: Indicator, id: nat, x: Known)
    requires Sole(r.streams, id, x)
    ensures Sole(HandleInd2(r, ind).streams, id, x)
  {
    hide Sole, PushBuf, Offer, All, FindInd;
    DroppedSole(r.streams, id, x);
    if ind.Training? && FindInd(ind, 0).Some? {
      var row, ss := FindInd(ind, 0).value, r.streams.(saved := None);
      FreshSole(ss, row, id, x);
      OfferSole(Streams(ss.inn, Some(PushBuf(NewStream(row, NO_WANT), ss.next)), ss.next + 1), id, x);
    }
  }

  lemma IndSole(r: Rx, ind: Indicator, id: nat, x: Known)
    requires Sole(r.streams, id, x)
    ensures Sole(HandleInd(r, ind).streams, id, x)
  {
    hide Sole, HandleInd2, ApplyTo;
    Ind2Sole(r, ind, id, x);
    if Open(r.streams.inn) {
      ApplyToSole(r.streams, ToIn, Shut({OutOfOrder, NoCarrier}), id, x);
      Ind2Sole(r.(streams := ApplyTo(r.streams, ToIn, Shut({OutOfOrder, NoCarrier}))), ind, id, x);
    }
  }

  lemma BlankSole(ss: Streams, row: ModRow, want: Want, id: nat, x: Known)
    requires Sole(ss, id, x)
    ensures Sole(ss.(inn := Some(NewStream(row, want))), id, x)
  {
    hide Fits, All;
    NewFits(row, want, id, x); NewFits(row, want, id, Absent);
    InnSole(ss, ss.(inn := Some(NewStream(row, want))), id, x);
  }

  lemma DeletedSole(ss: Streams, want: Want, id: nat, x: Known)
    requires Sole(ss, id, x) && ss.inn.Some?
    ensures Sole(ss.(inn := Some(DeleteFirst(ss.inn.value))), id, x)
    ensures Sole(ss.(inn := Some(DeleteFirst(ss.inn.value).(want := want))), id, x)
  {
    hide Fits, All, DeleteFirst;
    var s := ss.inn.value;
    if Fits(All(s), id, x) { DeleteFits(s, id, x); RewantFits(DeleteFirst(s), want, id, x); }
    if Fits(All(s), id, Absent) { DeleteFits(s, id, Absent); RewantFits(DeleteFirst(s), want, id, Absent); }
    InnSole(ss, ss.(inn := Some(DeleteFirst(s))), id, x);
    InnSole(ss, ss.(inn := Some(DeleteFirst(s).(want := want))), id, x);
  }

  lemma TakeSole(ss: Streams, row: ModRow, want: Want, id: nat, x: Known)
    requires Sole(ss, id, x)
    ensures Sole(TakeStream(ss, row, want), id, x)
  {
    hide Sole, Apply, PushBuf, MoveInto, DeleteFirst, All;
    var blank := NewStream(row, want);
    NewFits(row, want, id, x);
    if Continues(ss, row) {
      DeletedSole(ss, want, id, x);
    } else if ss.saved == None {
      BlankSole(ss, row, want, id, x);
    } else if SameSignal(ss.saved, row) {
      MovedSole(ss, blank, id, x);
    } else {
      DiffersSole(ss, blank, id, x);
    }
  }

  lemma PoppedSole(ss: Streams, id: nat, x: Known)
    requires Sole(ss, id, x) && ss.inn.Some?
    ensures Sole(ss.(inn := Some(PopBuf(ss.inn.value))), id, x)
  {
    hide Fits, All, PopBuf;
    var s := ss.inn.value;
    if Fits(All(s), id, x) { PopFits(s, id, x); }
    if Fits(All(s), id, Absent) { PopFits(s, id, Absent); }
    InnSole(ss, ss.(inn := Some(PopBuf(s))), id, x);
  }

  lemma GotSole(ss: Streams, count: nat, says: seq<Converted>, id: nat, x: Known)
    requires Sole(ss, id, x) && ss.inn.Some?
    ensures Sole(ss.(inn := Some(GetData(ss.inn.value, count, says).stream)), id, x)
  {
    hide Fits, All, GetData;
    var s := ss.inn.value;
    if Fits(All(s), id, x) { GetDataFits(s, count, says, id, x); }
    if Fits(All(s), id, Absent) { GetDataFits(s, count, says, id, Absent); }
    InnSole(ss, ss.(inn := Some(GetData(s, count, says).stream)), id, x);
  }

  lemma CallSole(r: Rx, e: RxEvent, id: nat, x: Known)
    requires Sole(r.streams, id, x) && (e.AskWait? || e.AskStart? || e.AskRecv? || e.AskStop? || e.AskReset? || e.AskSend?)
    ensures Sole(RxDo(r, e).streams, id, x)
  {
    hide Sole, All, PopBuf, TakeStream, GetData, GetModRow;
    DroppedSole(r.streams, id, x);
    DroppedSole(r.streams.(inn := None), id, x);
    match e
    case AskWait(dataType, param, hdlcOnly) =>
      if GetModRow(param).Some? {
        var row := GetModRow(param).value;
        TakeSole(r.streams, row, WantOf(dataType, row, hdlcOnly), id, x);
      }
    case AskStart => if r.streams.inn.Some? { PoppedSole(r.streams, id, x); }
    case AskRecv(count, says) => if r.streams.inn.Some? { GotSole(r.streams, count, says, id, x); }
    case AskStop => if r.streams.inn.Some? { DeletedSole(r.streams, NO_WANT, id, x); }
    case AskReset => if r.streams.inn.Some? { DeletedSole(r.streams, NO_WANT, id, x); }
    case AskSend(_, _) =>
  }

  lemma LostSole(r: Rx, id: nat, x: Known)
    requires Sole(r.streams, id, x)
    ensures Sole(PacketLost(r).streams, id, x)
  {
    hide Sole, ApplyTo;
    ApplyToSole(r.streams, TargetOf(r.streams), Mark({BadFcs}), id, x);
  }

  lemma GoneSole(r: Rx, id: nat, x: Known)
    requires Sole(r.streams, id, x)
    ensures Sole(LineGone(r).streams, id, x)
  {
    hide Sole, Apply, All;
    var c := Shut(if r.countIn == 0 then {NoCarrier} else {OutOfOrder, NoCarrier});
    DroppedSole(r.streams, id, x);
    if Open(r.streams.inn) {
      ApplyToSole(r.streams, ToIn, c, id, x);
      DroppedSole(ApplyTo(r.streams, ToIn, c), id, x);
    }
  }

  lemma ResumeSole(r: Rx, id: nat, x: Known)
    requires Sole(r.streams, id, x)
    ensures Sole(Resume(r).streams, id, x)
  {
    hide Sole, HandleInd2, HandleFields;
    match r.pc
    case Rest =>
    case Broken(ind) => Ind2Sole(r, ind, id, x);
    case Fields(fields) => FieldsSole(r, Nowhere, fields, id, x);
  }

  lemma DoSole(r: Rx, e: RxEvent, id: nat, x: Known)
    requires Sole(r.streams, id, x)
    ensures Sole(RxDo(r, e).streams, id, x)
  {
    hide Sole, HandleInd, HandleData, PacketLost, LineGone, Resume, RecvWait, RecvStart, Recv, RecvStop, RxReset, TurnToSend;
    match e
    case Arrive(packet) =>
      if r.pc == Rest {
        match packet
        case RxInd(ind) => IndSole(r, ind, id, x);
        case RxData(mod, fields) => DataSole(r, mod, fields, id, x);
      }
    case GoOn => ResumeSole(r, id, x);
    case Lost => LostSole(r, id, x);
    case LineDown => GoneSole(r, id, x);
    case LineDownCallback =>
    case SendEnds =>
    case _ => CallSole(r, e, id, x);
  }

  lemma {:induction false} SoleStays(events: seq<RxEvent>, more: seq<RxEvent>, id: nat, x: Known)
    requires Sole(RxExec(events).streams, id, x)
    ensures Sole(RxExec(events + more).streams, id, x)
    decreases |more|
  {
    hide Sole, RxDo;
    if more == [] {
      assert events + [] == events;
    } else {
      var before := more[..|more| - 1];
      SoleStays(events, before, id, x);
      assert (events + more)[..|events + more| - 1] == events + before;
      DoSole(RxExec(events + before), more[|more| - 1], id, x);
    }
  }

  /** In every run no buffer is in both streams. */
  lemma {:induction false} OneStream(events: seq<RxEvent>, id: nat)
    ensures Sole(RxExec(events).streams, id, Perhaps)
  {
    assert RxExec([]) == RX_START;
    SoleStays([], events, id, Perhaps);
    assert [] + events == events;
  }

  // ------------------------------------------------------------- losses

  /** The buffer `id` of a stream of this modulation is being filled. */
  predicate Filling(s: Option<Stream>, id: nat) { s.Some? && s.value.last == Some(id) }

  predicate FillingOf(ss: Streams, id: nat, mod: Modulation) {
    (Filling(ss.inn, id) && ss.inn.value.row.mod == mod) || (Filling(ss.saved, id) && ss.saved.value.row.mod == mod)
  }

  /** Wherever the buffer is, it has the flag. */
  predicate Has(ss: Streams, id: nat, f: DiagFlag) {
    && (ss.inn.Some? ==> forall i :: 0 <= i < |All(ss.inn.value)| && All(ss.inn.value)[i].id == id ==> f in All(ss.inn.value)[i].diag)
    && (ss.saved.Some? ==> forall i :: 0 <= i < |All(ss.saved.value)| && All(ss.saved.value)[i].id == id ==> f in All(ss.saved.value)[i].diag)
  }

  lemma SoleHas(ss: Streams, id: nat, f: DiagFlag)
    requires Sole(ss, id, With(f))
    ensures Has(ss, id, f)
  {
    hide All;
  }

  lemma ApplyMarks(s: Stream, c: Change, f: DiagFlag)
    requires s.last.Some? && !c.Append? && f in c.diag
    ensures Fits(All(Apply(s, c)), s.last.value, With(f))
  {
    AllApply(s, c);
  }

  lemma FillingThere(s: Stream, next: nat)
    requires StreamOk(s, next) && s.last.Some?
    ensures s.last.value < next && !Fits(All(s), s.last.value, Absent)
  {
    assert All(s)[|All(s)| - 1].id == s.last.value;
  }

  /** The buffer being filled gets the flags, and no other stream has it. */
  lemma ApplyToMarks(r: Rx, t: Target, c: Change, id: nat, f: DiagFlag)
    requires RxOk(r) && Sole(r.streams, id, Perhaps) && t == TargetOf(r.streams) && t != Nowhere && !c.Append? && f in c.diag
    requires Filling(if t == ToIn then r.streams.inn else r.streams.saved, id)
    ensures Sole(ApplyTo(r.streams, t, c), id, With(f))
  {
    hide Fits, All, StateOk, BufsOk, Apply;
    var s := if t == ToIn then r.streams.inn.value else r.streams.saved.value;
    FillingThere(s, r.streams.next);
    ApplyMarks(s, c, f);
  }

  lemma FillingTarget(r: Rx, id: nat)
    requires RxOk(r)
    ensures Filling(r.streams.inn, id) ==> TargetOf(r.streams) == ToIn
    ensures Filling(r.streams.saved, id) ==> TargetOf(r.streams) == ToSaved
  {
    hide StreamOk, StateOk;
  }

  lemma LostMarks(r: Rx, id: nat)
    requires RxOk(r) && Sole(r.streams, id, Perhaps) && FillingOf(r.streams, id, V21)
    ensures Sole(PacketLost(r).streams, id, With(BadFcs))
  {
    hide RxOk, Sole, ApplyTo;
    FillingTarget(r, id);
    ApplyToMarks(r, TargetOf(r.streams), Mark({BadFcs}), id, BadFcs);
  }

  lemma Then(events: seq<RxEvent>, e: RxEvent)
    ensures RxExec(events + [e]) == RxDo(RxExec(events), e)
  {
    hide RxDo;
    assert (events + [e])[..|events|] == events;
  }

  /**
   In every run: a loss that comes while a buffer of a V.21 stream is being filled marks that buffer's frame as bad, for as
   long as the buffer lives.
  */
  lemma {:induction false} LossStays(events: seq<RxEvent>, id: nat, more: seq<RxEvent>)
    requires RxExec(events).pc == Rest && FillingOf(RxExec(events).streams, id, V21)
    ensures Has(RxExec(events + [Lost] + more).streams, id, BadFcs)
  {
    hide RxExec, RxOk, Sole, Has, FillingOf, PacketLost;
    ReceiveBuffers(events);
    OneStream(events, id);
    LostMarks(RxExec(events), id);
    Then(events, Lost);
    SoleStays(events + [Lost], more, id, With(BadFcs));
    SoleHas(RxExec(events + [Lost] + more).streams, id, BadFcs);
  }

  /** The buffers are the same, but for a mark on the one that is being filled. */
  predicate SameBut(s: Option<Stream>, s1: Option<Stream>) {
    && (s.Some? <==> s1.Some?)
    && (s.Some? ==> |All(s1.value)| == |All(s.value)| && s1.value.last == s.value.last)
    && (s.Some? ==> forall i :: 0 <= i < |All(s.value)| ==>
          var b, b1 := All(s.value)[i], All(s1.value)[i];
          b1 == b || (s.value.last == Some(b.id) && b1 == b.(diag := b.diag + {BadFcs})))
  }

  lemma MarkSame(s: Stream)
    ensures SameBut(Some(s), Some(Apply(s, Mark({BadFcs}))))
  {
    if s.last.Some? { AllApply(s, Mark({BadFcs})); }
  }

  lemma SameSame(s: Option<Stream>)
    ensures SameBut(s, s)
  {
  }

  /** A loss changes nothing else: with no V.21 stream open, nothing at all. */
  lemma {:induction false} LossElse(events: seq<RxEvent>)
    requires RxExec(events).pc == Rest
    ensures var ss, ss1 := RxExec(events).streams, RxExec(events + [Lost]).streams;
      && SameBut(ss.inn, ss1.inn) && SameBut(ss.saved, ss1.saved)
      && ((forall id: nat :: !FillingOf(ss, id, V21)) ==> RxExec(events + [Lost]) == RxExec(events))
  {
    hide RxExec, SameBut, Apply;
    Then(events, Lost);
    var r := RxExec(events);
    SameSame(r.streams.inn);
    SameSame(r.streams.saved);
    if r.streams.inn.Some? {
      MarkSame(r.streams.inn.value);
      if r.streams.inn.value.last.Some? && r.streams.inn.value.row.mod == V21 { assert FillingOf(r.streams, r.streams.inn.value.last.value, V21); }
    }
    if r.streams.saved.Some? {
      MarkSame(r.streams.saved.value);
      if r.streams.saved.value.last.Some? && r.streams.saved.value.row.mod == V21 { assert FillingOf(r.streams, r.streams.saved.value.last.value, V21); }
    }
  }

  // ------------------------------------------------------------- cuts

  /**
   The signal of the buffer being filled is cut short: by an indicator other than its own, but not by a no-signal before
   any data; by data of another modulation; or by the end of the line.
  */
  predicate Cuts(r: Rx, e: RxEvent, id: nat) {
    match e
    case Arrive(RxInd(ind)) => Filling(r.streams.inn, id) && ind != r.streams.inn.value.row.ind && (ind != NoSignal || r.countIn > 0)
    case Arrive(RxData(mod, _)) =>
      || (Filling(r.streams.inn, id) && mod != r.streams.inn.value.row.mod)
      || (Filling(r.streams.saved, id) && mod != r.streams.saved.value.row.mod)
    case LineDown => Filling(r.streams.inn, id)
    case _ => false
  }

  lemma IndCuts(r: Rx, ind: Indicator, id: nat, f: DiagFlag)
    requires RxOk(r) && r.pc == Rest && Sole(r.streams, id, Perhaps) && Cuts(r, Arrive(RxInd(ind)), id) && (f == NoCarrier || f == OutOfOrder)
    ensures Sole(HandleInd(r, ind).streams, id, With(f))
  {
    FillingTarget(r, id);
    hide Sole, ApplyTo, HandleInd2, StateOk, StreamOk;
    var c := Shut({OutOfOrder, NoCarrier});
    ApplyToMarks(r, ToIn, c, id, f);
    Ind2Sole(r.(streams := ApplyTo(r.streams, ToIn, c)), ind, id, With(f));
  }

  lemma DataCuts(r: Rx, mod: Modulation, fields: seq<RxField>, id: nat, f: DiagFlag)
    requires RxOk(r) && r.pc == Rest && Sole(r.streams, id, Perhaps) && Cuts(r, Arrive(RxData(mod, fields)), id) && (f == NoCarrier || f == OutOfOrder)
    ensures Sole(HandleData(r, mod, fields).streams, id, With(f))
  {
    FillingTarget(r, id);
    hide Sole, ApplyTo, HandleFields, RxOk;
    var c, t := Shut({OutOfOrder, NoCarrier}), TargetOf(r.streams);
    ApplyToMarks(r, t, c, id, f);
    FieldsSole(r.(streams := ApplyTo(r.streams, t, c)), Nowhere, fields, id, With(f));
  }

  lemma GoneCuts(r: Rx, id: nat, f: DiagFlag)
    requires RxOk(r) && Sole(r.streams, id, Perhaps) && Filling(r.streams.inn, id)
    requires f == NoCarrier || (f == OutOfOrder && r.countIn > 0)
    ensures Sole(LineGone(r).streams, id, With(f))
  {
    FillingTarget(r, id);
    hide Sole, RxOk, Apply;
    var c := Shut(if r.countIn == 0 then {NoCarrier} else {OutOfOrder, NoCarrier});
    ApplyToMarks(r, ToIn, c, id, f);
    DroppedSole(ApplyTo(r.streams, ToIn, c), id, With(f));
  }

  /**
   In every run: a buffer whose signal is cut short says so as long as it lives, by no-carrier, and by out-of-order unless
   the line ended before any data.
  */
  lemma {:induction false} CutStays(events: seq<RxEvent>, e: RxEvent, id: nat, more: seq<RxEvent>)
    requires RxExec(events).pc == Rest && Cuts(RxExec(events), e, id)
    ensures var ss := RxExec(events + [e] + more).streams;
      Has(ss, id, NoCarrier) && (e.Arrive? || RxExec(events).countIn > 0 ==> Has(ss, id, OutOfOrder))
  {
    CutMarked(events, e, id, more, NoCarrier);
    hide RxExec, Cuts, Has;
    if e.Arrive? || RxExec(events).countIn > 0 { CutMarked(events, e, id, more, OutOfOrder); }
  }

  lemma CutMarked(events: seq<RxEvent>, e: RxEvent, id: nat, more: seq<RxEvent>, f: DiagFlag)
    requires RxExec(events).pc == Rest && Cuts(RxExec(events), e, id)
    requires f == NoCarrier || (f == OutOfOrder && (e.Arrive? || RxExec(events).countIn > 0))
    ensures Has(RxExec(events + [e] + more).streams, id, f)
  {
    hide RxExec, RxOk, Sole, Has, HandleInd, HandleData, LineGone;
    var r := RxExec(events);
    ReceiveBuffers(events);
    OneStream(events, id);
    Then(events, e);
    match e {
      case Arrive(RxInd(ind)) => IndCuts(r, ind, id, f);
      case Arrive(RxData(mod, fields)) => DataCuts(r, mod, fields, id, f);
      case LineDown => GoneCuts(r, id, f);
    }
    SoleStays(events + [e], more, id, With(f));
    SoleHas(RxExec(events + [e] + more).streams, id, f);
  }

  /** Its own indicator, once more, cuts nothing short, nor does a no-signal before any data: neither changes anything. */
  lemma {:induction false} NotCut(events: seq<RxEvent>, id: nat, ind: Indicator)
    requires RxExec(events).pc == Rest
    requires var r := RxExec(events);
      || (Filling(r.streams.inn, id) && (ind == r.streams.inn.value.row.ind || (ind == NoSignal && r.countIn == 0)))
      || (Filling(r.streams.saved, id) && ind == r.streams.saved.value.row.ind)
    ensures RxExec(events + [Arrive(RxInd(ind))]) == RxExec(events)
  {
    hide RxExec, HandleInd2, ApplyTo;
    Then(events, Arrive(RxInd(ind)));
  }

  // ------------------------------------------------------------- the count of data

  function BytesOf(fields: seq<RxField>): nat { if fields == [] then 0 else |fields[0].data| + BytesOf(fields[1..]) }

  lemma {:induction false} FieldsCount(r: Rx, t: Target, fields: seq<RxField>)
    requires Points(r.streams, t) && r.stateModem != StmInWaitSilence
    ensures HandleFields(r, t, fields).countIn == r.countIn + BytesOf(fields)
    ensures HandleFields(r, t, fields).pc == Rest && HandleFields(r, t, fields).stateModem == r.stateModem
    decreases |fields|
  {
    hide PutField;
    if fields != [] {
      PutPoint(r.streams, t, fields[0]);
      var r1 := r.(streams := PutField(r.streams, t, fields[0]), countIn := r.countIn + |fields[0].data|);
      if !EndsSignal(fields[0].kind) { FieldsCount(r1, t, fields[1..]); }
      else { FieldsCount(r1.(carrierIn := 0), Nowhere, fields[1..]); }
    }
  }

  lemma PutPoint(ss: Streams, t: Target, f: RxField)
    requires Points(ss, t)
    ensures Points(PutField(ss, t, f), t)
  {
  }

  /** The bytes of data are counted from the training on. */
  lemma {:induction false} DataCounted(events: seq<RxEvent>, ind: Indicator, mod: Modulation, fields: seq<RxField>)
    requires var r := RxExec(events); r.pc == Rest && !Open(r.streams.inn) && !Open(r.streams.saved) && r.stateModem != StmInWaitSilence
    requires IsTraining(ind)
    ensures RxExec(events + [Arrive(RxInd(ind))]).countIn == 0
    ensures RxExec(events + [Arrive(RxInd(ind))] + [Arrive(RxData(mod, fields))]).countIn == BytesOf(fields)
  {
    hide RxExec, HandleFields, ApplyTo, Offer, FindInd;
    FoundByInd(ind);
    Then(events, Arrive(RxInd(ind)));
    Then(events + [Arrive(RxInd(ind))], Arrive(RxData(mod, fields)));
    var r := RxExec(events + [Arrive(RxInd(ind))]);
    assert r.countIn == 0 && r.pc == Rest && r.stateModem != StmInWaitSilence;
    var t := TargetOf(r.streams);
    FieldsCount(r, t, fields);
    if t != Nowhere { FieldsCount(r.(streams := ApplyTo(r.streams, t, Shut({OutOfOrder, NoCarrier}))), Nowhere, fields); }
  }
}
