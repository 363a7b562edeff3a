/** What each packet on the line does to the engine and to what the modem can still read. */
module T38SessionLine {
  import opened BitSeq
  import opened EngineTypes
  import opened T38Types
  import opened T38Grammar
  import opened T38Send
  import opened T38Recv
  import opened T38RecvSafety
  import opened T38Pages
  import opened T38Session

  // ------------------------------------------------------------- what packets do to the engine

  /** Between bursts both streams are closed. */
  lemma NoneOpen(c: Call, h: seq<Heard>, g: Gram)
    requires Synced(c, h) && LineOk(h, g) && !g.Body?
    ensures !Open(c.rx.streams.inn) && !Open(c.rx.streams.saved)
  {
    hide RxOk, PagesOk, NeverWrong, TakesOk, Patient, LastOpen, Unread, PagesOf;
    if c.m.left.Pages? {
      var b := c.m.takes[|c.m.takes| - 1].burst;
      assert b < |h| && !LastOpen(h[b].pages);
    }
  }

  lemma QuietHandled(r: Rx, ind: Indicator)
    requires !ind.Training? && !Open(r.streams.inn) && !Open(r.streams.saved)
    ensures HandlePacket(r, RxInd(ind)) == EndSilenceWait(r.(streams := r.streams.(saved := None), carrierIn := 0, pc := Rest))
  {
  }

  /** A stream that an indicator has just made. */
  function Fresh(row: ModRow, next: nat): Stream { PushBuf(NewStream(row, NO_WANT), next) }

  lemma FreshPages(row: ModRow, next: nat)
    ensures All(Fresh(row, next)) == [Buf(next, [], false, {})] && HoldsPages(Fresh(row, next), [BLANK])
  {
  }

  /** The stream for a signal that is another one than was asked for. */
  function Differs(st: Stream, next: nat): Stream { Apply(PushBuf(st, next), Shut({DiffSig})) }

  lemma TrainingHandled(r: Rx, ind: Indicator, row: ModRow)
    requires ind.Training? && FindInd(ind, 0) == Some(row) && !Open(r.streams.inn) && !Open(r.streams.saved)
    requires r.stateModem == StmInWaitData ==> r.streams.inn.Some?
    ensures var ss, r1 := r.streams, r.(carrierIn := 1, countIn := 0, pc := Rest);
      HandlePacket(r, RxInd(ind)) ==
        if r.stateModem != StmInWaitData then EndSilenceWait(r1.(streams := Streams(ss.inn, Some(Fresh(row, ss.next)), ss.next + 1)))
        else if ss.inn.value.row.mod == row.mod then
          r1.(streams := Streams(Some(MoveInto(ss.inn.value, Fresh(row, ss.next))), None, ss.next + 1), stateModem := StmInReadyData)
        else
          r1.(streams := Streams(Some(Differs(ss.inn.value, ss.next + 1)), Some(Fresh(row, ss.next)), ss.next + 2),
              stateModem := StmInReadyData)
  {
    hide FindInd, Apply, MoveInto;
  }

  /** A data packet is one field for the stream that is open. */
  lemma FieldHandled(r: Rx, mod: Modulation, f: RxField)
    requires TargetOf(r.streams) != Nowhere ==> ModOf(r.streams, TargetOf(r.streams)) == mod
    ensures var r1 := HandlePacket(r, RxData(mod, [f]));
      && r1.streams == PutField(r.streams, TargetOf(r.streams), f)
      && (r1.pc == Rest || r1.pc == Fields([]))
      && (r1.stateModem == r.stateModem || (r.stateModem == StmInWaitSilence && r1.stateModem == StmIdle))
  {
    hide PutField;
    var t := TargetOf(r.streams);
    var r1 := r.(streams := PutField(r.streams, t, f), countIn := r.countIn + |f.data|);
    assert [f][1..] == [];
    PutPoints(r.streams, t, f);
    assert HandleFields(r1, t, []) == r1.(pc := Rest);
    assert HandleFields(r1.(carrierIn := 0), Nowhere, []) == r1.(carrierIn := 0, pc := Rest);
  }

  lemma PutPoints(ss: Streams, t: Target, f: RxField)
    requires Points(ss, t)
    ensures Points(PutField(ss, t, f), t)
  {
  }

  // ------------------------------------------------------------- indicators

  lemma IdleInstead(inn: Option<Stream>, s: StateModem, m: Modem, h: seq<Heard>)
    requires LeftOk(inn, s, m, h) && s == StmInWaitSilence
    ensures LeftOk(inn, StmIdle, m, h)
  {
  }

  lemma LeftGrows(inn: Option<Stream>, s: StateModem, m: Modem, h: seq<Heard>, h1: seq<Heard>)
    requires LeftOk(inn, s, m, h) && |h| <= |h1|
    requires m.left.Pages? && m.takes != [] && m.takes[|m.takes| - 1].burst < |h| ==>
      h1[m.takes[|m.takes| - 1].burst] == h[m.takes[|m.takes| - 1].burst]
    ensures LeftOk(inn, s, m, h1)
  {
    hide Unread, LastOpen, PagesOf;
  }

  lemma QuietSynced(c: Call, h: seq<Heard>, g: Gram, p: Packet)
    requires Synced(c, h) && LineOk(h, g) && c.rx.pc == Rest && p.Ind? && !p.ind.Training? && NextGram(g, p) != Gram.Broken
    ensures Synced(Hears(c, p, h), HeardNext(h, p))
  {
    hide RxOk, HandlePacket, LineOk, PagesLeft, WrongLeft, PlainStream, TakesOk, HandleInd, Agrees;
    NoneOpen(c, h, g);
    QuietHandled(c.rx, p.ind);
    IndOk(c.rx, p.ind);
    IndIs(c.rx, p.ind);
    if c.rx.stateModem == StmInWaitSilence { IdleInstead(c.rx.streams.inn, c.rx.stateModem, c.m, h); }
  }

  lemma IndIs(r: Rx, ind: Indicator)
    ensures HandlePacket(r, RxInd(ind)) == HandleInd(r, ind)
  {
  }

  /** The burst that begins is taken, if all before it are earlier. */
  lemma TakesMore(takes: seq<Take>, h: seq<Heard>, j: nat)
    requires TakesOk(takes, h) && j < |h| && (takes != [] ==> takes[|takes| - 1].burst < j)
    ensures TakesOk(takes + [Take(j, [])], h)
  {
    hide PageAgrees;
    var all := takes + [Take(j, [])];
    assert Agrees([], h[j].pages);
    forall i, k | 0 <= i < k < |all| ensures all[i].burst < all[k].burst {
      if k == |takes| && i < |takes| - 1 { assert takes[i].burst < takes[|takes| - 1].burst; }
    }
  }

  lemma PatientMore(m: Modem, m1: Modem, h: seq<Heard>, j: nat)
    requires Patient(m, h) && (m.left.Pages? ==> m1.gaveUp) && (m.gaveUp ==> m1.gaveUp)
    requires m1.takes == m.takes + [Take(j, [])] && m1.left.Pages?
    ensures Patient(m1, h)
  {
  }

  lemma PatientSame(m: Modem, m1: Modem, h: seq<Heard>)
    requires Patient(m, h) && (m.left.Pages? && !m1.left.Pages? ==> m1.gaveUp) && (m.gaveUp ==> m1.gaveUp)
    requires m1.takes == m.takes
    ensures Patient(m1, h)
  {
  }

  /** What a modem that waited for the signal gets. */
  lemma TakenFresh(inn: Stream, row: ModRow, next: nat, t: Take, h: seq<Heard>, reading: seq<Byte>)
    requires All(inn) == [] && PlainStream(inn, row.mod) && t.pages == [] && t.burst < |h| && h[t.burst] == Heard(row.mod, [BLANK])
    ensures var st := MoveInto(inn, Fresh(row, next)); PlainStream(st, row.mod) && PagesLeft(st, StmInReadyData, reading, t, h)
  {
    FreshPages(row, next);
    var st := MoveInto(inn, Fresh(row, next));
    assert All(st) == All(Fresh(row, next));
    assert [BLANK][0..] == [BLANK];
    hide PagesOf, Fresh;
  }

  lemma DiffersIs(inn: Stream, next: nat, mod: Modulation, reading: seq<Byte>)
    requires All(inn) == [] && inn.last == None && PlainStream(inn, mod)
    ensures var st := Differs(inn, next); PlainStream(st, mod) && WrongLeft(st, StmInReadyData, reading)
  {
    DifferentOk(inn, next);
    var st := Differs(inn, next);
    assert All(st) == [Buf(next, [], true, {DiffSig})];
    assert PagesOf(All(st)) == [WRONG_PAGE];
  }

  lemma TrainingSynced(c: Call, h: seq<Heard>, g: Gram, p: Packet)
    requires Synced(c, h) && LineOk(h, g) && c.rx.pc == Rest && p.Ind? && p.ind.Training? && NextGram(g, p) != Gram.Broken
    requires c.rx.stateModem != StmInWaitData
    ensures Synced(Hears(c, p, h), HeardNext(h, p))
  {
    hide RxOk, HandlePacket, LeftOk, HandleInd, FindInd, Fresh, HoldsPages, LineOk, HeardNext, TakesOk, Patient, HeardExtends;
    var h1 := HeardNext(h, p);
    FoundByInd(p.ind);
    var row := FindInd(p.ind, 0).value;
    NoneOpen(c, h, g);
    TrainingHandled(c.rx, p.ind, row);
    IndOk(c.rx, p.ind);
    IndIs(c.rx, p.ind);
    FreshPages(row, c.rx.streams.next);
    FreshRow(row, c.rx.streams.next);
    HeardNextExtends(h, p);
    HeardNew(h, p);
    TakesGrow(c.m.takes, h, h1);
    PatientGrows(c.m, h, h1);
    PatientSame(c.m, c.m.(free := true), h1);
    TakesBelow(c.m.takes, h);
    LeftBelow(c.rx.streams.inn, c.rx.stateModem, c.m, h);
    LeftGrows(c.rx.streams.inn, c.rx.stateModem, c.m, h, h1);
    LeftFree(c.rx.streams.inn, c.rx.stateModem, c.m, h1);
    if c.rx.stateModem == StmInWaitSilence { IdleInstead(c.rx.streams.inn, c.rx.stateModem, c.m.(free := true), h1); }
  }

  lemma LeftFree(inn: Option<Stream>, s: StateModem, m: Modem, h: seq<Heard>)
    requires LeftOk(inn, s, m, h)
    ensures LeftOk(inn, s, m.(free := true), h)
  {
  }

  lemma FreshRow(row: ModRow, next: nat)
    ensures Fresh(row, next).row == row && Fresh(row, next).first == None
  {
  }

  lemma TakesBelow(takes: seq<Take>, h: seq<Heard>)
    requires TakesOk(takes, h)
    ensures takes != [] ==> takes[|takes| - 1].burst < |h|
  {
  }

  lemma LeftBelow(inn: Option<Stream>, s: StateModem, m: Modem, h: seq<Heard>)
    requires LeftOk(inn, s, m, h)
    ensures m.left.Pages? ==> m.takes != [] && m.takes[|m.takes| - 1].burst < |h|
  {
  }

  /** A modem that waits has nothing left. */
  lemma Waiting(c: Call, h: seq<Heard>)
    requires Synced(c, h) && c.rx.stateModem == StmInWaitData
    ensures c.m.left == NoPages && c.m.want.Some? && c.rx.streams.inn.Some?
    ensures var st := c.rx.streams.inn.value; All(st) == [] && st.last == None && PlainStream(st, c.m.want.value)
  {
    hide RxOk, TakesOk, Patient, PlainStream, All;
  }

  lemma HeardNew(h: seq<Heard>, p: Packet)
    requires p.Ind? && p.ind.Training?
    ensures HeardNext(h, p) == h + [Heard(p.ind.mod, [BLANK])]
  {
  }

  /** The indicator that a modem waits for. */
  lemma AwaitedSynced(c: Call, h: seq<Heard>, g: Gram, p: Packet)
    requires Synced(c, h) && LineOk(h, g) && c.rx.pc == Rest && p.Ind? && p.ind.Training? && NextGram(g, p) != Gram.Broken
    requires c.rx.stateModem == StmInWaitData && c.m.want == Some(p.ind.mod)
    ensures Synced(Hears(c, p, h), HeardNext(h, p))
  {
    hide RxOk, HandlePacket, PagesLeft, HandleInd, TakesOk, Patient, FindInd, Fresh, LineOk, All, MoveInto, Differs, PlainStream, HeardNext, HeardExtends;
    var h1 := HeardNext(h, p);
    FoundByInd(p.ind);
    Waiting(c, h);
    var row, st, next := FindInd(p.ind, 0).value, c.rx.streams.inn.value, c.rx.streams.next;
    NoneOpen(c, h, g);
    TrainingHandled(c.rx, p.ind, row);
    SameRow(st, p.ind.mod);
    IndOk(c.rx, p.ind);
    IndIs(c.rx, p.ind);
    HeardNextExtends(h, p);
    HeardNew(h, p);
    TakesGrow(c.m.takes, h, h1);
    PatientGrows(c.m, h, h1);
    TakesBelow(c.m.takes, h);
    TakenFresh(st, row, next, Take(|h|, []), h1, c.m.reading);
    TakesMore(c.m.takes, h1, |h|);
    PatientMore(c.m, Signalled(c.m, true, p.ind, |h|), h1, |h|);
  }

  lemma SameRow(st: Stream, mod: Modulation)
    requires PlainStream(st, mod)
    ensures st.row.mod == mod
  {
  }

  /** And another one. */
  lemma UnawaitedSynced(c: Call, h: seq<Heard>, g: Gram, p: Packet)
    requires Synced(c, h) && LineOk(h, g) && c.rx.pc == Rest && p.Ind? && p.ind.Training? && NextGram(g, p) != Gram.Broken
    requires c.rx.stateModem == StmInWaitData && c.m.want != Some(p.ind.mod)
    ensures Synced(Hears(c, p, h), HeardNext(h, p))
  {
    hide RxOk, HandlePacket, WrongLeft, HandleInd, TakesOk, Patient, FindInd, Fresh, LineOk, All, MoveInto, Differs, PlainStream, HeardNext, HeardExtends, HoldsPages;
    var h1 := HeardNext(h, p);
    FoundByInd(p.ind);
    Waiting(c, h);
    var row, st, next := FindInd(p.ind, 0).value, c.rx.streams.inn.value, c.rx.streams.next;
    NoneOpen(c, h, g);
    TrainingHandled(c.rx, p.ind, row);
    SameRow(st, c.m.want.value);
    IndOk(c.rx, p.ind);
    IndIs(c.rx, p.ind);
    FreshPages(row, next);
    FreshRow(row, next);
    HeardNextExtends(h, p);
    HeardNew(h, p);
    TakesGrow(c.m.takes, h, h1);
    PatientGrows(c.m, h, h1);
    TakesBelow(c.m.takes, h);
    DiffersIs(st, next + 1, c.m.want.value, c.m.reading);
    PatientSame(c.m, Signalled(c.m, true, p.ind, |h|), h1);
  }

  // ------------------------------------------------------------- data

  lemma ChangedBehind(done: seq<Page>, ps: seq<Page>, c: Change)
    requires ps != []
    ensures LastChanged(done + ps, c) == done + LastChanged(ps, c) && LastChanged(ps, c) != []
  {
    assert (done + ps)[..|done + ps| - 1] == done + ps[..|ps| - 1];
  }

  lemma ChangedAhead(reading: seq<Byte>, ps: seq<Page>, c: Change)
    requires ps != []
    ensures LastChanged(Ahead(reading, ps), c) == Ahead(reading, LastChanged(ps, c)) && LastChanged(ps, c) != []
  {
    var last := ps[|ps| - 1];
    if |ps| == 1 && c.Append? {
      assert reading + (last.bytes + c.bytes) == reading + last.bytes + c.bytes;
    }
    if |ps| > 1 {
      assert Ahead(reading, ps)[..|ps| - 1] == Ahead(reading, ps[..|ps| - 1]);
    }
  }

  /** Pages already read stay out of what a field does. */
  lemma FilledBehind(done: seq<Page>, ps: seq<Page>, f: RxField)
    requires LastOpen(ps)
    ensures Filled(done + ps, f) == done + Filled(ps, f)
  {
    hide LastChanged;
    var c1, c2, c3, c4 := Append(f.data), Mark({BadFcs}), Shut({}), Shut({NoCarrier});
    ChangedBehind(done, ps, c1);
    var p1 := LastChanged(ps, c1);
    ChangedBehind(done, p1, c2);
    var p2 := if BadFrame(f.kind) then LastChanged(p1, c2) else p1;
    ChangedBehind(done, p2, c3);
    var p3 := if EndsFrame(f.kind) then LastChanged(p2, c3) + [BLANK] else p2;
    assert done + (LastChanged(p2, c3) + [BLANK]) == done + LastChanged(p2, c3) + [BLANK];
    ChangedBehind(done, p3, c4);
  }

  /** Nor does it matter how much of the page being read is read. */
  lemma FilledAhead(reading: seq<Byte>, ps: seq<Page>, f: RxField)
    requires LastOpen(ps)
    ensures Filled(Ahead(reading, ps), f) == Ahead(reading, Filled(ps, f))
  {
    hide LastChanged, Ahead;
    var c1, c2, c3, c4 := Append(f.data), Mark({BadFcs}), Shut({}), Shut({NoCarrier});
    ChangedAhead(reading, ps, c1);
    var p1 := LastChanged(ps, c1);
    ChangedAhead(reading, p1, c2);
    var p2 := if BadFrame(f.kind) then LastChanged(p1, c2) else p1;
    ChangedAhead(reading, p2, c3);
    var p3 := if EndsFrame(f.kind) then LastChanged(p2, c3) + [BLANK] else p2;
    AheadPlus(reading, LastChanged(p2, c3));
    ChangedAhead(reading, p3, c4);
    AheadOpen(reading, ps);
  }

  lemma AheadPlus(reading: seq<Byte>, ps: seq<Page>)
    requires ps != []
    ensures Ahead(reading, ps + [BLANK]) == Ahead(reading, ps) + [BLANK]
  {
    assert (ps + [BLANK])[1..] == ps[1..] + [BLANK];
  }

  lemma AheadOpen(reading: seq<Byte>, ps: seq<Page>)
    ensures LastOpen(Ahead(reading, ps)) <==> LastOpen(ps)
  {
  }

  lemma FilledOpen(ps: seq<Page>, f: RxField)
    requires LastOpen(ps)
    ensures |Filled(ps, f)| >= |ps| && (LastOpen(Filled(ps, f)) <==> !EndsSignal(f.kind))
  {
  }

  lemma FilledFrom(ps: seq<Page>, k: nat, f: RxField)
    requires LastOpen(ps) && k < |ps|
    ensures |Filled(ps, f)| >= |ps| && Filled(ps, f)[k..] == Filled(ps[k..], f)
  {
    assert ps == ps[..k] + ps[k..];
    FilledBehind(ps[..k], ps[k..], f);
    FilledOpen(ps, f);
    hide Filled;
  }

  lemma UnreadPut(st: Stream, s: StateModem, reading: seq<Byte>, f: RxField, next: nat)
    requires StreamOk(st, next) && st.last.Some?
    ensures Unread(StreamPut(st, f, next), s, reading) == Filled(Unread(st, s, reading), f)
    ensures StreamPut(st, f, next).last.Some? <==> !EndsSignal(f.kind)
  {
    hide StreamOk, StreamPut, Filled, Ahead, LastChanged, PagesOf, All, Apply, LastOpen, EndsSignal;
    var rest := PagesOf(All(st));
    PutHolds(st, f, next);
    ApplyHolds(st, Append(f.data), next);
    FilledOpen(rest, f);
    FilledAhead(reading, rest, f);
  }

  /** The field goes to the burst that the modem reads. */
  lemma LeftPut(st: Stream, s: StateModem, reading: seq<Byte>, t: Take, h: seq<Heard>, f: RxField, next: nat)
    requires PagesLeft(st, s, reading, t, h) && StreamOk(st, next) && st.last.Some?
    ensures var ps := Filled(h[t.burst].pages, f);
      PagesLeft(StreamPut(st, f, next), s, reading, t, h[t.burst := h[t.burst].(pages := ps)])
  {
    hide StreamPut, StreamOk, PagesOf, Filled, LastOpen, All;
    PutShape(st, f, next);
    UnreadPut(st, s, reading, f, next);
    FilledOpen(h[t.burst].pages, f);
    FilledFrom(h[t.burst].pages, |t.pages|, f);
    hide Unread;
  }

  lemma PlainPut(st: Stream, mod: Modulation, f: RxField, next: nat)
    requires PlainStream(st, mod)
    ensures PlainStream(StreamPut(st, f, next), mod)
  {
    PutShape(st, f, next);
    hide StreamPut;
  }

  /** Which stream a field is for: that of the modem while it reads the burst, the one that is kept while it can be asked for. */
  lemma FieldFor(c: Call, h: seq<Heard>, g: Gram)
    requires Synced(c, h) && LineOk(h, g) && g.Body?
    ensures h != [] && LastOpen(h[|h| - 1].pages) && h[|h| - 1].mod == g.mod
    ensures match TargetOf(c.rx.streams)
      case ToIn => !c.m.free && c.m.left.Pages? && c.m.takes != [] && c.m.takes[|c.m.takes| - 1].burst == |h| - 1
                   && c.rx.streams.inn.value.row.mod == g.mod
      case ToSaved => c.m.free && c.rx.streams.saved.value.row.mod == g.mod && HoldsPages(c.rx.streams.saved.value, h[|h| - 1].pages)
      case Nowhere => !c.m.free && (c.m.left.Pages? && c.m.takes != [] ==> c.m.takes[|c.m.takes| - 1].burst != |h| - 1)
  {
    hide PagesOk, NeverWrong, TakesOk, Patient, LastOpen, Unread, PagesOf, StreamOk, All;
  }

  lemma DataHeard(h: seq<Heard>, p: Packet)
    requires p.Data? && h != []
    ensures HeardNext(h, p) == h[|h| - 1 := h[|h| - 1].(pages := Filled(h[|h| - 1].pages, Arrives(p.field)))]
  {
  }

  lemma DataIs(r: Rx, mod: Modulation, fields: seq<RxField>)
    ensures HandlePacket(r, RxData(mod, fields)) == HandleData(r, mod, fields)
  {
  }

  /** What holds of the takes after any packet of data. */
  lemma DataTakes(c: Call, h: seq<Heard>, p: Packet)
    requires Synced(c, h)
    ensures TakesOk(c.m.takes, HeardNext(h, p)) && Patient(c.m, HeardNext(h, p))
  {
    HeardNextExtends(h, p);
    hide RxOk, HeardNext, HeardExtends;
    TakesGrow(c.m.takes, h, HeardNext(h, p));
    PatientGrows(c.m, h, HeardNext(h, p));
  }

  lemma DataHandled(r: Rx, mod: Modulation, f: RxField)
    requires RxOk(r) && (TargetOf(r.streams) != Nowhere ==> ModOf(r.streams, TargetOf(r.streams)) == mod)
    ensures var r1, ss := HandlePacket(r, RxData(mod, [f])), r.streams;
      && RxOk(r1) && (r1.pc == Rest || r1.pc == Fields([]))
      && (r1.stateModem == r.stateModem || (r.stateModem == StmInWaitSilence && r1.stateModem == StmIdle))
      && match TargetOf(ss)
         case Nowhere => r1.streams == ss
         case ToIn => OptOk(ss.inn, ss.next) && r1.streams == Streams(Some(StreamPut(ss.inn.value, f, ss.next)), ss.saved, NextAfter(f, ss.next))
         case ToSaved => OptOk(ss.saved, ss.next) && r1.streams == Streams(ss.inn, Some(StreamPut(ss.saved.value, f, ss.next)), NextAfter(f, ss.next))
  {
    hide HandlePacket, HandleData, StreamOk, StateOk, PutField, StreamPut;
    FieldHandled(r, mod, f);
    DataOk(r, mod, [f]);
    DataIs(r, mod, [f]);
    PutFieldStream(r.streams, TargetOf(r.streams), f);
  }

  lemma ReadDataSynced(c: Call, h: seq<Heard>, g: Gram, p: Packet)
    requires Synced(c, h) && LineOk(h, g) && c.rx.pc == Rest && p.Data? && NextGram(g, p) != Gram.Broken
    requires TargetOf(c.rx.streams) == ToIn
    ensures Synced(Hears(c, p, h), HeardNext(h, p))
  {
    hide HandlePacket, RxOk, StreamOk, LineOk, StreamPut, Filled, TakesOk, Patient, HeardNext, PlainStream, HoldsPages, PagesLeft, WrongLeft, NothingLeft;
    var f, ss := Arrives(p.field), c.rx.streams;
    FieldFor(c, h, g);
    DataHandled(c.rx, p.mod, f);
    DataTakes(c, h, p);
    DataHeard(h, p);
    LeftPut(ss.inn.value, c.rx.stateModem, c.m.reading, c.m.takes[|c.m.takes| - 1], h, f, ss.next);
    PlainPut(ss.inn.value, c.m.left.mod, f, ss.next);
    CanReadOn(ss.inn.value, c.rx.stateModem, c.m.reading, c.m.takes[|c.m.takes| - 1], h);
  }

  lemma CanReadOn(st: Stream, s: StateModem, reading: seq<Byte>, t: Take, h: seq<Heard>)
    requires PagesLeft(st, s, reading, t, h)
    ensures CanRead(s)
  {
  }

  lemma KeptDataSynced(c: Call, h: seq<Heard>, g: Gram, p: Packet)
    requires Synced(c, h) && LineOk(h, g) && c.rx.pc == Rest && p.Data? && NextGram(g, p) != Gram.Broken
    requires TargetOf(c.rx.streams) == ToSaved
    ensures Synced(Hears(c, p, h), HeardNext(h, p))
  {
    hide HandlePacket, RxOk, LineOk, Filled, TakesOk, Patient, HeardNext, PlainStream, LeftOk, StreamPut, StreamOk, Arrives, All, PagesOf, LastOpen;
    var f, ss, h1 := Arrives(p.field), c.rx.streams, HeardNext(h, p);
    FieldFor(c, h, g);
    DataHandled(c.rx, p.mod, f);
    DataTakes(c, h, p);
    DataHeard(h, p);
    SavedPut(ss.saved.value, h[|h| - 1].pages, f, ss.next);
    hide HoldsPages;
    LeftGrows(ss.inn, c.rx.stateModem, c.m, h, h1);
    if c.rx.stateModem == StmInWaitSilence { IdleInstead(ss.inn, c.rx.stateModem, c.m, h1); }
  }

  lemma SavedPut(st: Stream, ps: seq<Page>, f: RxField, next: nat)
    requires StreamOk(st, next) && st.last.Some? && HoldsPages(st, ps)
    ensures HoldsPages(StreamPut(st, f, next), Filled(ps, f)) && StreamPut(st, f, next).row == st.row
  {
    PutHolds(st, f, next);
    PutShape(st, f, next);
    hide StreamOk, StreamPut, Filled, PagesOf, All;
  }

  lemma LostDataSynced(c: Call, h: seq<Heard>, g: Gram, p: Packet)
    requires Synced(c, h) && LineOk(h, g) && c.rx.pc == Rest && p.Data? && NextGram(g, p) != Gram.Broken
    requires TargetOf(c.rx.streams) == Nowhere
    ensures Synced(Hears(c, p, h), HeardNext(h, p))
  {
    hide HandlePacket, RxOk, LineOk, Filled, TakesOk, Patient, HeardNext, PlainStream, LeftOk, StreamPut, StreamOk, Arrives, HoldsPages;
    var h1 := HeardNext(h, p);
    FieldFor(c, h, g);
    DataHandled(c.rx, p.mod, Arrives(p.field));
    DataTakes(c, h, p);
    DataHeard(h, p);
    LeftGrows(c.rx.streams.inn, c.rx.stateModem, c.m, h, h1);
    if c.rx.stateModem == StmInWaitSilence { IdleInstead(c.rx.streams.inn, c.rx.stateModem, c.m, h1); }
  }

  /** Any packet that fits. */
  lemma HearsSynced(c: Call, h: seq<Heard>, g: Gram, p: Packet)
    requires Synced(c, h) && LineOk(h, g) && c.rx.pc == Rest && NextGram(g, p) != Gram.Broken
    ensures Synced(Hears(c, p, h), HeardNext(h, p))
  {
    hide Synced, LineOk, NextGram, Hears, HeardNext;
    if p.Data? {
      match TargetOf(c.rx.streams)
      case ToIn => ReadDataSynced(c, h, g, p);
      case ToSaved => KeptDataSynced(c, h, g, p);
      case Nowhere => LostDataSynced(c, h, g, p);
    } else if !p.ind.Training? {
      QuietSynced(c, h, g, p);
    } else if c.rx.stateModem != StmInWaitData {
      TrainingSynced(c, h, g, p);
    } else if c.m.want == Some(p.ind.mod) {
      AwaitedSynced(c, h, g, p);
    } else {
      UnawaitedSynced(c, h, g, p);
    }
  }

  // ------------------------------------------------------------- a loss

  lemma MarkedFrom(ps: seq<Page>, k: nat, c: Change)
    requires k < |ps|
    ensures LastChanged(ps, c)[k..] == LastChanged(ps[k..], c) && |LastChanged(ps, c)| == |ps|
  {
    assert ps == ps[..k] + ps[k..];
    ChangedBehind(ps[..k], ps[k..], c);
  }

  /** A mark on the open page of the burst that the modem reads. */
  lemma LeftMarked(st: Stream, s: StateModem, reading: seq<Byte>, t: Take, h: seq<Heard>, next: nat)
    requires PagesLeft(st, s, reading, t, h) && StreamOk(st, next) && st.last.Some?
    ensures var ps := LastChanged(h[t.burst].pages, Mark({BadFcs}));
      PagesLeft(Apply(st, Mark({BadFcs})), s, reading, t, h[t.burst := h[t.burst].(pages := ps)])
  {
    hide StreamOk, PagesOf, LastChanged, LastOpen, All, Apply, Ahead;
    var c, rest := Mark({BadFcs}), PagesOf(All(st));
    ApplyHolds(st, c, next);
    ApplyOk(st, c, next);
    ApplyShape(st, c);
    OpenSome(rest);
    ChangedAhead(reading, rest, c);
    LastStaysOpen(h[t.burst].pages, c);
    MarkedFrom(h[t.burst].pages, |t.pages|, c);
  }

  lemma OpenSome(ps: seq<Page>)
    ensures LastOpen(ps) ==> ps != []
  {
  }

  lemma ApplyShape(st: Stream, c: Change)
    ensures var st1 := Apply(st, c); st1.row == st.row && st1.want == st.want && (st1.first.Some? <==> st.first.Some?)
  {
  }

  lemma SavedMarked(st: Stream, ps: seq<Page>, next: nat)
    requires StreamOk(st, next) && st.last.Some? && HoldsPages(st, ps)
    ensures HoldsPages(Apply(st, Mark({BadFcs})), LastChanged(ps, Mark({BadFcs})))
  {
    ApplyHolds(st, Mark({BadFcs}), next);
    hide StreamOk, Apply, PagesOf, All, LastChanged, LastOpen;
  }

  lemma LostHandled(r: Rx)
    requires RxOk(r)
    ensures var r1, ss := PacketLost(r), r.streams;
      && RxOk(r1) && r1.pc == r.pc && r1.stateModem == r.stateModem
      && match TargetOf(ss)
         case Nowhere => r1 == r
         case ToIn => (
           && OptOk(ss.inn, ss.next)
           && r1.streams == (if ss.inn.value.row.mod == V21 then ss.(inn := Some(Apply(ss.inn.value, Mark({BadFcs})))) else ss))
         case ToSaved => (
           && OptOk(ss.saved, ss.next)
           && r1.streams == (if ss.saved.value.row.mod == V21 then ss.(saved := Some(Apply(ss.saved.value, Mark({BadFcs})))) else ss))
  {
    hide StreamOk, StateOk, Apply;
    LostOk(r);
  }

  lemma LostTakes(c: Call, h: seq<Heard>)
    requires Synced(c, h)
    ensures TakesOk(c.m.takes, Spoilt(h)) && Patient(c.m, Spoilt(h))
  {
    SpoiltExtends(h);
    hide RxOk, Spoilt, HeardExtends;
    TakesGrow(c.m.takes, h, Spoilt(h));
    PatientGrows(c.m, h, Spoilt(h));
  }

  /** Between bursts a loss spoils nothing. */
  lemma QuietLoss(c: Call, h: seq<Heard>, g: Gram)
    requires Synced(c, h) && LineOk(h, g) && !g.Body?
    ensures PacketLost(c.rx) == c.rx && Spoilt(h) == h
  {
    NoneOpen(c, h, g);
    hide RxOk, PagesOk, NeverWrong, TakesOk, Patient, LastOpen;
  }

  lemma SpoiltIs(h: seq<Heard>)
    requires h != [] && LastOpen(h[|h| - 1].pages)
    ensures Spoilt(h) ==
      if h[|h| - 1].mod == V21 then h[|h| - 1 := h[|h| - 1].(pages := LastChanged(h[|h| - 1].pages, Mark({BadFcs})))] else h
  {
  }

  lemma PlainMarked(st: Stream, mod: Modulation, c: Change)
    requires PlainStream(st, mod)
    ensures PlainStream(Apply(st, c), mod)
  {
    ApplyShape(st, c);
    hide Apply;
  }

  lemma ReadLossSynced(c: Call, h: seq<Heard>, g: Gram)
    requires Synced(c, h) && LineOk(h, g) && g.Body? && TargetOf(c.rx.streams) == ToIn
    ensures Synced(Meets(c, Gone, h), Spoilt(h))
  {
    hide PacketLost, RxOk, StreamOk, LineOk, Apply, TakesOk, Patient, PlainStream, HoldsPages, PagesLeft, WrongLeft, NothingLeft, Spoilt, LastChanged;
    var ss := c.rx.streams;
    FieldFor(c, h, g);
    LostHandled(c.rx);
    LostTakes(c, h);
    SpoiltIs(h);
    LeftMarked(ss.inn.value, c.rx.stateModem, c.m.reading, c.m.takes[|c.m.takes| - 1], h, ss.next);
    PlainMarked(ss.inn.value, c.m.left.mod, Mark({BadFcs}));
    CanReadOn(ss.inn.value, c.rx.stateModem, c.m.reading, c.m.takes[|c.m.takes| - 1], h);
  }

  lemma KeptLossSynced(c: Call, h: seq<Heard>, g: Gram)
    requires Synced(c, h) && LineOk(h, g) && g.Body? && TargetOf(c.rx.streams) == ToSaved
    ensures Synced(Meets(c, Gone, h), Spoilt(h))
  {
    hide PacketLost, RxOk, LineOk, TakesOk, Patient, Spoilt, PlainStream, LeftOk, StreamOk, Apply, All, PagesOf, LastOpen, LastChanged;
    var ss := c.rx.streams;
    FieldFor(c, h, g);
    LostHandled(c.rx);
    LostTakes(c, h);
    SpoiltIs(h);
    SavedMarked(ss.saved.value, h[|h| - 1].pages, ss.next);
    ApplyShape(ss.saved.value, Mark({BadFcs}));
    hide HoldsPages;
    LeftGrows(ss.inn, c.rx.stateModem, c.m, h, Spoilt(h));
  }

  lemma NowhereLossSynced(c: Call, h: seq<Heard>, g: Gram)
    requires Synced(c, h) && LineOk(h, g) && g.Body? && TargetOf(c.rx.streams) == Nowhere
    ensures Synced(Meets(c, Gone, h), Spoilt(h))
  {
    hide PacketLost, RxOk, LineOk, TakesOk, Patient, Spoilt, PlainStream, LeftOk, StreamOk, LastOpen, LastChanged, HoldsPages;
    FieldFor(c, h, g);
    LostHandled(c.rx);
    LostTakes(c, h);
    SpoiltIs(h);
    LeftGrows(c.rx.streams.inn, c.rx.stateModem, c.m, h, Spoilt(h));
  }

  /** Whatever comes, a packet that fits or a loss. */
  lemma MeetsSynced(c: Call, h: seq<Heard>, g: Gram, a: Arrival)
    requires Synced(c, h) && LineOk(h, g) && c.rx.pc == Rest && GramThen(g, a) != Gram.Broken
    ensures Synced(Meets(c, a, h), HeardThen(h, a))
  {
    if a.Came? {
      hide Synced, LineOk, NextGram, Hears, HeardNext;
      HearsSynced(c, h, g, a.packet);
    } else if g.Body? {
      hide Synced, LineOk, PacketLost, Spoilt;
      match TargetOf(c.rx.streams)
      case ToIn => ReadLossSynced(c, h, g);
      case ToSaved => KeptLossSynced(c, h, g);
      case Nowhere => NowhereLossSynced(c, h, g);
    } else {
      QuietLoss(c, h, g);
      hide PacketLost, Spoilt, LineOk, RxOk, SavedOk, LeftOk, AwaitOk, TakesOk, Patient;
    }
  }
}
