/** What each call of the modem does, and what every call between the two keeps: the pages read are those of the bursts on the line. */
module T38SessionModem {
  import opened BitSeq
  import opened EngineTypes
  import opened T38Types
  import opened T38Grammar
  import opened T38Send
  import opened T38Recv
  import opened T38RecvSafety
  import opened T38Pages
  import opened T38Session
  import opened T38SessionLine

  // ------------------------------------------------------------- asking

  /** The stream that `RecvWait` makes for this wish. */
  function StreamFor(w: Wish): Stream
    requires Plain(w)
  {
    NewStream(GetModRow(w.param).value, Want(w.dataType, w.dataType))
  }

  lemma StreamForPlain(w: Wish)
    requires Plain(w)
    ensures PlainStream(StreamFor(w), Wished(w)) && All(StreamFor(w)) == [] && StreamFor(w).last == None
  {
    hide GetModRow;
  }

  /** The modem asks again while there are buffers left of its stream. */
  lemma AsksOn(r: Rx, w: Wish)
    requires r.stateModem == StmIdle && Plain(w) && r.streams.inn.Some?
    requires var st := r.streams.inn.value; st.first == None && st.queue != [] && st.row.mod == Wished(w)
    ensures RecvWait(r, w.dataType, w.param, w.hdlcOnly) ==
      r.(streams := r.streams.(inn := Some(r.streams.inn.value.(want := Want(w.dataType, w.dataType)))), stateModem := StmInReadyData)
  {
    hide GetModRow;
  }

  /** It asks for what it has not begun to read. */
  lemma AsksNew(r: Rx, w: Wish)
    requires r.stateModem == StmIdle && Plain(w)
    requires r.streams.inn.Some? && r.streams.inn.value.row.mod == Wished(w) ==> All(r.streams.inn.value) == []
    ensures var r1, ss := RecvWait(r, w.dataType, w.param, w.hdlcOnly), r.streams;
      r1 ==
        if ss.saved == None then r.(streams := ss.(inn := Some(StreamFor(w))), stateModem := StmInWaitData)
        else if ss.saved.value.row.mod == Wished(w) then
          r.(streams := ss.(inn := Some(MoveInto(StreamFor(w), ss.saved.value)), saved := None), stateModem := StmInReadyData)
        else r.(streams := ss.(inn := Some(Differs(StreamFor(w), ss.next)), next := ss.next + 1), stateModem := StmInReadyData)
  {
    hide GetModRow, MoveInto, Apply;
    if r.streams.inn.Some? { var st := r.streams.inn.value; assert All(st) == [] ==> DeleteFirst(st).queue == []; }
  }

  /** What is left is asked for once more. */
  lemma LeftAsked(st: Stream, m: Modem, h: seq<Heard>, w: Wish)
    requires Plain(w) && m.left != NoPages && m.left.mod == Wished(w) && LeftOk(Some(st), StmIdle, m, h)
    ensures LeftOk(Some(st.(want := Want(w.dataType, w.dataType))), StmInReadyData, m.(want := Some(Wished(w))), h)
  {
    hide GetModRow, LastOpen, PagesOf;
    assert All(st.(want := Want(w.dataType, w.dataType))) == All(st);
  }

  lemma LeftSome(c: Call, h: seq<Heard>)
    requires RxOk(c.rx) && LeftOk(c.rx.streams.inn, c.rx.stateModem, c.m, h) && c.m.left != NoPages
    requires c.rx.stateModem == StmIdle || c.rx.stateModem == StmInReadyData
    ensures c.rx.streams.inn.Some? && PlainStream(c.rx.streams.inn.value, c.m.left.mod)
    ensures var st := c.rx.streams.inn.value; st.first == None && st.queue != [] && All(st) != []
  {
    hide StreamsOk, LastOpen, PlainStream;
    var st := c.rx.streams.inn.value;
    assert |PagesOf(All(st))| == |All(st)|;
  }

  lemma LeftNone(c: Call, h: seq<Heard>, mod: Modulation)
    requires LeftOk(c.rx.streams.inn, c.rx.stateModem, c.m, h) && !(c.m.left != NoPages && c.m.left.mod == mod)
    ensures var inn := c.rx.streams.inn; inn.Some? && inn.value.row.mod == mod ==> All(inn.value) == []
  {
    hide PagesLeft, WrongLeft, All;
  }

  lemma AskOnSynced(c: Call, h: seq<Heard>, w: Wish)
    requires Synced(c, h) && Plain(w) && c.rx.stateModem == StmIdle && c.m.left != NoPages && c.m.left.mod == Wished(w)
    ensures Synced(Does(c, h, Ask(w)), h)
  {
    hide RxOk, RecvWait, SavedOk, LeftOk, TakesOk, Plain, PlainStream;
    LeftSome(c, h);
    SameRow(c.rx.streams.inn.value, c.m.left.mod);
    AsksOn(c.rx, w);
    WaitKeeps(c.rx, w.dataType, w.param, w.hdlcOnly);
    LeftAsked(c.rx.streams.inn.value, c.m, h, w);
    PatientSame(c.m, c.m.(want := Some(Wished(w))), h);
    hide Patient;
  }

  /** There is nothing to take. */
  lemma AskWaitSynced(c: Call, h: seq<Heard>, w: Wish)
    requires Synced(c, h) && Plain(w) && c.rx.stateModem == StmIdle && !(c.m.left != NoPages && c.m.left.mod == Wished(w))
    requires !c.m.free
    ensures Synced(Does(c, h, Ask(w)), h)
  {
    hide RxOk, RecvWait, TakesOk, Plain, PlainStream, Patient, PagesLeft, WrongLeft, All, StreamFor;
    LeftNone(c, h, Wished(w));
    AsksNew(c.rx, w);
    WaitKeeps(c.rx, w.dataType, w.param, w.hdlcOnly);
    StreamForPlain(w);
    PatientSame(c.m, Asked(c.m, Wished(w), h), h);
  }

  /** The stream that was kept is what is taken. */
  lemma KeptTaken(w: Wish, saved: Stream, h: seq<Heard>, reading: seq<Byte>)
    requires Plain(w) && h != [] && h[|h| - 1].mod == Wished(w) && HoldsPages(saved, h[|h| - 1].pages) && h[|h| - 1].pages != []
    ensures var st := MoveInto(StreamFor(w), saved);
      PlainStream(st, Wished(w)) && PagesLeft(st, StmInReadyData, reading, Take(|h| - 1, []), h)
  {
    hide PagesOf, LastOpen, Plain, Wished;
    StreamForPlain(w);
    var st := MoveInto(StreamFor(w), saved);
    assert All(st) == All(saved);
    assert h[|h| - 1].pages[0..] == h[|h| - 1].pages;
    hide StreamFor;
  }

  lemma AskKeptSynced(c: Call, h: seq<Heard>, w: Wish)
    requires Synced(c, h) && Plain(w) && c.rx.stateModem == StmIdle && !(c.m.left != NoPages && c.m.left.mod == Wished(w))
    requires c.m.free && h[|h| - 1].mod == Wished(w) && h[|h| - 1].pages != []
    ensures Synced(Does(c, h, Ask(w)), h)
  {
    hide RxOk, RecvWait, TakesOk, Plain, PlainStream, Patient, PagesLeft, All, StreamFor, HoldsPages, Differs, MoveInto;
    LeftNone(c, h, Wished(w));
    AsksNew(c.rx, w);
    WaitKeeps(c.rx, w.dataType, w.param, w.hdlcOnly);
    KeptTaken(w, c.rx.streams.saved.value, h, c.m.reading);
    TakesMore(c.m.takes, h, |h| - 1);
    PatientMore(c.m, Asked(c.m, Wished(w), h), h, |h| - 1);
  }

  lemma AskOtherSynced(c: Call, h: seq<Heard>, w: Wish)
    requires Synced(c, h) && Plain(w) && c.rx.stateModem == StmIdle && !(c.m.left != NoPages && c.m.left.mod == Wished(w))
    requires c.m.free && h != [] && h[|h| - 1].mod != Wished(w)
    ensures Synced(Does(c, h, Ask(w)), h)
  {
    hide RxOk, RecvWait, TakesOk, Plain, PlainStream, Patient, WrongLeft, All, StreamFor, HoldsPages, Differs, MoveInto;
    LeftNone(c, h, Wished(w));
    AsksNew(c.rx, w);
    WaitKeeps(c.rx, w.dataType, w.param, w.hdlcOnly);
    StreamForPlain(w);
    DiffersIs(StreamFor(w), c.rx.streams.next, Wished(w), c.m.reading);
    PatientSame(c.m, Asked(c.m, Wished(w), h), h);
  }

  lemma AskSynced(c: Call, h: seq<Heard>, g: Gram, w: Wish)
    requires Synced(c, h) && LineOk(h, g)
    ensures Synced(Does(c, h, Ask(w)), h)
  {
    if c.rx.stateModem == StmIdle && Plain(w) {
      assert c.m.free ==> h != [] && h[|h| - 1].pages != [];
      hide Synced, Does, LineOk, Plain;
      if c.m.left != NoPages && c.m.left.mod == Wished(w) { AskOnSynced(c, h, w); }
      else if !c.m.free { AskWaitSynced(c, h, w); }
      else if h[|h| - 1].mod == Wished(w) { AskKeptSynced(c, h, w); }
      else { AskOtherSynced(c, h, w); }
    }
    hide Synced, LineOk, Plain;
  }

  lemma AskSilenceSynced(c: Call, h: seq<Heard>)
    requires Synced(c, h)
    ensures Synced(Does(c, h, AskSilence), h)
  {
    hide RxOk, TakesOk, Patient, HoldsPages, PagesLeft, WrongLeft, PlainStream, TakeStream;
    WaitKeeps(c.rx, DtSilence, 0, false);
    PatientSame(c.m, Dropped(c.m), h);
  }

  // ------------------------------------------------------------- reading

  lemma StartResult(r: Rx)
    requires r.stateModem == StmInReadyData && r.streams.inn.Some? && r.streams.inn.value.first == None && r.streams.inn.value.queue != []
    ensures RecvStart(r) == r.(streams := r.streams.(inn := Some(PopBuf(r.streams.inn.value))), stateModem := StmInRecvData)
    ensures var st := r.streams.inn.value; All(PopBuf(st)) == All(st) && PopBuf(st).last == st.last && PopBuf(st).first.Some?
    ensures var st := r.streams.inn.value; PopBuf(st).row == st.row && PopBuf(st).want == st.want
  {
  }

  lemma AheadNothing(ps: seq<Page>)
    ensures Ahead([], ps) == ps
  {
    if ps != [] {
      assert [] + ps[0].bytes == ps[0].bytes;
      assert [ps[0]] + ps[1..] == ps;
    }
  }

  lemma LeftStarted(st: Stream, st1: Stream, m: Modem, h: seq<Heard>)
    requires LeftOk(Some(st), StmInReadyData, m, h)
    requires All(st1) == All(st) && st1.last == st.last && st1.first.Some? && st1.row == st.row && st1.want == st.want
    ensures LeftOk(Some(st1), StmInRecvData, m.(reading := []), h)
  {
    AheadNothing(PagesOf(All(st)));
    hide PagesOf, Ahead, LastOpen, All;
  }

  lemma StartSynced(c: Call, h: seq<Heard>)
    requires Synced(c, h)
    ensures Synced(Does(c, h, Start), h)
  {
    if c.rx.stateModem == StmInReadyData {
      hide RxOk, RecvStart, PopBuf, TakesOk, HoldsPages, LeftOk;
      ReadyLeft(c, h);
      LeftSome(c, h);
      StartKeeps(c.rx);
      StartResult(c.rx);
      LeftStarted(c.rx.streams.inn.value, PopBuf(c.rx.streams.inn.value), c.m, h);
      PatientSame(c.m, c.m.(reading := []), h);
      hide Patient;
    }
    hide Synced, RecvStart;
  }

  lemma ReadyLeft(c: Call, h: seq<Heard>)
    requires LeftOk(c.rx.streams.inn, c.rx.stateModem, c.m, h)
    requires c.rx.stateModem == StmInReadyData || c.rx.stateModem == StmInRecvData
    ensures c.m.left != NoPages && c.rx.streams.inn.Some? && PlainStream(c.rx.streams.inn.value, c.m.left.mod)
    ensures c.rx.stateModem == StmInRecvData ==> c.rx.streams.inn.value.first.Some?
  {
    hide PlainStream, All, Unread, LastOpen;
  }

  /** A stream with `n` bytes of its first buffer gone. */
  function Less(st: Stream, n: nat): Stream
    requires st.first.Some? && n <= |st.first.value.bytes|
  {
    st.(first := Some(st.first.value.(bytes := st.first.value.bytes[n..])))
  }

  lemma GetResult(r: Rx, count: nat, mod: Modulation)
    requires r.stateModem == StmInRecvData && r.streams.inn.Some? && r.streams.inn.value.first.Some?
    requires PlainStream(r.streams.inn.value, mod)
    ensures var st, a := r.streams.inn.value, RecvAnswer(r, count, []);
      && a == Read(st.first.value, count) && |a.bytes| <= |st.first.value.bytes| && a.bytes == st.first.value.bytes[..|a.bytes|]
      && Recv(r, count, []) == r.(streams := r.streams.(inn := Some(Less(st, |a.bytes|))))
      && (a.count == -1 <==> st.first.value.bytes == [] && st.first.value.eof)
      && (a.count == -1 ==> Recv(r, count, []) == r)
  {
    var bytes := r.streams.inn.value.first.value.bytes;
    assert bytes == [] ==> bytes[..0] == [] && bytes[0..] == bytes;
  }

  lemma LessAhead(st: Stream, n: nat, reading: seq<Byte>)
    requires st.first.Some? && n <= |st.first.value.bytes|
    ensures Ahead(reading + st.first.value.bytes[..n], PagesOf(All(Less(st, n)))) == Ahead(reading, PagesOf(All(st)))
  {
    var b := st.first.value;
    AheadOne(b, st.queue, reading);
    AheadOne(b.(bytes := b.bytes[n..]), st.queue, reading + b.bytes[..n]);
    hide PagesOf, Ahead;
    assert reading + b.bytes[..n] + b.bytes[n..] == reading + b.bytes by { assert b.bytes[..n] + b.bytes[n..] == b.bytes; }
  }

  lemma AheadOne(b: Buf, queue: seq<Buf>, reading: seq<Byte>)
    ensures Ahead(reading, PagesOf([b] + queue)) == [Page(reading + b.bytes, b.eof, b.diag)] + PagesOf(queue)
  {
    assert ([b] + queue)[1..] == queue;
  }

  /** The page that says the signal is another one is at its end at once. */
  lemma WrongIs(st: Stream, reading: seq<Byte>)
    requires WrongLeft(st, StmInRecvData, reading)
    ensures st.first.Some? && st.queue == [] && reading == []
    ensures var b := st.first.value; b.bytes == [] && b.eof && b.diag == {DiffSig}
  {
    assert |PagesOf(All(st))| == |All(st)|;
    assert PagesOf(All(st))[0] == PageOf(All(st)[0]);
    hide PagesOf;
  }

  lemma LeftLess(st: Stream, m: Modem, h: seq<Heard>, n: nat)
    requires LeftOk(Some(st), StmInRecvData, m, h) && m.left.Pages? && st.first.Some? && n <= |st.first.value.bytes|
    ensures LeftOk(Some(Less(st, n)), StmInRecvData, m.(reading := m.reading + st.first.value.bytes[..n]), h)
  {
    hide PagesOf, Ahead, LastOpen, All, PlainStream;
    LessAhead(st, n, m.reading);
    LessPlain(st, n, m.left.mod);
  }

  lemma LessPlain(st: Stream, n: nat, mod: Modulation)
    requires PlainStream(st, mod) && st.first.Some? && n <= |st.first.value.bytes|
    ensures PlainStream(Less(st, n), mod) && Less(st, n).row == st.row && Less(st, n).last == st.last
  {
  }

  lemma GetMoreSynced(c: Call, h: seq<Heard>, count: nat)
    requires Synced(c, h) && c.rx.stateModem == StmInRecvData && RecvAnswer(c.rx, count, []).count != -1
    ensures Synced(Does(c, h, Get(count)), h)
  {
    hide RxOk, Recv, RecvAnswer, Read, TakesOk, HoldsPages, LeftOk, PlainStream, Less;
    ReadyLeft(c, h);
    var st := c.rx.streams.inn.value;
    RecvKeeps(c.rx, count, []);
    GetResult(c.rx, count, c.m.left.mod);
    LeftIsWrong(c, h);
    var a := RecvAnswer(c.rx, count, []);
    LeftLess(st, c.m, h, |a.bytes|);
    PatientSame(c.m, c.m.(reading := c.m.reading + a.bytes), h);
    hide Patient;
  }

  lemma LeftIsWrong(c: Call, h: seq<Heard>)
    requires LeftOk(c.rx.streams.inn, c.rx.stateModem, c.m, h) && c.rx.stateModem == StmInRecvData
    ensures c.m.left.Wrong? ==> c.rx.streams.inn.Some? && c.rx.streams.inn.value.first.Some? && c.rx.streams.inn.value.queue == []
    ensures c.m.left.Wrong? ==>
      var b := c.rx.streams.inn.value.first.value; b.bytes == [] && b.eof && b.diag == {DiffSig}
  {
    if c.m.left.Wrong? { WrongIs(c.rx.streams.inn.value, c.m.reading); }
    hide WrongLeft, PagesLeft, NothingLeft, PlainStream;
  }

  /** The take that is being read. */
  function Newest(m: Modem): Take
    requires m.takes != []
  {
    m.takes[|m.takes| - 1]
  }

  /** The page being read, and those behind it. */
  lemma FirstPage(st: Stream, m: Modem, h: seq<Heard>)
    requires LeftOk(Some(st), StmInRecvData, m, h) && m.left.Pages?
    ensures st.first.Some? && m.takes != [] && Newest(m).burst < |h|
    ensures var k, ps, b := |Newest(m).pages|, h[Newest(m).burst].pages, st.first.value;
      && |ps| == k + 1 + |st.queue| && ps[k] == Page(m.reading + b.bytes, b.eof, b.diag) && ps[k + 1..] == PagesOf(st.queue)
  {
    var k, ps := |Newest(m).pages|, h[Newest(m).burst].pages;
    assert PagesOf(All(st))[0] == PageOf(st.first.value) && PagesOf(All(st))[1..] == PagesOf(st.queue);
    assert ps[k..] == Ahead(m.reading, PagesOf(All(st)));
    assert ps[k..][1..] == ps[k + 1..];
    hide PagesOf, LastOpen;
  }

  lemma FirstDeleted(st: Stream, next: nat)
    requires StreamOk(st, next) && st.first.Some?
    ensures var st1 := DeleteFirst(st);
      st1.first == None && All(st1) == st.queue && st1.last == (if st.queue == [] then None else st.last)
      && st1.row == st.row && st1.want == st.want
  {
    assert All(st)[0] == st.first.value;
    if st.queue != [] { assert All(st)[|All(st)| - 1] == st.queue[|st.queue| - 1]; }
  }

  /** The page being read goes; the rest of the burst is left, if there is any. */
  lemma LeftDropped(st: Stream, m: Modem, m1: Modem, h: seq<Heard>, page: Page, next: nat)
    requires LeftOk(Some(st), StmInRecvData, m, h) && m.left.Pages? && StreamOk(st, next)
    requires m1.takes == WithPage(m.takes, page) && m1.left == if st.queue == [] then NoPages else m.left
    ensures LeftOk(Some(DeleteFirst(st)), StmIdle, m1, h)
  {
    hide PagesOf, LastOpen, StreamOk, Ahead, All, DeleteFirst;
    FirstPage(st, m, h);
    FirstDeleted(st, next);
  }

  lemma TakesRead(takes: seq<Take>, h: seq<Heard>, page: Page)
    requires TakesOk(takes, h) && takes != []
    requires var t := takes[|takes| - 1]; |t.pages| < |h[t.burst].pages| && PageAgrees(page, h[t.burst].pages[|t.pages|])
    ensures TakesOk(WithPage(takes, page), h)
  {
    hide PageAgrees;
    var takes1, t := WithPage(takes, page), takes[|takes| - 1];
    assert Agrees(t.pages, h[t.burst].pages);
    assert Agrees(t.pages + [page], h[t.burst].pages);
    forall i | 0 <= i < |takes1| ensures takes1[i].burst < |h| && Agrees(takes1[i].pages, h[takes1[i].burst].pages) {
      if i < |takes| - 1 { assert takes1[i] == takes[i]; }
    }
  }

  lemma AgreesAll(ps: seq<Page>, whole: seq<Page>)
    requires Agrees(ps, whole) && AllClosed(ps) && |ps| == |whole|
    ensures ps == whole
  {
    forall k | 0 <= k < |ps| ensures ps[k] == whole[k] { assert PageAgrees(ps[k], whole[k]); }
  }

  /** A page that was read to its end; at the last one the burst is complete. */
  lemma PatientRead(m: Modem, m1: Modem, h: seq<Heard>, page: Page)
    requires Patient(m, h) && m.takes != [] && m.left.Pages? && page.eof
    requires m1.takes == WithPage(m.takes, page) && m1.gaveUp == m.gaveUp && TakesOk(m1.takes, h)
    requires !m1.left.Pages? ==> |Newest(m1).pages| == |h[Newest(m1).burst].pages| && !LastOpen(h[Newest(m1).burst].pages)
    ensures Patient(m1, h)
  {
    if !m1.gaveUp {
      forall i | 0 <= i < |m1.takes| ensures AllClosed(m1.takes[i].pages) {
        assert AllClosed(m.takes[i].pages);
      }
      if !m1.left.Pages? { AgreesAll(Newest(m1).pages, h[Newest(m1).burst].pages); }
      hide AllClosed, Agrees, LastOpen;
      forall i | 0 <= i < |m1.takes| && (i < |m1.takes| - 1 || !m1.left.Pages?) ensures Complete(m1.takes[i], h) {
        if i < |m1.takes| - 1 { assert Complete(m.takes[i], h); }
      }
    }
  }

  lemma StopResult(r: Rx)
    requires r.stateModem == StmInRecvData && r.streams.inn.Some?
    ensures RecvStop(r) == r.(streams := r.streams.(inn := Some(DeleteFirst(r.streams.inn.value))), stateModem := StmIdle)
    ensures RxReset(r) == RecvStop(r)
    ensures r.streams.inn.value.first.Some? ==> DiagOf(r) == r.streams.inn.value.first.value.diag
  {
  }

  /** The page is the next one of the burst, and it says no-carrier exactly when it is closed and the last. */
  lemma PageFits(c: Call, h: seq<Heard>, g: Gram)
    requires Synced(c, h) && LineOk(h, g) && c.rx.stateModem == StmInRecvData && c.m.left.Pages?
    ensures c.rx.streams.inn.Some? && c.rx.streams.inn.value.first.Some? && c.m.takes != [] && Newest(c.m).burst < |h|
    ensures var st, k, ps := c.rx.streams.inn.value, |Newest(c.m).pages|, h[Newest(c.m).burst].pages;
      var b := st.first.value;
      && k < |ps| && ps[k] == Page(c.m.reading + b.bytes, b.eof, b.diag) && DiffSig !in b.diag
      && (st.queue == [] <==> k + 1 == |ps|)
      && (b.eof ==> (NoCarrier in b.diag <==> st.queue == []) && (st.queue == [] ==> !LastOpen(ps)))
  {
    ReadyLeft(c, h);
    FirstPage(c.rx.streams.inn.value, c.m, h);
    hide RxOk, SavedOk, LeftOk, AwaitOk, TakesOk, Patient, PagesOf;
    var ps := h[Newest(c.m).burst].pages;
    assert PagesOk(ps) && NeverWrong(ps);
  }

  lemma GetDoneSynced(c: Call, h: seq<Heard>, g: Gram, count: nat)
    requires Synced(c, h) && LineOk(h, g) && c.rx.stateModem == StmInRecvData && RecvAnswer(c.rx, count, []).count == -1
    requires c.m.left.Pages?
    ensures Synced(Does(c, h, Get(count)), h)
  {
    hide RxOk, Recv, RecvAnswer, Read, TakesOk, Patient, HoldsPages, LeftOk, PlainStream, Less, DeleteFirst, LineOk, RecvStop, StreamOk, DiagOf, LastOpen, WithPage;
    ReadyLeft(c, h);
    PageFits(c, h, g);
    var st := c.rx.streams.inn.value;
    GetResult(c.rx, count, c.m.left.mod);
    StopResult(c.rx);
    RxDoOk(c.rx, AskStop);
    RxDoIs(c.rx);
    var diag := st.first.value.diag;
    var page := Page(c.m.reading, true, diag);
    assert c.m.reading + [] == c.m.reading;
    InnOk(c.rx);
    var m1 := PageRead(c.m, diag);
    LeftDropped(st, c.m, m1, h, page, c.rx.streams.next);
    TakesRead(c.m.takes, h, page);
    WithPageIs(c.m.takes, page);
    PatientRead(c.m, m1, h, page);
  }

  lemma WithPageIs(takes: seq<Take>, p: Page)
    requires takes != []
    ensures var r, n := WithPage(takes, p), |takes| - 1;
      |r| == |takes| && r[..n] == takes[..n] && r[n] == Take(takes[n].burst, takes[n].pages + [p])
  {
  }

  lemma RxDoIs(r: Rx)
    ensures RxDo(r, AskStop) == RecvStop(r) && RxDo(r, AskReset) == RxReset(r)
  {
  }

  lemma InnOk(r: Rx)
    requires RxOk(r) && r.streams.inn.Some?
    ensures StreamOk(r.streams.inn.value, r.streams.next)
  {
  }

  lemma GetWrongSynced(c: Call, h: seq<Heard>, count: nat)
    requires Synced(c, h) && c.rx.stateModem == StmInRecvData && RecvAnswer(c.rx, count, []).count == -1
    requires c.m.left.Wrong?
    ensures Synced(Does(c, h, Get(count)), h)
  {
    hide RxOk, Recv, RecvAnswer, Read, TakesOk, Patient, HoldsPages, LeftOk, PlainStream, Less, DeleteFirst, RecvStop, DiagOf, WithPage;
    ReadyLeft(c, h);
    LeftIsWrong(c, h);
    GetResult(c.rx, count, c.m.left.mod);
    StopResult(c.rx);
    RxDoOk(c.rx, AskStop);
    RxDoIs(c.rx);
    var st := c.rx.streams.inn.value;
    InnOk(c.rx);
    FirstDeleted(st, c.rx.streams.next);
    var m1 := PageRead(c.m, st.first.value.diag);
    NothingIs(DeleteFirst(st), m1, h);
    PatientSame(c.m, m1, h);
  }

  lemma NothingIs(st: Stream, m: Modem, h: seq<Heard>)
    requires All(st) == [] && st.last == None && m.left == NoPages
    ensures LeftOk(Some(st), StmIdle, m, h)
  {
  }

  /** The modem stops in the middle of a page, or is reset. */
  lemma PageLeftSynced(c: Call, h: seq<Heard>, g: Gram)
    requires Synced(c, h) && LineOk(h, g) && c.rx.stateModem == StmInRecvData && c.m.left.Pages?
    ensures Synced(c.(rx := RecvStop(c.rx), m := PageLeft(c.m, DiagOf(c.rx), h)), h)
  {
    hide RxOk, TakesOk, Patient, HoldsPages, LeftOk, PlainStream, DeleteFirst, LineOk, RecvStop, StreamOk, DiagOf, LastOpen, WithPage;
    ReadyLeft(c, h);
    PageFits(c, h, g);
    var st := c.rx.streams.inn.value;
    StopResult(c.rx);
    RxDoOk(c.rx, AskStop);
    RxDoIs(c.rx);
    var page := Page(c.m.reading, false, {});
    InnOk(c.rx);
    var m1 := PageLeft(c.m, DiagOf(c.rx), h);
    LeftDropped(st, c.m, m1, h, page, c.rx.streams.next);
    TakesRead(c.m.takes, h, page);
    WithPageIs(c.m.takes, page);
    GaveUpIs(m1, h);
  }

  lemma GaveUpIs(m: Modem, h: seq<Heard>)
    requires m.gaveUp
    ensures Patient(m, h)
  {
  }

  lemma WrongStopSynced(c: Call, h: seq<Heard>)
    requires Synced(c, h) && c.rx.stateModem == StmInRecvData && c.m.left.Wrong?
    ensures Synced(c.(rx := RecvStop(c.rx), m := PageLeft(c.m, DiagOf(c.rx), h)), h)
  {
    hide RxOk, TakesOk, Patient, HoldsPages, LeftOk, PlainStream, DeleteFirst, RecvStop, DiagOf, WithPage, AtNewest;
    ReadyLeft(c, h);
    LeftIsWrong(c, h);
    StopResult(c.rx);
    RxDoOk(c.rx, AskStop);
    RxDoIs(c.rx);
    var st := c.rx.streams.inn.value;
    InnOk(c.rx);
    FirstDeleted(st, c.rx.streams.next);
    var m1 := PageLeft(c.m, DiagOf(c.rx), h);
    NothingIs(DeleteFirst(st), m1, h);
    PatientSame(c.m, m1, h);
  }

  // ------------------------------------------------------------- the other calls

  lemma NotReading(r: Rx)
    requires RxOk(r) && r.stateModem != StmInRecvData
    ensures DropFirst(r.streams) == r.streams
  {
    hide StreamOk;
  }

  lemma LeftIdle(inn: Option<Stream>, s: StateModem, m: Modem, h: seq<Heard>)
    requires LeftOk(inn, s, m, h) && s != StmInRecvData
    ensures LeftOk(inn, StmIdle, m, h)
  {
    hide PagesOf, LastOpen, All, PlainStream;
  }

  /** The modem leaves what it reads. */
  lemma ReadingLeftSynced(c: Call, h: seq<Heard>, g: Gram)
    requires Synced(c, h) && LineOk(h, g) && c.rx.stateModem == StmInRecvData
    ensures Synced(c.(rx := RecvStop(c.rx), m := PageLeft(c.m, DiagOf(c.rx), h)), h) && RxReset(c.rx) == RecvStop(c.rx)
  {
    hide Synced, RecvStop, RxReset, LineOk, PageLeft, DiagOf;
    SyncedLeft(c, h);
    StopResult(c.rx);
    if c.m.left.Pages? { PageLeftSynced(c, h, g); } else { WrongStopSynced(c, h); }
  }

  lemma SyncedLeft(c: Call, h: seq<Heard>)
    requires Synced(c, h) && c.rx.stateModem == StmInRecvData
    ensures c.m.left != NoPages && c.rx.streams.inn.Some?
  {
    hide RxOk, SavedOk, LeftOk, AwaitOk, TakesOk, Patient;
    ReadyLeft(c, h);
  }

  lemma NotReadingSynced(c: Call, h: seq<Heard>)
    requires Synced(c, h) && c.rx.stateModem != StmInRecvData
    ensures Synced(c.(rx := RecvStop(c.rx)), h) && Synced(c.(rx := RxReset(c.rx)), h)
  {
    hide RxOk, SavedOk, TakesOk, Patient, HoldsPages, LeftOk, PlainStream, DropFirst;
    NotReading(c.rx);
    RxDoOk(c.rx, AskStop);
    RxDoOk(c.rx, AskReset);
    RxDoIs(c.rx);
    LeftIdle(c.rx.streams.inn, c.rx.stateModem, c.m, h);
  }

  lemma StopSynced(c: Call, h: seq<Heard>, g: Gram)
    requires Synced(c, h) && LineOk(h, g)
    ensures Synced(Does(c, h, Stop), h)
  {
    hide Synced, RecvStop, LineOk, PageLeft, DiagOf;
    if c.rx.stateModem == StmInRecvData { ReadingLeftSynced(c, h, g); } else { NotReadingSynced(c, h); }
  }

  lemma ResetSynced(c: Call, h: seq<Heard>, g: Gram)
    requires Synced(c, h) && LineOk(h, g)
    ensures Synced(Does(c, h, Reset), h)
  {
    hide Synced, RecvStop, RxReset, LineOk, PageLeft, DiagOf;
    if c.rx.stateModem == StmInRecvData { ReadingLeftSynced(c, h, g); } else { NotReadingSynced(c, h); }
  }

  lemma TurnSynced(c: Call, h: seq<Heard>, dataType: DataType, accepted: bool)
    requires Synced(c, h)
    ensures Synced(Does(c, h, Turn(dataType, accepted)), h)
  {
    hide TakesOk, Patient, HoldsPages, PagesLeft, WrongLeft, PlainStream, StreamOk;
    PatientSame(c.m, Dropped(c.m).(free := c.m.free && dataType == DtSilence), h);
  }

  lemma SendEndsSynced(c: Call, h: seq<Heard>)
    requires Synced(c, h)
    ensures Synced(Does(c, h, Move.SendEnds), h)
  {
    if IsOut(c.rx.stateModem) { LeftIdle(c.rx.streams.inn, c.rx.stateModem, c.m, h); }
    hide TakesOk, Patient, HoldsPages, LeftOk, PlainStream, StreamsOk, All;
  }

  lemma GoOnSynced(c: Call, h: seq<Heard>)
    requires Synced(c, h)
    ensures Synced(Does(c, h, Move.GoOn), h)
  {
    hide RxOk, TakesOk, Patient, HoldsPages, LeftOk, PlainStream;
    ResumeOk(c.rx);
  }

  lemma GetSynced(c: Call, h: seq<Heard>, g: Gram, count: nat)
    requires Synced(c, h) && LineOk(h, g)
    ensures Synced(Does(c, h, Get(count)), h)
  {
    if c.rx.stateModem == StmInRecvData {
      ReadyLeft(c, h);
      hide Synced, Does, LineOk, RecvAnswer;
      if RecvAnswer(c.rx, count, []).count != -1 { GetMoreSynced(c, h, count); }
      else if c.m.left.Pages? { GetDoneSynced(c, h, g, count); }
      else { GetWrongSynced(c, h, count); }
    }
    hide Synced, DoGet, LineOk;
  }

  lemma DoesSynced(c: Call, h: seq<Heard>, g: Gram, move: Move)
    requires Synced(c, h) && LineOk(h, g) && move != NextPacket
    ensures Synced(Does(c, h, move), h) && Does(c, h, move).n == c.n
  {
    SameN(c, h, move);
    hide Synced, LineOk, Does;
    match move
    case GoOn => GoOnSynced(c, h);
    case Ask(w) => AskSynced(c, h, g, w);
    case AskSilence => AskSilenceSynced(c, h);
    case Start => StartSynced(c, h);
    case Get(count) => GetSynced(c, h, g, count);
    case Stop => StopSynced(c, h, g);
    case Reset => ResetSynced(c, h, g);
    case Turn(dataType, accepted) => TurnSynced(c, h, dataType, accepted);
    case SendEnds => SendEndsSynced(c, h);
  }

  lemma SameN(c: Call, h: seq<Heard>, move: Move)
    requires move != NextPacket
    ensures Does(c, h, move).n == c.n
  {
    hide RecvWait, Resume, RecvStart, RecvStop, RxReset, TurnToSend, Recv, RecvAnswer, Plain, Asked, PageLeft, PageRead, Dropped;
  }

  lemma HeardStep(line: seq<Arrival>, n: nat)
    requires n < |line|
    ensures HeardOf(line[..n + 1]) == HeardThen(HeardOf(line[..n]), line[n])
    ensures LineGram(line[..n + 1]) == GramThen(LineGram(line[..n]), line[n])
  {
    hide HeardThen, GramThen;
    assert line[..n + 1][..n] == line[..n];
  }

  lemma MeetsN(c: Call, a: Arrival, h: seq<Heard>)
    ensures Meets(c, a, h).n == c.n + 1
  {
  }

  lemma GoSynced(line: seq<Arrival>, c: Call, move: Move)
    requires LineGram(line) != Gram.Broken && c.n <= |line| && Synced(c, HeardOf(line[..c.n]))
    ensures var c1 := Go(line, c, move); c1.n <= |line| && Synced(c1, HeardOf(line[..c1.n]))
  {
    hide Synced, LineOk, HeardOf, LineGram, HeardThen, GramThen, Meets, Does;
    var h := HeardOf(line[..c.n]);
    LineUnbroken(line, c.n);
    AlwaysLineOk(line[..c.n]);
    if move != NextPacket {
      DoesSynced(c, h, LineGram(line[..c.n]), move);
    } else if c.n < |line| && c.rx.pc == Rest {
      HeardStep(line, c.n);
      LineUnbroken(line, c.n + 1);
      MeetsSynced(c, h, LineGram(line[..c.n]), line[c.n]);
      MeetsN(c, line[c.n], h);
    }
  }

  lemma StartsSynced()
    ensures Synced(CALL_START, [])
  {
  }

  /** All of it holds at every moment of every call. */
  lemma {:induction false} AlwaysSynced(line: seq<Arrival>, moves: seq<Move>)
    requires LineGram(line) != Gram.Broken
    ensures var c := Play(line, moves); Synced(c, HeardOf(line[..c.n]))
  {
    hide Synced, Go, LineGram;
    if moves == [] {
      StartsSynced();
      assert line[..0] == [];
    } else {
      AlwaysSynced(line, moves[..|moves| - 1]);
      hide HeardOf;
      GoSynced(line, Play(line, moves[..|moves| - 1]), moves[|moves| - 1]);
    }
  }
}
