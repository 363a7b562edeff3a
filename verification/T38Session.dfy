/**
 A whole call seen from the receiving side: all the packets of another engine come in, one by one, while the
 modem, at any time, asks for a signal, reads, stops, is reset, or sends. What it reads are pages of the bursts
 on the line, in order, exact and unmerged: of each burst that it asks for by the no-signal after it.
*/
module T38Session {
  import opened BitSeq
  import opened EngineTypes
  import opened T38Types
  import opened T38Grammar
  import opened T38Send
  import opened T38Recv
  import opened T38RecvSafety
  import opened T38Pages

  // ------------------------------------------------------------- the line

  /** A data field as it arrives. */
  function Arrives(f: Field): RxField {
    match f
    case HdlcData(data) => RxField(FHdlcData, data)
    case HdlcFcsOk => RxField(FFcsOk, [])
    case HdlcFcsBad => RxField(FFcsBad, [])
    case HdlcSigEnd => RxField(FHdlcSigEnd, [])
    case NonEcmData(data) => RxField(FNonEcmData, data)
    case NonEcmSigEnd => RxField(FNonEcmSigEnd, [])
  }

  function Received(p: Packet): RxPacket {
    match p
    case Ind(ind) => RxInd(ind)
    case Data(mod, field) => RxData(mod, [Arrives(field)])
  }

  /** A burst as it is heard on the line: its modulation, and the pages its packets make. */
  datatype Heard = Heard(mod: Modulation, pages: seq<Page>)

  function HeardNext(h: seq<Heard>, p: Packet): (r: seq<Heard>)
    ensures |h| <= |r| <= |h| + 1
  {
    match p
    case Ind(Training(mod, _)) => h + [Heard(mod, [BLANK])]
    case Ind(_) => h
    case Data(_, f) => if h == [] then h else h[|h| - 1 := h[|h| - 1].(pages := Filled(h[|h| - 1].pages, Arrives(f)))]
  }

  /** What comes from the line: a packet, or the news that packets were lost. */
  datatype Arrival = Came(packet: Packet) | Gone

  /** A loss spoils the open page of a V.21 burst, and nothing else. */
  function Spoilt(h: seq<Heard>): (r: seq<Heard>)
    ensures |r| == |h|
  {
    if h != [] && LastOpen(h[|h| - 1].pages) && h[|h| - 1].mod == V21 then
      h[|h| - 1 := h[|h| - 1].(pages := LastChanged(h[|h| - 1].pages, Mark({BadFcs})))]
    else h
  }

  function HeardThen(h: seq<Heard>, a: Arrival): (r: seq<Heard>)
    ensures |h| <= |r| <= |h| + 1
  {
    match a
    case Came(p) => HeardNext(h, p)
    case Gone => Spoilt(h)
  }

  /** All the bursts, as far as `line` goes. */
  function HeardOf(line: seq<Arrival>): seq<Heard> {
    if line == [] then [] else HeardThen(HeardOf(line[..|line| - 1]), line[|line| - 1])
  }

  function GramThen(g: Gram, a: Arrival): Gram { if a.Came? then NextGram(g, a.packet) else g }

  /** Whether what has come of the line is well-formed. */
  function LineGram(line: seq<Arrival>): Gram {
    if line == [] then Ended else GramThen(LineGram(line[..|line| - 1]), line[|line| - 1])
  }

  /** A line on which nothing is lost. */
  function AllCame(packets: seq<Packet>): (line: seq<Arrival>)
    ensures |line| == |packets| && forall i :: 0 <= i < |line| ==> line[i] == Came(packets[i])
  {
    seq(|packets|, i requires 0 <= i < |packets| => Came(packets[i]))
  }

  // ------------------------------------------------------------- the modem

  /** What the modem asks for. */
  datatype Wish = Wish(dataType: DataType, param: int, hdlcOnly: bool)

  /** A known modulation, and the data is not to be converted. */
  predicate Plain(w: Wish) {
    && IsData(w.dataType) && GetModRow(w.param).Some?
    && WantOf(w.dataType, GetModRow(w.param).value, w.hdlcOnly).dataTypeT38 == w.dataType
  }

  function Wished(w: Wish): Modulation
    requires Plain(w)
  {
    GetModRow(w.param).value.mod
  }

  /** What is left for the modem to read: nothing, the rest of the burst it took last, or a page that says the signal is another one. */
  datatype Left = NoPages | Pages(mod: Modulation) | Wrong(mod: Modulation)

  /** A burst that the modem asked for, and what it has read of it; a page that it stopped reading is not closed. */
  datatype Take = Take(burst: nat, pages: seq<Page>)

  /**
   What the modem can tell: the signal it asked for last, what is left of it, whether the burst on the line can
   still be asked for, the bursts it took, and the bytes of the page it is reading; and whether it ever gave up
   a burst before its end, by stopping, by asking for something else, or by sending.
  */
  datatype Modem = Modem(want: Option<Modulation>, left: Left, free: bool, takes: seq<Take>, reading: seq<Byte>, gaveUp: bool)

  /** An indicator comes, of the burst numbered `j` if it is a training; a modem that waits for its signal takes it. */
  function Signalled(m: Modem, waits: bool, ind: Indicator, j: nat): Modem {
    if !ind.Training? then m.(free := false)
    else if waits && m.want == Some(ind.mod) then m.(left := Pages(ind.mod), free := false, takes := m.takes + [Take(j, [])])
    else if waits && m.want.Some? then m.(left := Wrong(m.want.value), free := true)
    else m.(free := true)
  }

  predicate GivesUp(m: Modem) { m.gaveUp || m.left.Pages? }

  /** The modem asks for a signal. */
  function Asked(m: Modem, mod: Modulation, h: seq<Heard>): Modem {
    var m1 := m.(want := Some(mod));
    if m.left != NoPages && m.left.mod == mod then m1
    else if !m.free || h == [] then m1.(left := NoPages, gaveUp := GivesUp(m))
    else if h[|h| - 1].mod == mod then
      m1.(left := Pages(mod), free := false, takes := m.takes + [Take(|h| - 1, [])], gaveUp := GivesUp(m))
    else m1.(left := Wrong(mod), gaveUp := GivesUp(m))
  }

  /** The modem asks for silence, or turns to sending, and forgets what is left. */
  function Dropped(m: Modem): Modem { m.(left := NoPages, gaveUp := GivesUp(m)) }

  /** One more page of the burst that was taken last. */
  function WithPage(takes: seq<Take>, p: Page): seq<Take> {
    if takes == [] then takes else takes[|takes| - 1 := takes[|takes| - 1].(pages := takes[|takes| - 1].pages + [p])]
  }

  /** The page is read to its end. */
  function PageRead(m: Modem, diag: Diag): Modem {
    if DiffSig in diag then m.(left := NoPages, reading := [])
    else m.(takes := WithPage(m.takes, Page(m.reading, true, diag)), reading := [],
            left := if NoCarrier in diag then NoPages else m.left)
  }

  /** Nothing has come after the page being read. */
  predicate AtNewest(m: Modem, h: seq<Heard>) {
    m.takes != [] && m.takes[|m.takes| - 1].burst < |h|
    && |m.takes[|m.takes| - 1].pages| + 1 >= |h[m.takes[|m.takes| - 1].burst].pages|
  }

  /** The page is left before its end. */
  function PageLeft(m: Modem, diag: Diag, h: seq<Heard>): Modem {
    if DiffSig in diag then m.(left := NoPages, reading := [])
    else m.(takes := WithPage(m.takes, Page(m.reading, false, {})), reading := [], gaveUp := true,
            left := if AtNewest(m, h) then NoPages else m.left)
  }

  // ------------------------------------------------------------- the call

  /** The engine, the number of arrivals it has handled, and the modem. */
  datatype Call = Call(rx: Rx, n: nat, m: Modem)

  const CALL_START := Call(RX_START, 0, Modem(None, NoPages, false, [], [], false))

  datatype Move =
    | NextPacket
    | GoOn                                            // the packet thread, after a callback
    | Ask(wish: Wish)
    | AskSilence
    | Start
    | Get(count: nat)
    | Stop
    | Reset
    | Turn(dataType: DataType, accepted: bool)        // SendStart
    | SendEnds

  function DiagOf(r: Rx): Diag {
    match RecvDiag(r)
    case Some(d) => d
    case None => {OutOfOrder, DiffSig, BadFcs, BadUse, NoCarrier}
  }

  /** The modem reads on, and at -1 asks for the diagnostic and stops receiving. */
  function DoGet(c: Call, count: nat): Call {
    var a := RecvAnswer(c.rx, count, []);
    var rx := Recv(c.rx, count, []);
    if a.count == -1 then c.(rx := RecvStop(rx), m := PageRead(c.m, DiagOf(rx)))
    else c.(rx := rx, m := c.m.(reading := c.m.reading + a.bytes))
  }

  function Hears(c: Call, p: Packet, h: seq<Heard>): Call {
    Call(HandlePacket(c.rx, Received(p)), c.n + 1,
         if p.Ind? then Signalled(c.m, c.rx.stateModem == StmInWaitData, p.ind, |h|) else c.m)
  }

  function Does(c: Call, h: seq<Heard>, move: Move): Call
    requires move != NextPacket
  {
    match move
    case GoOn => c.(rx := Resume(c.rx))
    case Ask(w) =>
      if c.rx.stateModem == StmIdle && Plain(w) then
        c.(rx := RecvWait(c.rx, w.dataType, w.param, w.hdlcOnly), m := Asked(c.m, Wished(w), h))
      else c
    case AskSilence =>
      if c.rx.stateModem == StmIdle then c.(rx := RecvWait(c.rx, DtSilence, 0, false), m := Dropped(c.m)) else c
    case Start => if c.rx.stateModem == StmInReadyData then c.(rx := RecvStart(c.rx), m := c.m.(reading := [])) else c
    case Get(count) => if c.rx.stateModem == StmInRecvData then DoGet(c, count) else c
    case Stop => c.(rx := RecvStop(c.rx), m := if c.rx.stateModem == StmInRecvData then PageLeft(c.m, DiagOf(c.rx), h) else c.m)
    case Reset => c.(rx := RxReset(c.rx), m := if c.rx.stateModem == StmInRecvData then PageLeft(c.m, DiagOf(c.rx), h) else c.m)
    case Turn(dataType, accepted) =>
      if c.rx.stateModem == StmIdle then
        c.(rx := TurnToSend(c.rx, dataType, accepted), m := Dropped(c.m).(free := c.m.free && dataType == DtSilence))
      else c
    case SendEnds => if IsOut(c.rx.stateModem) then c.(rx := c.rx.(stateModem := StmIdle)) else c
    case NextPacket => c
  }

  /** The packet thread takes what comes next. */
  function Meets(c: Call, a: Arrival, h: seq<Heard>): Call {
    if a.Came? then Hears(c, a.packet, h) else c.(rx := PacketLost(c.rx), n := c.n + 1)
  }

  function Go(line: seq<Arrival>, c: Call, move: Move): Call
    requires c.n <= |line|
  {
    var h := HeardOf(line[..c.n]);
    if move == NextPacket then (if c.n < |line| && c.rx.pc == Rest then Meets(c, line[c.n], h) else c)
    else Does(c, h, move)
  }

  function Play(line: seq<Arrival>, moves: seq<Move>): (c: Call)
    ensures c.n <= |line|
  {
    if moves == [] then CALL_START else Go(line, Play(line, moves[..|moves| - 1]), moves[|moves| - 1])
  }

  // ------------------------------------------------------------- the pages of the bursts

  /** Every page but the last is closed; the last one carries no-carrier exactly when it is closed. */
  predicate PagesOk(ps: seq<Page>) {
    && ps != []
    && (forall i :: 0 <= i < |ps| - 1 ==> ps[i].eof && NoCarrier !in ps[i].diag)
    && (ps[|ps| - 1].eof <==> NoCarrier in ps[|ps| - 1].diag)
  }

  lemma FilledOk(ps: seq<Page>, f: RxField)
    requires PagesOk(ps) && LastOpen(ps)
    ensures PagesOk(Filled(ps, f)) && (LastOpen(Filled(ps, f)) <==> !EndsSignal(f.kind))
    ensures |Filled(ps, f)| >= |ps| && Filled(ps, f)[..|ps| - 1] == ps[..|ps| - 1]
  {
  }

  /** Every burst but the last is over; the last is not exactly as long as the grammar is in its body. */
  predicate LineOk(h: seq<Heard>, g: Gram) {
    && g != Gram.Broken
    && (forall k :: 0 <= k < |h| ==> PagesOk(h[k].pages))
    && (forall k :: 0 <= k < |h| - 1 ==> !LastOpen(h[k].pages))
    && (forall k :: 0 <= k < |h| ==> NeverWrong(h[k].pages))
    && (g.Body? ==> h != [] && h[|h| - 1].mod == g.mod)
    && (h != [] ==> (LastOpen(h[|h| - 1].pages) <==> g.Body?))
  }

  /** No page says that the signal is another one. */
  predicate NeverWrong(ps: seq<Page>) { forall k :: 0 <= k < |ps| ==> DiffSig !in ps[k].diag }

  lemma FilledNeverWrong(ps: seq<Page>, f: RxField)
    requires NeverWrong(ps)
    ensures NeverWrong(Filled(ps, f))
  {
    var c1, c2, c3, c4 := Append(f.data), Mark({BadFcs}), Shut({}), Shut({NoCarrier});
    ChangedNeverWrong(ps, c1);
    ChangedNeverWrong(LastChanged(ps, c1), c2);
    var p2 := if BadFrame(f.kind) then LastChanged(LastChanged(ps, c1), c2) else LastChanged(ps, c1);
    ChangedNeverWrong(p2, c3);
    var p3 := if EndsFrame(f.kind) then LastChanged(p2, c3) + [BLANK] else p2;
    ChangedNeverWrong(p3, c4);
    hide LastChanged;
  }

  lemma ChangedNeverWrong(ps: seq<Page>, c: Change)
    requires NeverWrong(ps) && (c.Append? || DiffSig !in c.diag)
    ensures NeverWrong(LastChanged(ps, c))
  {
  }

  /** The last burst has other pages now. */
  lemma LineWithLast(h: seq<Heard>, g: Gram, g1: Gram, ps: seq<Page>)
    requires LineOk(h, g) && g.Body? && PagesOk(ps) && NeverWrong(ps)
    requires g1 != Gram.Broken && (g1.Body? ==> g1.mod == g.mod) && (LastOpen(ps) <==> g1.Body?)
    ensures LineOk(h[|h| - 1 := h[|h| - 1].(pages := ps)], g1)
  {
    hide PagesOk, NeverWrong, LastOpen;
  }

  lemma LineWithNew(h: seq<Heard>, g: Gram, mod: Modulation)
    requires LineOk(h, g) && !g.Body?
    ensures LineOk(h + [Heard(mod, [BLANK])], Body(mod, Any, false))
  {
    assert PagesOk([BLANK]) && NeverWrong([BLANK]) && LastOpen([BLANK]);
    hide PagesOk, NeverWrong, LastOpen;
  }

  lemma LineNext(h: seq<Heard>, g: Gram, p: Packet)
    requires LineOk(h, g) && NextGram(g, p) != Gram.Broken
    ensures LineOk(HeardNext(h, p), NextGram(g, p))
  {
    hide Filled, PagesOk, NeverWrong, LastOpen;
    match p
    case Data(_, f) => LineData(h, g, p);
    case Ind(Training(mod, _)) => LineWithNew(h, g, mod);
    case Ind(_) =>
  }

  lemma LineData(h: seq<Heard>, g: Gram, p: Packet)
    requires LineOk(h, g) && p.Data? && NextGram(g, p) != Gram.Broken
    ensures LineOk(HeardNext(h, p), NextGram(g, p))
  {
    hide Filled, PagesOk, NeverWrong, LastOpen;
    BodyIs(g, p);
    var last, f := h[|h| - 1].pages, Arrives(p.field);
    assert PagesOk(last) && NeverWrong(last) && LastOpen(last);
    FilledOk(last, f);
    FilledNeverWrong(last, f);
    LineWithLast(h, g, NextGram(g, p), Filled(last, f));
    hide NextGram, LineOk;
  }

  /** Data comes in a burst, which goes on unless the field ends the signal. */
  lemma BodyIs(g: Gram, p: Packet)
    requires p.Data? && NextGram(g, p) != Gram.Broken
    ensures g.Body? && g.mod == p.mod && NextField(g, p.field) == NextGram(g, p)
    ensures NextGram(g, p).Body? <==> !EndsBurst(p)
    ensures EndsBurst(p) <==> EndsSignal(Arrives(p.field).kind)
    ensures NextGram(g, p).Body? ==> NextGram(g, p).mod == g.mod
  {
  }

  /** A mark on the open page. */
  lemma MarkedOk(ps: seq<Page>)
    requires PagesOk(ps) && LastOpen(ps) && NeverWrong(ps)
    ensures var qs := LastChanged(ps, Mark({BadFcs})); PagesOk(qs) && LastOpen(qs) && NeverWrong(qs)
  {
  }

  lemma LineSpoilt(h: seq<Heard>, g: Gram)
    requires LineOk(h, g)
    ensures LineOk(Spoilt(h), g)
  {
    hide PagesOk, NeverWrong, LastOpen, LastChanged;
    if Spoilt(h) != h {
      MarkedOk(h[|h| - 1].pages);
      LineWithLast(h, g, g, LastChanged(h[|h| - 1].pages, Mark({BadFcs})));
    }
  }

  /** What is not broken has no broken beginning. */
  lemma {:induction false} LineUnbroken(line: seq<Arrival>, n: nat)
    requires n <= |line| && LineGram(line) != Gram.Broken
    ensures LineGram(line[..n]) != Gram.Broken
    decreases |line|
  {
    if n < |line| {
      var before := line[..|line| - 1];
      assert line[..n] == before[..n];
      LineUnbroken(before, n);
    } else {
      assert line[..n] == line;
    }
  }

  lemma {:induction false} AlwaysLineOk(line: seq<Arrival>)
    requires LineGram(line) != Gram.Broken
    ensures LineOk(HeardOf(line), LineGram(line))
  {
    if line != [] {
      var n := |line| - 1;
      LineUnbroken(line, n);
      AlwaysLineOk(line[..n]);
      hide LineOk, HeardNext, NextGram, Spoilt;
      if line[n].Came? { LineNext(HeardOf(line[..n]), LineGram(line[..n]), line[n].packet); }
      else { LineSpoilt(HeardOf(line[..n]), LineGram(line[..n])); }
    }
  }

  // ------------------------------------------------------------- the invariant

  /** The first page not read yet, with what is read of it put back. */
  function Ahead(reading: seq<Byte>, ps: seq<Page>): seq<Page> {
    if ps == [] then [] else [ps[0].(bytes := reading + ps[0].bytes)] + ps[1..]
  }

  /** The pages that are left, the first of them with what is read of it. */
  function Unread(st: Stream, s: StateModem, reading: seq<Byte>): seq<Page> {
    if s == StmInRecvData then Ahead(reading, PagesOf(All(st))) else PagesOf(All(st))
  }

  /** A page that is read is the burst's; one that is left before its end is a part of it. */
  predicate PageAgrees(p: Page, q: Page) { if p.eof then p == q else p.bytes <= q.bytes }

  /** The pages are, one by one, the first pages of the burst. */
  predicate Agrees(ps: seq<Page>, whole: seq<Page>) {
    |ps| <= |whole| && forall k :: 0 <= k < |ps| ==> PageAgrees(ps[k], whole[k])
  }

  /** Of each burst that was taken, the first pages were read; no burst was taken twice, or after a later one. */
  predicate TakesOk(takes: seq<Take>, h: seq<Heard>) {
    && (forall i :: 0 <= i < |takes| ==> takes[i].burst < |h| && Agrees(takes[i].pages, h[takes[i].burst].pages))
    && (forall i, j :: 0 <= i < j < |takes| ==> takes[i].burst < takes[j].burst)
  }

  predicate AllClosed(ps: seq<Page>) { forall k :: 0 <= k < |ps| ==> ps[k].eof }

  /** The whole burst was read, to no-carrier. */
  predicate Complete(t: Take, h: seq<Heard>) { t.burst < |h| && t.pages == h[t.burst].pages && !LastOpen(t.pages) }

  /** A modem that never gave up has read every burst it took to the end, but for the one it is reading. */
  predicate Patient(m: Modem, h: seq<Heard>) {
    !m.gaveUp ==>
      && (forall i :: 0 <= i < |m.takes| ==> AllClosed(m.takes[i].pages))
      && (forall i :: 0 <= i < |m.takes| ==> (i < |m.takes| - 1 || !m.left.Pages?) ==> Complete(m.takes[i], h))
  }

  /** The burst on the line is kept for a modem that has not asked yet, exactly while it can be asked for. */
  predicate SavedOk(saved: Option<Stream>, free: bool, takes: seq<Take>, h: seq<Heard>) {
    if !free then saved == None
    else
      && saved.Some? && h != [] && saved.value.row.mod == h[|h| - 1].mod && HoldsPages(saved.value, h[|h| - 1].pages)
      && (takes != [] ==> takes[|takes| - 1].burst < |h| - 1)
  }

  predicate CanRead(s: StateModem) { s == StmIdle || s == StmInReadyData || s == StmInRecvData }

  predicate NothingLeft(inn: Option<Stream>, s: StateModem) {
    s != StmInReadyData && s != StmInRecvData && (inn.Some? ==> All(inn.value) == [] && inn.value.last == None)
  }

  predicate PlainStream(st: Stream, mod: Modulation) {
    st.row.mod == mod && IsData(st.want.dataType) && st.want.dataType == st.want.dataTypeT38
  }

  /** What is left of the burst that was taken last is what the stream holds. */
  predicate PagesLeft(st: Stream, s: StateModem, reading: seq<Byte>, t: Take, h: seq<Heard>) {
    && CanRead(s) && (s == StmInRecvData ==> st.first.Some?)
    && t.burst < |h| && |t.pages| < |h[t.burst].pages| && h[t.burst].mod == st.row.mod
    && Unread(st, s, reading) == h[t.burst].pages[|t.pages|..]
    && (st.last.Some? <==> LastOpen(h[t.burst].pages))
  }

  const WRONG_PAGE := Page([], true, {DiffSig})

  predicate WrongLeft(st: Stream, s: StateModem, reading: seq<Byte>) {
    && CanRead(s) && (s == StmInRecvData ==> st.first.Some? && reading == [])
    && PagesOf(All(st)) == [WRONG_PAGE] && st.last == None
  }

  predicate LeftOk(inn: Option<Stream>, s: StateModem, m: Modem, h: seq<Heard>) {
    match m.left
    case NoPages => NothingLeft(inn, s)
    case Pages(mod) =>
      inn.Some? && PlainStream(inn.value, mod) && m.takes != [] && PagesLeft(inn.value, s, m.reading, m.takes[|m.takes| - 1], h)
    case Wrong(mod) => inn.Some? && PlainStream(inn.value, mod) && WrongLeft(inn.value, s, m.reading)
  }

  predicate AwaitOk(inn: Option<Stream>, s: StateModem, want: Option<Modulation>) {
    s == StmInWaitData ==> want.Some? && inn.Some? && PlainStream(inn.value, want.value)
  }

  predicate Synced(c: Call, h: seq<Heard>) {
    && RxOk(c.rx) && (c.rx.pc == Rest || c.rx.pc == Fields([]))
    && SavedOk(c.rx.streams.saved, c.m.free, c.m.takes, h)
    && LeftOk(c.rx.streams.inn, c.rx.stateModem, c.m, h)
    && AwaitOk(c.rx.streams.inn, c.rx.stateModem, c.m.want)
    && TakesOk(c.m.takes, h) && Patient(c.m, h)
  }

  // ------------------------------------------------------------- bursts as they grow

  /** What was closed stays as it was, what was open may go on. */
  predicate Extends(ps: seq<Page>, qs: seq<Page>) {
    && |ps| <= |qs| && (!LastOpen(ps) ==> ps == qs)
    && (forall k :: 0 <= k < |ps| ==> (ps[k].eof ==> qs[k] == ps[k]) && ps[k].bytes <= qs[k].bytes)
  }

  predicate HeardExtends(h: seq<Heard>, h1: seq<Heard>) {
    |h| <= |h1| && forall k :: 0 <= k < |h| ==> h1[k].mod == h[k].mod && Extends(h[k].pages, h1[k].pages)
  }

  lemma ChangedExtends(ps: seq<Page>, qs: seq<Page>, c: Change)
    requires Extends(ps, qs) && LastOpen(ps) && LastOpen(qs)
    ensures Extends(ps, LastChanged(qs, c))
  {
  }

  lemma FilledExtends(ps: seq<Page>, f: RxField)
    ensures Extends(ps, Filled(ps, f))
  {
    hide LastChanged, Extends, LastOpen;
    SameExtends(ps);
    if LastOpen(ps) {
      var p1 := LastChanged(ps, Append(f.data));
      ChangedExtends(ps, ps, Append(f.data)); LastStaysOpen(ps, Append(f.data));
      var p2 := if BadFrame(f.kind) then LastChanged(p1, Mark({BadFcs})) else p1;
      ChangedExtends(ps, p1, Mark({BadFcs})); LastStaysOpen(p1, Mark({BadFcs}));
      ChangedExtends(ps, p2, Shut({}));
      var p3 := if EndsFrame(f.kind) then LastChanged(p2, Shut({})) + [BLANK] else p2;
      PlusExtends(ps, LastChanged(p2, Shut({})));
      ChangedExtends(ps, p3, Shut({NoCarrier}));
    }
  }

  lemma PlusExtends(ps: seq<Page>, qs: seq<Page>)
    requires Extends(ps, qs) && LastOpen(ps)
    ensures Extends(ps, qs + [BLANK]) && LastOpen(qs + [BLANK])
  {
  }

  lemma SameExtends(ps: seq<Page>)
    ensures Extends(ps, ps)
  {
  }

  lemma HeardNextExtends(h: seq<Heard>, p: Packet)
    ensures HeardExtends(h, HeardNext(h, p))
  {
    hide Extends, Filled;
    forall k | 0 <= k < |h| ensures Extends(h[k].pages, HeardNext(h, p)[k].pages) {
      SameExtends(h[k].pages);
      if p.Data? { FilledExtends(h[k].pages, Arrives(p.field)); }
    }
  }

  lemma SpoiltExtends(h: seq<Heard>)
    ensures HeardExtends(h, Spoilt(h))
  {
    hide Extends, LastChanged, LastOpen;
    forall k | 0 <= k < |h| ensures Extends(h[k].pages, Spoilt(h)[k].pages) { MarkedExtends(h[k].pages); }
  }

  lemma MarkedExtends(ps: seq<Page>)
    ensures Extends(ps, ps) && (LastOpen(ps) ==> Extends(ps, LastChanged(ps, Mark({BadFcs}))))
  {
    hide Extends, LastChanged, LastOpen;
    SameExtends(ps);
    if LastOpen(ps) { ChangedExtends(ps, ps, Mark({BadFcs})); }
  }

  lemma HeardThenExtends(h: seq<Heard>, a: Arrival)
    ensures HeardExtends(h, HeardThen(h, a))
  {
    hide HeardExtends, HeardNext, Spoilt;
    if a.Came? { HeardNextExtends(h, a.packet); } else { SpoiltExtends(h); }
  }

  lemma AgreesOn(ps: seq<Page>, whole: seq<Page>, more: seq<Page>)
    requires Agrees(ps, whole) && Extends(whole, more)
    ensures Agrees(ps, more)
  {
    forall k | 0 <= k < |ps| ensures PageAgrees(ps[k], more[k]) {
      assert PageAgrees(ps[k], whole[k]);
    }
  }

  lemma TakesGrow(takes: seq<Take>, h: seq<Heard>, h1: seq<Heard>)
    requires TakesOk(takes, h) && HeardExtends(h, h1)
    ensures TakesOk(takes, h1)
  {
    hide Agrees, Extends;
    forall i | 0 <= i < |takes| ensures takes[i].burst < |h1| && Agrees(takes[i].pages, h1[takes[i].burst].pages) {
      var b := takes[i].burst;
      assert Extends(h[b].pages, h1[b].pages);
      AgreesOn(takes[i].pages, h[b].pages, h1[b].pages);
    }
  }

  lemma PatientGrows(m: Modem, h: seq<Heard>, h1: seq<Heard>)
    requires Patient(m, h) && HeardExtends(h, h1)
    ensures Patient(m, h1)
  {
    hide AllClosed;
    forall i | 0 <= i < |m.takes| && Complete(m.takes[i], h) ensures Complete(m.takes[i], h1) {
      assert Extends(h[m.takes[i].burst].pages, h1[m.takes[i].burst].pages);
    }
  }
}
