/** What a modem gets of a whole call: of each burst it asked for in time, its pages, and all of them if it only reads on. */
module T38SessionReads {
  import opened BitSeq
  import opened EngineTypes
  import opened T38Types
  import opened T38Grammar
  import opened T38Send
  import opened T38Recv
  import opened T38RecvSafety
  import opened T38Pages
  import opened T38Session
  import opened T38SessionLine
  import opened T38SessionModem

  // ------------------------------------------------------------- what has come, and what will

  lemma ExtendsOn(a: seq<Page>, b: seq<Page>, c: seq<Page>)
    requires Extends(a, b) && Extends(b, c)
    ensures Extends(a, c)
  {
  }

  lemma HeardExtendsOn(a: seq<Heard>, b: seq<Heard>, c: seq<Heard>)
    requires HeardExtends(a, b) && HeardExtends(b, c)
    ensures HeardExtends(a, c)
  {
    hide Extends;
    forall k | 0 <= k < |a| ensures Extends(a[k].pages, c[k].pages) {
      assert Extends(a[k].pages, b[k].pages) && Extends(b[k].pages, c[k].pages);
      ExtendsOn(a[k].pages, b[k].pages, c[k].pages);
    }
  }

  lemma SameHeard(h: seq<Heard>)
    ensures HeardExtends(h, h)
  {
  }

  /** What is heard of the bursts only grows. */
  lemma {:induction false} HeardGrows(line: seq<Arrival>, n: nat)
    requires n <= |line|
    ensures HeardExtends(HeardOf(line[..n]), HeardOf(line))
    decreases |line|
  {
    hide HeardExtends, HeardThen;
    if n == |line| {
      assert line[..n] == line;
      SameHeard(HeardOf(line));
    } else {
      var before := line[..|line| - 1];
      assert line[..n] == before[..n];
      HeardGrows(before, n);
      HeardThenExtends(HeardOf(before), line[|line| - 1]);
      HeardExtendsOn(HeardOf(line[..n]), HeardOf(before), HeardOf(line));
    }
  }

  /**
   In every call, whatever comes from the other engine or is lost on the way, and however the modem's calls come between:
   the modem reads each burst once at most, and the bursts in their order; of each that it took it read the
   first pages, in order, none merged or split, a page that it read to the end exactly as it was sent; and if it
   never gave one up, it has read every one but the one in progress to no-carrier, and so the whole of it.
  */
  lemma {:induction false} Reads(line: seq<Arrival>, moves: seq<Move>)
    requires LineGram(line) != Gram.Broken
    ensures var m, h := Play(line, moves).m, HeardOf(line);
      && TakesOk(m.takes, h)
      && (!m.gaveUp ==> forall i :: 0 <= i < |m.takes| && (i < |m.takes| - 1 || !m.left.Pages?) ==> Complete(m.takes[i], h))
  {
    hide Play, LineGram, HeardOf, TakesOk, HeardExtends, RxOk, SavedOk, LeftOk, AwaitOk;
    AlwaysSynced(line, moves);
    var c := Play(line, moves);
    HeardGrows(line, c.n);
    TakesGrow(c.m.takes, HeardOf(line[..c.n]), HeardOf(line));
    PatientGrows(c.m, HeardOf(line[..c.n]), HeardOf(line));
    hide Complete;
  }

  // ------------------------------------------------------------- reading on to the end

  /** A request for the signal `mod`, with its frames as frames and its image as an image. */
  lemma WishFor(mod: Modulation) returns (w: Wish)
    ensures Plain(w) && Wished(w) == mod
  {
    var k := IndexOf(mod, false);
    var row := MODS[k];
    RowFound(k);
    w := Wish(if mod == V21 then DtHdlc else DtRaw, row.val, false);
    RowOk(row);
    hide GetModRow;
  }

  /** Every number of the table stands for one row. */
  lemma RowFound(k: nat)
    requires k < |MODS|
    ensures GetModRow(MODS[k].val) == Some(MODS[k])
  {
    RowFoundFrom(k, 0);
  }

  lemma {:induction false} RowFoundFrom(k: nat, i: nat)
    requires i <= k < |MODS|
    ensures FindFrom(MODS[k].val, i) == Some(MODS[k])
    decreases k - i
  {
    if i < k {
      RowFoundFrom(k, i + 1);
      assert forall a, b :: 0 <= a < b < |MODS| ==> MODS[a].val != MODS[b].val;
    }
  }

  /** The burst that the modem took last is over, and not read to its end. */
  ghost predicate Owed(c: Call, h: seq<Heard>) {
    Synced(c, h) && c.m.left.Pages? && !LastOpen(h[Newest(c.m).burst].pages)
  }

  function Buffers(c: Call): nat { if c.rx.streams.inn.Some? then |All(c.rx.streams.inn.value)| else 0 }

  function Rank(s: StateModem): nat { if s == StmIdle then 2 else if s == StmInReadyData then 1 else 0 }

  function Bytes(c: Call): nat {
    if c.rx.streams.inn.Some? && c.rx.streams.inn.value.first.Some? then |c.rx.streams.inn.value.first.value.bytes| else 0
  }

  predicate Closer(c1: Call, c: Call) {
    || Buffers(c1) < Buffers(c)
    || (Buffers(c1) == Buffers(c) && Rank(c1.rx.stateModem) < Rank(c.rx.stateModem))
    || (Buffers(c1) == Buffers(c) && c1.rx.stateModem == c.rx.stateModem && Bytes(c1) < Bytes(c))
  }

  /** The next call of a modem that wants to come to the end of what is left. */
  lemma NextCall(c: Call) returns (move: Move)
    requires c.m.left.Pages?
    ensures match c.rx.stateModem
      case StmIdle => move.Ask? && Plain(move.wish) && Wished(move.wish) == c.m.left.mod
      case StmInReadyData => move == Start
      case _ => move == Get(1)
  {
    match c.rx.stateModem
    case StmIdle => var w := WishFor(c.m.left.mod); move := Ask(w);
    case StmInReadyData => move := Start;
    case _ => move := Get(1);
  }

  /** All that such a call leaves as it was. */
  predicate Alike(c1: Call, c: Call) {
    && c1.n == c.n && c1.m.gaveUp == c.m.gaveUp && |c1.m.takes| == |c.m.takes| && c1.m.takes != []
    && (forall i :: 0 <= i < |c.m.takes| ==> c1.m.takes[i].burst == c.m.takes[i].burst)
    && (forall i :: 0 <= i < |c.m.takes| - 1 ==> c1.m.takes[i] == c.m.takes[i])
    && (AllClosed(Newest(c.m).pages) ==> AllClosed(Newest(c1.m).pages))
  }

  /** As many pages as the burst has are read, and nothing is left. */
  predicate AtEnd(m: Modem, h: seq<Heard>) {
    m.left == NoPages && m.takes != [] && Newest(m).burst < |h| && |Newest(m).pages| == |h[Newest(m).burst].pages|
  }

  lemma AskCloser(c: Call, h: seq<Heard>, w: Wish)
    requires Owed(c, h) && c.rx.stateModem == StmIdle && Plain(w) && Wished(w) == c.m.left.mod
    ensures var c1 := Does(c, h, Ask(w)); Closer(c1, c) && Alike(c1, c) && c1.m.left == c.m.left
  {
    hide RxOk, RecvWait, SavedOk, TakesOk, Plain, PlainStream, Patient, LastOpen, GetModRow, Wished;
    LeftSome(c, h);
    SameRow(c.rx.streams.inn.value, c.m.left.mod);
    AsksOn(c.rx, w);
    var st := c.rx.streams.inn.value;
    assert All(st.(want := Want(w.dataType, w.dataType))) == All(st);
  }

  lemma StartCloser(c: Call, h: seq<Heard>)
    requires Owed(c, h) && c.rx.stateModem == StmInReadyData
    ensures var c1 := Does(c, h, Start); Closer(c1, c) && Alike(c1, c) && c1.m.left == c.m.left
  {
    hide RxOk, RecvStart, PopBuf, SavedOk, TakesOk, PlainStream, Patient, LastOpen, All;
    LeftSome(c, h);
    StartResult(c.rx);
  }

  /** When the burst is over every buffer has EOF. */
  lemma ClosedFirst(c: Call, h: seq<Heard>)
    requires Owed(c, h) && c.rx.stateModem == StmInRecvData
    ensures c.rx.streams.inn.Some? && c.rx.streams.inn.value.first.Some? && c.rx.streams.inn.value.first.value.eof
    ensures PlainStream(c.rx.streams.inn.value, c.m.left.mod)
  {
    ReadyLeft(c, h);
    InnOk(c.rx);
    var st := c.rx.streams.inn.value;
    assert All(st)[0] == st.first.value;
    hide RxOk, SavedOk, TakesOk, PlainStream, Patient, LastOpen, Unread;
  }

  lemma MoreCloser(c: Call, h: seq<Heard>)
    requires Owed(c, h) && c.rx.stateModem == StmInRecvData && RecvAnswer(c.rx, 1, []).count != -1
    ensures var c1 := Does(c, h, Get(1)); Closer(c1, c) && Alike(c1, c) && c1.m.left == c.m.left
  {
    hide Synced, RecvAnswer, Recv, PlainStream, LastOpen, All;
    ClosedFirst(c, h);
    GetResult(c.rx, 1, c.m.left.mod);
    var st := c.rx.streams.inn.value;
    assert |RecvAnswer(c.rx, 1, []).bytes| == 1;
    LessSize(st, 1);
    TakesSome(c, h);
  }

  lemma LessSize(st: Stream, n: nat)
    requires st.first.Some? && n <= |st.first.value.bytes|
    ensures |All(Less(st, n))| == |All(st)|
  {
  }

  lemma TakesSome(c: Call, h: seq<Heard>)
    requires Synced(c, h) && c.m.left.Pages?
    ensures c.m.takes != [] && Newest(c.m).burst < |h|
  {
    hide RxOk, SavedOk, TakesOk, PlainStream, Patient, LastOpen, Unread;
  }

  lemma DoneCloser(c: Call, h: seq<Heard>, g: Gram)
    requires Owed(c, h) && LineOk(h, g) && c.rx.stateModem == StmInRecvData && RecvAnswer(c.rx, 1, []).count == -1
    ensures var c1 := Does(c, h, Get(1)); Closer(c1, c) && Alike(c1, c) && (c1.m.left == c.m.left || AtEnd(c1.m, h))
  {
    hide Synced, RecvAnswer, Recv, RecvStop, PlainStream, LastOpen, All, LineOk, DiagOf, DeleteFirst, WithPage;
    ClosedFirst(c, h);
    GetResult(c.rx, 1, c.m.left.mod);
    PageFits(c, h, g);
    StopResult(c.rx);
    var st := c.rx.streams.inn.value;
    SyncedOk(c, h);
    InnOk(c.rx);
    FirstDeleted(st, c.rx.streams.next);
    FirstSize(st);
    WithPageIs(c.m.takes, Page(c.m.reading, true, st.first.value.diag));
  }

  lemma SyncedOk(c: Call, h: seq<Heard>)
    requires Synced(c, h)
    ensures RxOk(c.rx)
  {
  }

  lemma FirstSize(st: Stream)
    requires st.first.Some?
    ensures |All(st)| == 1 + |st.queue|
  {
  }

  /** Each such call leaves less to be read. */
  lemma {:induction false} CallCloser(line: seq<Arrival>, c: Call) returns (move: Move)
    requires LineGram(line) != Gram.Broken && c.n <= |line| && Owed(c, HeardOf(line[..c.n]))
    ensures var c1 := Go(line, c, move);
      && Alike(c1, c) && Synced(c1, HeardOf(line[..c1.n]))
      && (AtEnd(c1.m, HeardOf(line[..c1.n])) || (Owed(c1, HeardOf(line[..c1.n])) && Closer(c1, c)))
  {
    hide Synced, LineOk, HeardOf, LineGram, Closer, LastOpen, Does, Plain, Wished, RecvAnswer, AllClosed;
    var h := HeardOf(line[..c.n]);
    LineUnbroken(line, c.n);
    AlwaysLineOk(line[..c.n]);
    move := NextCall(c);
    Readable(c, h);
    GoSynced(line, c, move);
    if c.rx.stateModem == StmIdle { AskCloser(c, h, move.wish); }
    else if c.rx.stateModem == StmInReadyData { StartCloser(c, h); }
    else if RecvAnswer(c.rx, 1, []).count == -1 { DoneCloser(c, h, LineGram(line[..c.n])); }
    else { MoreCloser(c, h); }
    TakesSome(c, h);
  }

  lemma Readable(c: Call, h: seq<Heard>)
    requires Synced(c, h) && c.m.left.Pages?
    ensures CanRead(c.rx.stateModem)
  {
    hide RxOk, SavedOk, TakesOk, PlainStream, Patient, LastOpen, Unread;
  }

  lemma PlayOn(line: seq<Arrival>, moves: seq<Move>, move: Move)
    ensures Play(line, moves + [move]) == Go(line, Play(line, moves), move)
  {
    hide Go;
    assert (moves + [move])[..|moves|] == moves;
  }

  /** Once the burst is over, the modem can come to the end of it by its own calls alone. */
  lemma {:induction false} Finish(line: seq<Arrival>, moves: seq<Move>) returns (more: seq<Move>)
    requires LineGram(line) != Gram.Broken
    requires var c := Play(line, moves); Owed(c, HeardOf(line[..c.n]))
    ensures var c, c1 := Play(line, moves), Play(line, moves + more); Alike(c1, c) && AtEnd(c1.m, HeardOf(line[..c.n]))
    decreases Buffers(Play(line, moves)), Rank(Play(line, moves).rx.stateModem), Bytes(Play(line, moves))
  {
    hide Go, Buffers, Rank, Bytes, Owed, HeardOf, LineGram, Synced, Play, AllClosed, AtEnd;
    var c := Play(line, moves);
    var move := CallCloser(line, c);
    PlayOn(line, moves, move);
    if AtEnd(Go(line, c, move).m, HeardOf(line[..c.n])) {
      more := [move];
    } else {
      var rest := Finish(line, moves + [move]);
      more := [move] + rest;
      assert moves + more == moves + [move] + rest;
    }
  }

  // ------------------------------------------------------------- exactly when it can

  /** Burst `j` is over, and past its no-signal, or not to be had any more for another reason. */
  predicate Past(c: Call, h: seq<Heard>, j: nat) {
    j < |h| && !LastOpen(h[j].pages) && !(c.m.free && j == |h| - 1)
  }

  predicate ReadWhole(m: Modem, h: seq<Heard>, j: nat) {
    exists i :: 0 <= i < |m.takes| && m.takes[i].burst == j && Complete(m.takes[i], h)
  }

  /** The modem took the burst last, and every page so far it has read to its end. */
  predicate InHand(m: Modem, j: nat) {
    m.left.Pages? && m.takes != [] && Newest(m).burst == j && AllClosed(Newest(m).pages)
  }

  /** It has not read burst `j`, and never will. */
  predicate Missed(c: Call, h: seq<Heard>, j: nat) {
    Past(c, h, j) && AllClosed(h[j].pages) && !ReadWhole(c.m, h, j) && !InHand(c.m, j)
  }

  /** Takes that come later are of later bursts. */
  lemma MissedMore(m: Modem, m1: Modem, h: seq<Heard>, j: nat, b: nat)
    requires !ReadWhole(m, h, j) && m1.takes == m.takes + [Take(b, [])] && b != j
    ensures !ReadWhole(m1, h, j) && !InHand(m1, j)
  {
    hide AllClosed;
    forall i | 0 <= i < |m1.takes| && m1.takes[i].burst == j ensures !Complete(m1.takes[i], h) {
      assert m1.takes[i] == m.takes[i];
    }
  }

  lemma MissedSame(m: Modem, m1: Modem, h: seq<Heard>, j: nat)
    requires !ReadWhole(m, h, j) && !InHand(m, j) && m1.takes == m.takes && (m1.left.Pages? ==> m.left.Pages?)
    ensures !ReadWhole(m1, h, j) && !InHand(m1, j)
  {
    hide AllClosed, Complete;
  }

  /** A page of the take that is in hand; one that is out of hand has an open page, and keeps it. */
  lemma MissedRead(m: Modem, m1: Modem, h: seq<Heard>, j: nat, page: Page)
    requires j < |h| && AllClosed(h[j].pages) && !ReadWhole(m, h, j) && !InHand(m, j) && m.left.Pages? && m.takes != []
    requires m1.takes == WithPage(m.takes, page)
    ensures !ReadWhole(m1, h, j) && !InHand(m1, j)
  {
    var n := |m.takes| - 1;
    WithPageIs(m.takes, page);
    hide WithPage;
    if m.takes[n].burst == j {
      var k :| 0 <= k < |m.takes[n].pages| && !m.takes[n].pages[k].eof;
      assert m1.takes[n].pages[k] == m.takes[n].pages[k];
    }
    forall i | 0 <= i < |m1.takes| && m1.takes[i].burst == j ensures !Complete(m1.takes[i], h) {
      if i < n { assert m1.takes[i] == m1.takes[..n][i] == m.takes[i]; }
    }
  }

  /** What was missed is no less missed when the bursts have grown. */
  lemma MissedGrown(m: Modem, h: seq<Heard>, h1: seq<Heard>, j: nat)
    requires j < |h| && !LastOpen(h[j].pages) && HeardExtends(h, h1) && !ReadWhole(m, h, j)
    ensures h1[j].pages == h[j].pages && !ReadWhole(m, h1, j)
  {
    hide AllClosed, Extends, LastOpen;
    assert Extends(h[j].pages, h1[j].pages);
    ClosedSame(h[j].pages, h1[j].pages);
    forall i | 0 <= i < |m.takes| && m.takes[i].burst == j ensures !Complete(m.takes[i], h1) {
      assert !Complete(m.takes[i], h);
    }
  }

  lemma MissedMeets(c: Call, a: Arrival, h: seq<Heard>, j: nat)
    requires Missed(c, h, j)
    ensures Missed(Meets(c, a, h), HeardThen(h, a), j)
  {
    hide HandlePacket, PacketLost, AllClosed, HeardExtends, HeardThen, LastOpen, ReadWhole, InHand;
    var h1 := HeardThen(h, a);
    HeardThenExtends(h, a);
    MissedGrown(c.m, h, h1, j);
    NewHeard(h, a);
    if a.Came? && a.packet.Ind? {
      var m1 := Signalled(c.m, c.rx.stateModem == StmInWaitData, a.packet.ind, |h|);
      if m1.takes == c.m.takes { MissedSame(c.m, m1, h1, j); } else { MissedMore(c.m, m1, h1, j, |h|); }
    }
  }

  lemma ClosedSame(ps: seq<Page>, qs: seq<Page>)
    requires Extends(ps, qs) && !LastOpen(ps)
    ensures ps == qs
  {
  }

  lemma NewHeard(h: seq<Heard>, a: Arrival)
    ensures |HeardThen(h, a)| == if a.Came? && a.packet.Ind? && a.packet.ind.Training? then |h| + 1 else |h|
  {
  }

  lemma MissedAsked(m: Modem, mod: Modulation, h: seq<Heard>, j: nat)
    requires !ReadWhole(m, h, j) && !InHand(m, j) && !(m.free && j == |h| - 1)
    ensures var m1 := Asked(m, mod, h); !ReadWhole(m1, h, j) && !InHand(m1, j) && (m1.free ==> m.free)
  {
    var m1 := Asked(m, mod, h);
    if m1.takes == m.takes { MissedSame(m, m1, h, j); } else { MissedMore(m, m1, h, j, |h| - 1); }
    hide ReadWhole, InHand;
  }

  /** The modem is at the end of a page, or leaves it. */
  lemma MissedPage(c: Call, m1: Modem, h: seq<Heard>, g: Gram, j: nat)
    requires Synced(c, h) && LineOk(h, g) && c.rx.stateModem == StmInRecvData && Missed(c, h, j)
    requires m1 == PageRead(c.m, DiagOf(c.rx)) || m1 == PageLeft(c.m, DiagOf(c.rx), h)
    ensures !ReadWhole(m1, h, j) && !InHand(m1, j) && m1.free == c.m.free
  {
    hide RxOk, SavedOk, TakesOk, PlainStream, Patient, LastOpen, ReadWhole, InHand, LeftOk, DiagOf, AtNewest, WithPage;
    ReadyLeft(c, h);
    StopResult(c.rx);
    if c.m.left.Pages? {
      PageFits(c, h, g);
      MissedRead(c.m, m1, h, j, if m1 == PageRead(c.m, DiagOf(c.rx)) then Page(c.m.reading, true, DiagOf(c.rx)) else Page(c.m.reading, false, {}));
    } else {
      LeftIsWrong(c, h);
      MissedSame(c.m, m1, h, j);
    }
  }

  lemma MissedDoes(c: Call, h: seq<Heard>, g: Gram, move: Move, j: nat)
    requires Synced(c, h) && LineOk(h, g) && Missed(c, h, j) && move != NextPacket
    ensures Missed(Does(c, h, move), h, j)
  {
    hide Synced, LineOk, AllClosed, LastOpen, ReadWhole, InHand, RecvWait, Resume, RecvStart, RecvStop, RxReset, TurnToSend, RecvAnswer, Recv,
      Plain, Asked, PageRead, PageLeft, IsOut, Wished, DiagOf;
    match move
    case Ask(w) => if Plain(w) { MissedAsked(c.m, Wished(w), h, j); }
    case AskSilence => MissedSame(c.m, Dropped(c.m), h, j);
    case Start => MissedSame(c.m, c.m.(reading := []), h, j);
    case Turn(dataType, accepted) => MissedSame(c.m, Dropped(c.m).(free := c.m.free && dataType == DtSilence), h, j);
    case Get(count) =>
      if c.rx.stateModem == StmInRecvData {
        if RecvAnswer(c.rx, count, []).count == -1 { GetMissed(c, h, g, count, j); }
        else { MissedSame(c.m, c.m.(reading := c.m.reading + RecvAnswer(c.rx, count, []).bytes), h, j); }
      }
    case Stop => if c.rx.stateModem == StmInRecvData { MissedPage(c, PageLeft(c.m, DiagOf(c.rx), h), h, g, j); }
    case Reset => if c.rx.stateModem == StmInRecvData { MissedPage(c, PageLeft(c.m, DiagOf(c.rx), h), h, g, j); }
    case _ =>
  }

  lemma GetMissed(c: Call, h: seq<Heard>, g: Gram, count: nat, j: nat)
    requires Synced(c, h) && LineOk(h, g) && Missed(c, h, j) && c.rx.stateModem == StmInRecvData && RecvAnswer(c.rx, count, []).count == -1
    ensures var m1 := DoGet(c, count).m; !ReadWhole(m1, h, j) && !InHand(m1, j) && m1.free == c.m.free
  {
    hide LineOk, AllClosed, LastOpen, ReadWhole, InHand, RecvStop, RecvAnswer, Recv, PageRead, DiagOf, LeftOk, PlainStream, TakesOk, Patient, SavedOk, RxOk;
    ReadyLeft(c, h);
    GetResult(c.rx, count, c.m.left.mod);
    MissedPage(c, PageRead(c.m, DiagOf(c.rx)), h, g, j);
  }

  lemma {:induction false} MissedStays(line: seq<Arrival>, moves: seq<Move>, more: seq<Move>, j: nat)
    requires LineGram(line) != Gram.Broken
    requires var c := Play(line, moves); Missed(c, HeardOf(line[..c.n]), j)
    ensures var c := Play(line, moves + more); Missed(c, HeardOf(line[..c.n]), j)
    decreases |more|
  {
    hide Missed, HeardOf, LineGram, Meets, Does, Synced, LineOk, Play, HeardThen;
    if more == [] {
      assert moves + [] == moves;
    } else {
      var before, move := more[..|more| - 1], more[|more| - 1];
      assert moves + more == moves + before + [move];
      MissedStays(line, moves, before, j);
      var c := Play(line, moves + before);
      PlayOn(line, moves + before, move);
      if move == NextPacket {
        if c.n < |line| {
          HeardStep(line, c.n);
          MissedMeets(c, line[c.n], HeardOf(line[..c.n]), j);
          MeetsN(c, line[c.n], HeardOf(line[..c.n]));
        }
      } else {
        AlwaysSynced(line, moves + before);
        LineUnbroken(line, c.n);
        AlwaysLineOk(line[..c.n]);
        MissedDoes(c, HeardOf(line[..c.n]), LineGram(line[..c.n]), move, j);
        SameN(c, HeardOf(line[..c.n]), move);
      }
    }
  }

  lemma PastClosed(line: seq<Arrival>, n: nat, j: nat)
    requires n <= |line| && LineGram(line) != Gram.Broken
    requires var h := HeardOf(line[..n]); j < |h| && !LastOpen(h[j].pages)
    ensures AllClosed(HeardOf(line[..n])[j].pages)
  {
    hide HeardOf, LineGram;
    LineUnbroken(line, n);
    AlwaysLineOk(line[..n]);
    assert PagesOk(HeardOf(line[..n])[j].pages);
  }

  /** A burst that is over is what it will be. */
  lemma WholeThen(line: seq<Arrival>, n: nat, m: Modem, j: nat)
    requires n <= |line|
    requires var h := HeardOf(line[..n]); j < |h| && !LastOpen(h[j].pages)
    ensures ReadWhole(m, HeardOf(line), j) <==> ReadWhole(m, HeardOf(line[..n]), j)
  {
    hide HeardOf, LastOpen, Extends;
    var h, h1 := HeardOf(line[..n]), HeardOf(line);
    HeardGrows(line, n);
    assert Extends(h[j].pages, h1[j].pages);
    ClosedSame(h[j].pages, h1[j].pages);
    assert forall i :: 0 <= i < |m.takes| && m.takes[i].burst == j ==> (Complete(m.takes[i], h) <==> Complete(m.takes[i], h1));
  }

  lemma InHandOwed(c: Call, h: seq<Heard>, j: nat)
    requires Synced(c, h) && Past(c, h, j) && InHand(c.m, j)
    ensures Owed(c, h) && c.m.takes != [] && Newest(c.m).burst == j && AllClosed(Newest(c.m).pages)
  {
    hide Synced, LastOpen, AllClosed;
  }

  /** At the end, with all pages closed, the burst is whole. */
  lemma EndWhole(c: Call, h: seq<Heard>, j: nat)
    requires Synced(c, h) && AtEnd(c.m, h) && AllClosed(Newest(c.m).pages) && Newest(c.m).burst == j && !LastOpen(h[j].pages)
    ensures ReadWhole(c.m, h, j)
  {
    assert Agrees(Newest(c.m).pages, h[j].pages);
    AgreesAll(Newest(c.m).pages, h[j].pages);
    assert Complete(c.m.takes[|c.m.takes| - 1], h);
  }

  /**
   Once a burst has gone by, its reader can have it whole in the end if and only if it has it already, or took it
   last, by a request that was there before the no-signal after it, and gave up none of its pages.
  */
  lemma {:induction false} ReadIffTaken(line: seq<Arrival>, moves: seq<Move>, j: nat)
    requires LineGram(line) != Gram.Broken
    requires var c := Play(line, moves); Past(c, HeardOf(line[..c.n]), j)
    ensures var m, h := Play(line, moves).m, HeardOf(line);
      (exists more :: ReadWhole(Play(line, moves + more).m, h, j)) <==> ReadWhole(m, h, j) || InHand(m, j)
  {
    hide HeardOf, LineGram, Go, Synced, AllClosed, LastOpen, Play, ReadWhole, InHand, LineOk;
    var c := Play(line, moves);
    var h := HeardOf(line[..c.n]);
    AlwaysSynced(line, moves);
    PastClosed(line, c.n, j);
    WholeThen(line, c.n, c.m, j);
    if ReadWhole(c.m, HeardOf(line), j) {
      assert moves + [] == moves;
      assert ReadWhole(Play(line, moves + []).m, HeardOf(line), j);
    } else if InHand(c.m, j) {
      InHandOwed(c, h, j);
      var more := Finish(line, moves);
      AlwaysSynced(line, moves + more);
      var c1 := Play(line, moves + more);
      assert c1.n == c.n && Newest(c1.m).burst == j && AllClosed(Newest(c1.m).pages);
      EndWhole(c1, h, j);
      WholeThen(line, c.n, c1.m, j);
    } else {
      forall more ensures !ReadWhole(Play(line, moves + more).m, HeardOf(line), j) {
        MissedStays(line, moves, more, j);
        var c1 := Play(line, moves + more);
        WholeThen(line, c1.n, c1.m, j);
      }
    }
  }

  // ------------------------------------------------------------- until when a burst can be asked for

  /** A training has come, and no indicator since. */
  predicate BurstOnLine(line: seq<Arrival>) {
    line != [] && var a := line[|line| - 1];
      if a.Came? && a.packet.Ind? then a.packet.ind.Training? else BurstOnLine(line[..|line| - 1])
  }

  predicate Untaken(m: Modem, heard: nat) { heard > 0 && (m.takes == [] || Newest(m).burst + 1 < heard) }

  lemma FreeMeets(c: Call, a: Arrival, h: seq<Heard>, line: seq<Arrival>)
    requires Synced(c, h) && (c.m.free <==> BurstOnLine(line) && Untaken(c.m, |h|))
    ensures Meets(c, a, h).m.free <==> BurstOnLine(line + [a]) && Untaken(Meets(c, a, h).m, |HeardThen(h, a)|)
  {
    hide HandlePacket, PacketLost, Synced, HeardThen;
    assert (line + [a])[..|line|] == line;
    TakenBelow(c, h);
    NewHeard(h, a);
    WaitsFor(c, h);
  }

  lemma TakenBelow(c: Call, h: seq<Heard>)
    requires Synced(c, h)
    ensures c.m.takes != [] ==> c.m.takes[|c.m.takes| - 1].burst < |h|
  {
    hide RxOk, SavedOk, LeftOk, AwaitOk, Patient, TakesOk;
    TakesBelow(c.m.takes, h);
  }

  lemma WaitsFor(c: Call, h: seq<Heard>)
    requires Synced(c, h)
    ensures c.rx.stateModem == StmInWaitData ==> c.m.want.Some?
  {
  }

  lemma FreeDoes(c: Call, h: seq<Heard>, g: Gram, move: Move, line: bool)
    requires Synced(c, h) && LineOk(h, g) && (c.m.free <==> line && Untaken(c.m, |h|))
    requires move != NextPacket && !(move.Turn? && move.dataType != DtSilence)
    ensures Does(c, h, move).m.free <==> line && Untaken(Does(c, h, move).m, |h|)
  {
    hide Synced, LineOk, RecvWait, Resume, RecvStart, RecvStop, RxReset, TurnToSend, RecvAnswer, Recv, Plain, IsOut, Wished, DiagOf, PageRead, PageLeft, Asked, Untaken;
    match move
    case Ask(w) => if Plain(w) { FreeAsked(c.m, Wished(w), h, line); }
    case Get(count) => PageBursts(c.m, DiagOf(Recv(c.rx, count, [])), h); SameTakes(c.m, c.m.(reading := c.m.reading + RecvAnswer(c.rx, count, []).bytes), |h|);
    case AskSilence => SameTakes(c.m, Dropped(c.m), |h|);
    case Turn(_, _) => SameTakes(c.m, Dropped(c.m).(free := c.m.free), |h|);
    case Start => SameTakes(c.m, c.m.(reading := []), |h|);
    case _ => PageBursts(c.m, DiagOf(c.rx), h);
  }

  lemma SameTakes(m: Modem, m1: Modem, n: nat)
    requires m1.takes == m.takes
    ensures Untaken(m1, n) <==> Untaken(m, n)
  {
  }

  lemma FreeAsked(m: Modem, mod: Modulation, h: seq<Heard>, line: bool)
    requires m.free <==> line && Untaken(m, |h|)
    ensures Asked(m, mod, h).free <==> line && Untaken(Asked(m, mod, h), |h|)
  {
  }

  /** Reading changes nothing of which bursts are taken. */
  lemma PageBursts(m: Modem, diag: Diag, h: seq<Heard>)
    ensures forall n: nat :: Untaken(PageRead(m, diag), n) <==> Untaken(m, n)
    ensures forall n: nat :: Untaken(PageLeft(m, diag, h), n) <==> Untaken(m, n)
    ensures PageRead(m, diag).free == m.free && PageLeft(m, diag, h).free == m.free
  {
  }

  /** The burst on the line can be asked for exactly until the no-signal after it, unless it is taken, or the modem sends. */
  lemma {:induction false} FreeUntilNoSignal(line: seq<Arrival>, moves: seq<Move>)
    requires LineGram(line) != Gram.Broken
    requires forall move :: move in moves && move.Turn? ==> move.dataType == DtSilence
    ensures var c := Play(line, moves);
      c.m.free <==> BurstOnLine(line[..c.n]) && Untaken(c.m, |HeardOf(line[..c.n])|)
  {
    hide HeardOf, LineGram, Meets, Does, Synced, LineOk, HeardThen, BurstOnLine, Untaken;
    if moves == [] {
      assert line[..0] == [] && !BurstOnLine([]) by { NoBurst(); }
    } else {
      var before, move := moves[..|moves| - 1], moves[|moves| - 1];
      FreeUntilNoSignal(line, before);
      AlwaysSynced(line, before);
      var c := Play(line, before);
      var h := HeardOf(line[..c.n]);
      LineUnbroken(line, c.n);
      AlwaysLineOk(line[..c.n]);
      if move != NextPacket {
        SameN(c, h, move);
        FreeDoes(c, h, LineGram(line[..c.n]), move, BurstOnLine(line[..c.n]));
      } else if c.n < |line| && c.rx.pc == Rest {
        HeardStep(line, c.n);
        assert line[..c.n + 1] == line[..c.n] + [line[c.n]];
        FreeMeets(c, line[c.n], h, line[..c.n]);
        MeetsN(c, line[c.n], h);
      }
    }
  }

  lemma NoBurst()
    ensures !BurstOnLine([])
  {
  }
}
