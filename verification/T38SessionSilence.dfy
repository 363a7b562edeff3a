/** The carrier that the engine remembers is the burst that is on the line, and a modem that asks for silence waits for the end of that. */
module T38SessionSilence {
  import opened BitSeq
  import opened EngineTypes
  import opened T38Types
  import opened T38Grammar
  import opened T38Send
  import opened T38Recv
  import opened T38RecvSafety
  import opened T38Pages
  import opened T38Session
  import opened T38SessionLine
  import opened T38SessionModem

  /** The carrier is remembered while the burst is on the line, and only then does a modem wait for silence. */
  predicate Remembered(r: Rx, g: Gram) { (r.carrierIn != 0 <==> g.Body?) && (r.stateModem == StmInWaitSilence ==> g.Body?) }

  lemma FieldCarrier(r: Rx, mod: Modulation, f: RxField)
    ensures var r1 := HandlePacket(r, RxData(mod, [f]));
      && r1.carrierIn == (if EndsSignal(f.kind) then 0 else r.carrierIn)
      && (r1.stateModem == StmInWaitSilence ==> r.stateModem == StmInWaitSilence && !EndsSignal(f.kind))
  {
    var t := TargetOf(r.streams);
    FieldTurn(r, t, f);
    ShutPoints(r.streams, t);
    FieldTurn(r.(streams := ApplyTo(r.streams, t, Shut({OutOfOrder, NoCarrier}))), Nowhere, f);
    hide HandleFields, ApplyTo;
  }

  lemma ShutPoints(ss: Streams, t: Target)
    requires Points(ss, t)
    ensures Points(ApplyTo(ss, t, Shut({OutOfOrder, NoCarrier})), Nowhere)
  {
  }

  lemma FieldTurn(r: Rx, t: Target, f: RxField)
    requires Points(r.streams, t)
    ensures var r1 := HandleFields(r, t, [f]);
      && r1.carrierIn == (if EndsSignal(f.kind) then 0 else r.carrierIn)
      && (r1.stateModem == StmInWaitSilence ==> r.stateModem == StmInWaitSilence && !EndsSignal(f.kind))
  {
    PutPoints(r.streams, t, f);
    var r1 := r.(streams := PutField(r.streams, t, f), countIn := r.countIn + |f.data|);
    assert [f][1..] == [];
    NoFields(r1, t);
    NoFields(r1.(carrierIn := 0), Nowhere);
    hide PutField;
  }

  lemma NoFields(r: Rx, t: Target)
    requires Points(r.streams, t)
    ensures HandleFields(r, t, []) == r.(pc := Rest)
  {
  }

  lemma QuietRemembered(c: Call, h: seq<Heard>, g: Gram, p: Packet)
    requires Synced(c, h) && LineOk(h, g) && Remembered(c.rx, g) && c.rx.pc == Rest && p.Ind? && NextGram(g, p) != Gram.Broken
    ensures Remembered(HandlePacket(c.rx, Received(p)), NextGram(g, p))
  {
    hide Synced, LineOk, HandlePacket, FindInd;
    NoneOpen(c, h, g);
    if p.ind.Training? {
      FoundByInd(p.ind);
      WaitingHas(c, h);
      TrainingHandled(c.rx, p.ind, FindInd(p.ind, 0).value);
      hide MoveInto, Fresh, Differs;
    } else {
      QuietHandled(c.rx, p.ind);
    }
  }

  lemma WaitingHas(c: Call, h: seq<Heard>)
    requires Synced(c, h)
    ensures c.rx.stateModem == StmInWaitData ==> c.rx.streams.inn.Some?
  {
    hide RxOk, SavedOk, LeftOk, TakesOk, Patient, PlainStream;
  }

  lemma MeetsRemembered(c: Call, h: seq<Heard>, g: Gram, a: Arrival)
    requires Synced(c, h) && LineOk(h, g) && Remembered(c.rx, g) && c.rx.pc == Rest && GramThen(g, a) != Gram.Broken
    ensures Remembered(Meets(c, a, h).rx, GramThen(g, a))
  {
    hide Synced, LineOk, HandlePacket, NextGram, ApplyTo;
    if a.Came? && a.packet.Ind? {
      QuietRemembered(c, h, g, a.packet);
    } else if a.Came? {
      BodyIs(g, a.packet);
      FieldCarrier(c.rx, a.packet.mod, Arrives(a.packet.field));
    }
  }

  /** The carrier is the line's: no call of the modem changes it. */
  lemma DoesRemembered(c: Call, h: seq<Heard>, g: Gram, move: Move)
    requires Synced(c, h) && Remembered(c.rx, g) && move != NextPacket
    ensures Remembered(Does(c, h, move).rx, g)
  {
    hide TakeStream, PlainStream, TakesOk, Patient, SavedOk, LeftOk, AwaitOk, PageLeft, PageRead, Asked, Dropped, GetData, StreamsOk;
  }

  lemma GoRemembered(line: seq<Arrival>, c: Call, move: Move)
    requires LineGram(line) != Gram.Broken && c.n <= |line| && Synced(c, HeardOf(line[..c.n])) && Remembered(c.rx, LineGram(line[..c.n]))
    ensures var c1 := Go(line, c, move); c1.n <= |line| && Remembered(c1.rx, LineGram(line[..c1.n]))
  {
    hide Synced, LineOk, HeardOf, LineGram, HeardThen, GramThen, Meets, Does, Remembered;
    var h, g := HeardOf(line[..c.n]), LineGram(line[..c.n]);
    LineUnbroken(line, c.n);
    AlwaysLineOk(line[..c.n]);
    if move == NextPacket {
      if c.n < |line| && c.rx.pc == Rest {
        LineUnbroken(line, c.n + 1);
        HeardStep(line, c.n);
        MeetsN(c, line[c.n], h);
        MeetsRemembered(c, h, g, line[c.n]);
      }
    } else {
      DoesRemembered(c, h, g, move);
      SameN(c, h, move);
    }
  }

  lemma StartsRemembered()
    ensures Remembered(CALL_START.rx, Ended)
  {
  }

  /** In every call the engine remembers a carrier exactly while a burst is on the line, and a modem waits for silence only then. */
  lemma {:induction false} CarrierTold(line: seq<Arrival>, moves: seq<Move>)
    requires LineGram(line) != Gram.Broken
    ensures var c := Play(line, moves);
      && (c.rx.carrierIn != 0 <==> LineGram(line[..c.n]).Body?)
      && (c.rx.stateModem == StmInWaitSilence ==> LineGram(line[..c.n]).Body?)
  {
    hide Synced, Go, LineGram;
    if moves == [] {
      StartsRemembered();
      NoLine(line);
    } else {
      var before := moves[..|moves| - 1];
      CarrierTold(line, before);
      AlwaysSynced(line, before);
      GoRemembered(line, Play(line, before), moves[|moves| - 1]);
    }
  }

  lemma NoLine(line: seq<Arrival>)
    ensures LineGram(line[..0]) == Ended
  {
  }

  // ------------------------------------------------------------- asking for silence

  /** The modem's last request was for data: not for silence, and not to send. */
  predicate Claims(line: seq<Arrival>, moves: seq<Move>) {
    if moves == [] then false
    else
      var before := moves[..|moves| - 1];
      ClaimsThen(Claims(line, before), Play(line, before), moves[|moves| - 1])
  }

  predicate ClaimsThen(claims: bool, c: Call, move: Move) {
    if c.rx.stateModem != StmIdle then claims
    else
      match move
      case Ask(w) => Plain(w) || claims
      case AskSilence => false
      case Turn(_, _) => false
      case _ => claims
  }

  lemma ClaimsGo(line: seq<Arrival>, c: Call, move: Move)
    requires c.n <= |line| && RxOk(c.rx)
    ensures Go(line, c, move).rx.streams.inn.Some? == ClaimsThen(c.rx.streams.inn.Some?, c, move)
  {
    hide HeardOf, GetData, PageLeft, PageRead, Asked, Dropped, Signalled, StreamsOk, TakeStream, HandleFields, FindInd, Touch;
    match move
    case NextPacket => if c.n < |line| && c.rx.pc == Rest { ClaimsMeets(c, line[c.n], HeardOf(line[..c.n])); hide Meets; }
    case GoOn => if c.rx.pc.Fields? { FieldsClaim(c.rx, Nowhere, c.rx.pc.fields); }
    case Ask(w) => if Plain(w) { TakenThere(c.rx.streams, GetModRow(w.param).value, WantOf(w.dataType, GetModRow(w.param).value, w.hdlcOnly)); }
    case _ =>
  }

  lemma TakenThere(ss: Streams, row: ModRow, want: Want)
    ensures TakeStream(ss, row, want).inn.Some?
  {
  }

  lemma ToClaim(ss: Streams, t: Target, c: Change)
    requires Points(ss, t)
    ensures ApplyTo(ss, t, c).inn.Some? == ss.inn.Some? && Points(ApplyTo(ss, t, c), t)
  {
  }

  lemma {:induction false} FieldsClaim(r: Rx, t: Target, fields: seq<RxField>)
    requires Points(r.streams, t)
    ensures HandleFields(r, t, fields).streams.inn.Some? == r.streams.inn.Some?
    decreases |fields|
  {
    hide Touch, EndsSignal;
    if fields != [] {
      var f := fields[0];
      var r1 := r.(streams := PutField(r.streams, t, f), countIn := r.countIn + |f.data|);
      if !EndsSignal(f.kind) { FieldsClaim(r1, t, fields[1..]); }
      else if r.stateModem != StmInWaitSilence { FieldsClaim(r1.(carrierIn := 0), Nowhere, fields[1..]); }
    }
  }

  lemma ClaimsMeets(c: Call, a: Arrival, h: seq<Heard>)
    ensures Meets(c, a, h).rx.streams.inn.Some? == c.rx.streams.inn.Some?
  {
    hide HandleFields, FindInd, ApplyTo, Signalled;
    var ss, t := c.rx.streams, TargetOf(c.rx.streams);
    var shut := Shut({OutOfOrder, NoCarrier});
    ToClaim(ss, t, shut);
    ToClaim(ss, t, Mark({BadFcs}));
    if ss.inn.Some? { ToClaim(ss, ToIn, shut); }
    if a.Came? && a.packet.Data? {
      FieldsClaim(c.rx, t, [Arrives(a.packet.field)]);
      FieldsClaim(c.rx.(streams := ApplyTo(ss, t, shut)), Nowhere, [Arrives(a.packet.field)]);
    }
  }

  lemma {:induction false} ClaimsKept(line: seq<Arrival>, moves: seq<Move>)
    requires LineGram(line) != Gram.Broken
    ensures Play(line, moves).rx.streams.inn.Some? == Claims(line, moves)
  {
    hide Go, LineGram, ClaimsThen;
    if moves != [] {
      var before := moves[..|moves| - 1];
      ClaimsKept(line, before);
      AlwaysSynced(line, before);
      RxOkOf(Play(line, before), HeardOf(line[..Play(line, before).n]));
      ClaimsGo(line, Play(line, before), moves[|moves| - 1]);
    }
  }

  lemma RxOkOf(c: Call, h: seq<Heard>)
    requires Synced(c, h)
    ensures RxOk(c.rx)
  {
  }

  /**
   In every call an idle modem that asks for silence waits exactly if a burst is on the line that cannot be asked for any
   more, and its last request was for data; otherwise there is nothing to wait for.
  */
  lemma {:induction false} SilenceIff(line: seq<Arrival>, moves: seq<Move>)
    requires LineGram(line) != Gram.Broken && Play(line, moves).rx.stateModem == StmIdle
    ensures var c := Play(line, moves);
      Play(line, moves + [AskSilence]).rx.stateModem ==
        if LineGram(line[..c.n]).Body? && !c.m.free && Claims(line, moves) then StmInWaitSilence else StmIdle
  {
    var c := Play(line, moves);
    assert (moves + [AskSilence])[..|moves|] == moves;
    CarrierTold(line, moves);
    ClaimsKept(line, moves);
    AlwaysSynced(line, moves);
    SavedFree(c, HeardOf(line[..c.n]));
    hide Synced, LineGram, Claims, HeardOf, Dropped;
  }

  lemma SavedFree(c: Call, h: seq<Heard>)
    requires Synced(c, h)
    ensures c.rx.streams.saved.Some? <==> c.m.free
  {
    hide RxOk, LeftOk, AwaitOk, TakesOk, Patient, HoldsPages;
  }
}
