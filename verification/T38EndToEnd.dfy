/** From one modem to the other: what is sent through one engine is what is read from the other. */
module T38EndToEnd {
  import opened BitSeq
  import opened EngineTypes
  import opened T38Types
  import opened T38Grammar
  import T38Run
  import T38Send
  import T38SendSafety
  import T38SendPayload
  import opened T38Recv
  import opened T38Pages
  import opened T38Session
  import opened T38SessionModem
  import opened T38SessionReads

  // ------------------------------------------------------------- what a payload is read as

  /** Whole frames as pages. */
  function FramePages(frames: seq<seq<Byte>>): seq<Page> {
    if frames == [] then [] else FramePages(frames[..|frames| - 1]) + [Page(frames[|frames| - 1], true, {})]
  }

  /** What a payload is to be read as: its frames and then an empty page with no-carrier, or its image with no-carrier. */
  function PagesFor(p: Payload): seq<Page> {
    match p
    case FramesOf(frames) => FramePages(frames) + [Page([], true, {NoCarrier})]
    case ImageOf(image) => [Page(image, true, {NoCarrier})]
    case Spoiled => []
  }

  /** What has come of the burst on the line. */
  function OpenPages(a: Asm): seq<Page> { FramePages(a.frames) + [Page(a.part, false, {})] }

  lemma FieldPages(a: Asm, g: Gram, mod: Modulation, f: Field)
    requires g.Body? && !a.spoiled && !EndsBurst(Data(mod, f)) && f != HdlcFcsBad
    ensures Filled(OpenPages(a), Arrives(f)) == OpenPages(NextAsm(a, Data(mod, f)))
  {
    var ps := OpenPages(a);
    var before := FramePages(a.frames);
    assert ps[..|ps| - 1] == before;
    assert LastChanged(ps, Append(Arrives(f).data)) == before + [Page(a.part + Arrives(f).data, false, {})];
    if f == HdlcFcsOk {
      assert a.part + [] == a.part;
      assert (a.frames + [a.part])[..|a.frames|] == a.frames;
      var none: Diag := {};
      assert none + {} == none;
      assert LastChanged(ps, Shut({})) == before + [Page(a.part, true, {})];
    }
  }

  /** The kind of the burst says what there is: no frames unless it carries frames, no part between two of them. */
  predicate KindFits(a: Asm, g: Gram) {
    g.Body? && (g.kind != Image && !g.open ==> a.part == []) && (g.kind != Frames ==> a.frames == [])
  }

  /** An end of signal closes the open page. */
  lemma ShutPages(before: seq<Page>, part: seq<Byte>, f: RxField)
    requires f.kind == FHdlcSigEnd || f.kind == FNonEcmSigEnd
    requires f.data == []
    ensures Filled(before + [Page(part, false, {})], f) == before + [Page(part, true, {NoCarrier})]
  {
    var ps := before + [Page(part, false, {})];
    assert ps[..|ps| - 1] == before && part + [] == part;
    assert LastChanged(ps, Append([])) == ps;
    var none: Diag := {};
    assert none + {NoCarrier} == {NoCarrier};
  }

  /** The end of signal completes the pages. */
  lemma EndPages(a: Asm, g: Gram, mod: Modulation, f: Field)
    requires KindFits(a, g) && !a.spoiled && EndsBurst(Data(mod, f)) && NextField(g, f) != Gram.Broken
    ensures var bursts := NextAsm(a, Data(mod, f)).bursts;
      Filled(OpenPages(a), Arrives(f)) == PagesFor(bursts[|bursts| - 1])
  {
    hide Filled, FramePages;
    ShutPages(FramePages(a.frames), a.part, Arrives(f));
    if f == NonEcmSigEnd { NoFrames(); }
  }

  lemma NoFrames()
    ensures forall p: Page :: FramePages([]) + [p] == [p]
  {
  }

  // ------------------------------------------------------------- the bursts on the line and their payloads

  /** The burst on the line, if its checks are all good so far. */
  predicate OpenFits(a: Asm, g: Gram, h: seq<Heard>) {
    g.Body? && !a.spoiled ==> h != [] && h[|h| - 1].pages == OpenPages(a) && KindFits(a, g)
  }

  /** The pages of each burst are those of its payload. */
  predicate PagesFit(a: Asm, g: Gram, h: seq<Heard>) {
    && |h| == |a.bursts| + (if g.Body? then 1 else 0)
    && (forall k :: 0 <= k < |a.bursts| && a.bursts[k] != Spoiled ==> h[k].pages == PagesFor(a.bursts[k]))
    && OpenFits(a, g, h)
  }

  /** One packet completes one payload, or none. */
  lemma NextBursts(a: Asm, p: Packet)
    ensures var a1 := NextAsm(a, p);
      if p.Data? && EndsBurst(p) then
        |a1.bursts| == |a.bursts| + 1 && a1.bursts[..|a.bursts|] == a.bursts && (a1.bursts[|a.bursts|] == Spoiled <==> a.spoiled)
      else a1.bursts == a.bursts
  {
  }

  lemma NextSpoiled(a: Asm, g: Gram, p: Packet)
    requires p.Data? && NextGram(g, p).Body? && !NextAsm(a, p).spoiled
    ensures !EndsBurst(p) && !a.spoiled && p.field != HdlcFcsBad
    ensures KindFits(a, g) ==> KindFits(NextAsm(a, p), NextGram(g, p))
  {
  }

  lemma BodyFits(a: Asm, g: Gram, h: seq<Heard>, p: Packet)
    requires PagesFit(a, g, h) && p.Data? && NextGram(g, p).Body?
    ensures PagesFit(NextAsm(a, p), NextGram(g, p), HeardNext(h, p))
  {
    hide NextAsm, OpenPages, Filled, PagesFor, KindFits, Arrives;
    BodyIs(g, p);
    NextBursts(a, p);
    if !NextAsm(a, p).spoiled {
      NextSpoiled(a, g, p);
      FieldPages(a, g, p.mod, p.field);
    }
    hide NextGram;
  }

  lemma EndFits(a: Asm, g: Gram, h: seq<Heard>, p: Packet)
    requires PagesFit(a, g, h) && p.Data? && NextGram(g, p) == Ended
    ensures PagesFit(NextAsm(a, p), NextGram(g, p), HeardNext(h, p))
  {
    hide NextAsm, OpenPages, Filled, PagesFor, KindFits, Arrives, NextField;
    BodyIs(g, p);
    NextBursts(a, p);
    if !a.spoiled { EndPages(a, g, p.mod, p.field); }
    hide NextGram;
  }

  lemma FitNext(a: Asm, g: Gram, h: seq<Heard>, p: Packet)
    requires PagesFit(a, g, h) && NextGram(g, p) != Gram.Broken
    ensures PagesFit(NextAsm(a, p), NextGram(g, p), HeardNext(h, p))
  {
    if p.Data? {
      BodyIs(g, p);
      hide PagesFit, NextAsm, HeardNext;
      if EndsBurst(p) { EndFits(a, g, h, p); } else { BodyFits(a, g, h, p); }
    } else {
      assert FramePages([]) + [Page([], false, {})] == [BLANK];
      hide PagesFor;
    }
  }

  /** In every well-formed stream, each burst that is over is heard as the pages of its payload, unless a check in it was bad. */
  lemma {:induction false} HeardPayloads(packets: seq<Packet>)
    requires GramOf(packets) != Gram.Broken
    ensures PagesFit(AsmOf(packets), GramOf(packets), HeardOf(AllCame(packets))) && LineGram(AllCame(packets)) == GramOf(packets)
  {
    if packets != [] {
      var n := |packets| - 1;
      PrefixUnbroken(packets, n);
      HeardPayloads(packets[..n]);
      hide PagesFit, NextAsm, NextGram, HeardNext;
      assert AllCame(packets)[..n] == AllCame(packets[..n]);
      FitNext(AsmOf(packets[..n]), GramOf(packets[..n]), HeardOf(AllCame(packets[..n])), packets[n]);
    }
  }

  // ------------------------------------------------------------- end to end

  /** What a modem asks for is frames or an image, never a spoiled burst. */
  lemma {:induction false} NoneSpoiled(events: seq<T38Run.Event>)
    ensures Spoiled !in T38Run.Exec(events).asked
  {
    if events != [] {
      var before := events[..|events| - 1];
      NoneSpoiled(before);
      hide T38Send.Step, T38Send.SendStart, T38Send.SendStop, T38Run.NonEmpty;
    }
  }

  /** Nor does a check go out bad. */
  lemma NotSpoiled(r: T38Run.Run)
    requires T38SendPayload.Faithful(r) && !r.cutShort && !r.converted && GramOf(r.out).Body?
    ensures !AsmOf(r.out).spoiled
  {
    hide GramOf, AsmOf, T38SendPayload.OnTheWay, T38SendPayload.AllFrames;
  }

  /** The payloads on the line are the first that were asked for, and each is heard as its pages. */
  lemma AskedHeard(events: seq<T38Run.Event>)
    requires var r := T38Run.Exec(events); !r.cutShort && !r.converted
    ensures var r := T38Run.Exec(events);
      var a, h := AsmOf(r.out), HeardOf(AllCame(r.out));
      && LineGram(AllCame(r.out)) != Gram.Broken && a.bursts <= r.asked && |a.bursts| <= |h| <= |a.bursts| + 1
      && (forall k :: 0 <= k < |a.bursts| ==> h[k].pages == PagesFor(r.asked[k]))
      && (|h| > |a.bursts| ==> LastOpen(h[|h| - 1].pages) && h[|h| - 1].pages == OpenPages(a))
  {
    hide T38Run.Exec, AsmOf, GramOf, HeardOf, PagesFor, OpenPages, KindFits, PagesOk, T38SendPayload.Faithful, T38SendSafety.WellFormed, T38SendPayload.OnTheWay;
    var r := T38Run.Exec(events);
    T38SendPayload.Delivered(events);
    T38SendSafety.Grammar(events);
    NoneSpoiled(events);
    HeardPayloads(r.out);
    AlwaysLineOk(AllCame(r.out));
    if GramOf(r.out).Body? { NotSpoiled(r); }
    assert forall k :: 0 <= k < |AsmOf(r.out).bursts| ==> AsmOf(r.out).bursts[k] == r.asked[k];
  }

  /**
   End to end, over a whole call. One engine sends, in any run of direct transmissions with no reset inside a
   frame; every packet it sends, from the first, is handed to another engine, that of `CALL_START`, while its modem
   asks, reads, stops, resets or sends at any moment. The bursts that modem takes are ever later ones; what it has
   read of one is the first pages of what the sending modem asked for as that transmission, or, while the burst is
   on the line, of what has come of it; and if the reading modem never gave one up, it has read the whole of
   every transmission that it took, but for the one in progress.
  */
  lemma {:induction false} EndToEnd(events: seq<T38Run.Event>, moves: seq<Move>)
    requires var r := T38Run.Exec(events); !r.cutShort && !r.converted
    ensures var r := T38Run.Exec(events);
      var a, m := AsmOf(r.out), Play(AllCame(r.out), moves).m;
      && (forall i, j :: 0 <= i < j < |m.takes| ==> m.takes[i].burst < m.takes[j].burst)
      && (forall i :: 0 <= i < |m.takes| ==>
            var t := m.takes[i];
            if t.burst < |a.bursts| then t.burst < |r.asked| && Agrees(t.pages, PagesFor(r.asked[t.burst]))
            else t.burst == |a.bursts| && Agrees(t.pages, OpenPages(a)))
      && (!m.gaveUp ==> forall i :: 0 <= i < |m.takes| && (i < |m.takes| - 1 || !m.left.Pages?) ==>
            m.takes[i].burst < |r.asked| && m.takes[i].pages == PagesFor(r.asked[m.takes[i].burst]))
  {
    hide T38Run.Exec, AsmOf, GramOf, HeardOf, PagesFor, OpenPages, Play, Agrees, LastOpen;
    AskedHeard(events);
    Reads(AllCame(T38Run.Exec(events).out), moves);
  }

  /**
   Of each transmission that is over, a modem can have the whole, in the end, if and only if it has it already, or
   took it last, by a request that was there before the no-signal after it, and gave up none of its pages.
  */
  lemma {:induction false} AskedReadIffTaken(events: seq<T38Run.Event>, moves: seq<Move>, k: nat)
    requires var r := T38Run.Exec(events); !r.cutShort && !r.converted
    requires var r := T38Run.Exec(events); var c := Play(AllCame(r.out), moves); Past(c, HeardOf(AllCame(r.out)[..c.n]), k)
    ensures var r := T38Run.Exec(events);
      var m := Play(AllCame(r.out), moves).m;
      && k < |r.asked|
      && ((exists more :: HasRead(Play(AllCame(r.out), moves + more).m, k, PagesFor(r.asked[k]))) <==>
          HasRead(m, k, PagesFor(r.asked[k])) || InHand(m, k))
  {
    hide T38Run.Exec, AsmOf, GramOf, HeardOf, PagesFor, OpenPages, Play, InHand, LastOpen, ReadWhole, HasRead;
    var r := T38Run.Exec(events);
    AskedHeard(events);
    PastHeard(AllCame(r.out), Play(AllCame(r.out), moves).n, k);
    ReadIffTaken(AllCame(r.out), moves, k);
    forall m: Modem ensures HasRead(m, k, PagesFor(r.asked[k])) <==> ReadWhole(m, HeardOf(AllCame(r.out)), k) {
      HasReadIs(m, HeardOf(AllCame(r.out)), k);
    }
  }

  /** The modem has read exactly these pages of burst `k`. */
  predicate HasRead(m: Modem, k: nat, pages: seq<Page>) {
    exists i :: 0 <= i < |m.takes| && m.takes[i].burst == k && m.takes[i].pages == pages
  }

  lemma HasReadIs(m: Modem, h: seq<Heard>, k: nat)
    requires k < |h| && !LastOpen(h[k].pages)
    ensures HasRead(m, k, h[k].pages) <==> ReadWhole(m, h, k)
  {
    hide LastOpen;
    forall i | 0 <= i < |m.takes| && m.takes[i].burst == k && m.takes[i].pages == h[k].pages ensures Complete(m.takes[i], h) {
    }
  }

  /** A burst that is over now is over for good. */
  lemma PastHeard(line: seq<Arrival>, n: nat, k: nat)
    requires n <= |line|
    requires var h := HeardOf(line[..n]); k < |h| && !LastOpen(h[k].pages)
    ensures k < |HeardOf(line)| && !LastOpen(HeardOf(line)[k].pages)
  {
    hide HeardOf, Extends;
    HeardGrows(line, n);
    assert Extends(HeardOf(line[..n])[k].pages, HeardOf(line)[k].pages);
    ClosedSame(HeardOf(line[..n])[k].pages, HeardOf(line)[k].pages);
  }
}
