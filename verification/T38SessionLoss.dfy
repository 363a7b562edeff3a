/** Which pages of a call are read as bad: those in which the other engine said that a check was bad, or packets were lost of V.21. */
module T38SessionLoss {
  import opened BitSeq
  import opened EngineTypes
  import opened T38Types
  import opened T38Grammar
  import opened T38Recv
  import opened T38Pages
  import opened T38Session
  import opened T38SessionModem
  import opened T38SessionReads

  /** Page `k` of burst `j` is the open one. */
  predicate Opened(h: seq<Heard>, j: nat, k: nat) {
    |h| == j + 1 && |h[j].pages| == k + 1 && LastOpen(h[j].pages)
  }

  /** What comes when page `k` of burst `j` is open hurts it: a bad check, or a loss if the burst is of V.21. */
  predicate Hurts(h: seq<Heard>, a: Arrival, j: nat, k: nat) {
    Opened(h, j, k) && (if a.Came? then a.packet.Data? && a.packet.field == HdlcFcsBad else h[j].mod == V21)
  }

  ghost predicate HurtAt(line: seq<Arrival>, n: nat, j: nat, k: nat) { n < |line| && Hurts(HeardOf(line[..n]), line[n], j, k) }

  predicate BadPage(h: seq<Heard>, j: nat, k: nat) { j < |h| && k < |h[j].pages| && BadFcs in h[j].pages[k].diag }

  lemma ChangedBad(ps: seq<Page>, c: Change, k: nat)
    requires k < |ps|
    ensures |LastChanged(ps, c)| == |ps|
    ensures BadFcs in LastChanged(ps, c)[k].diag <==> BadFcs in ps[k].diag || (k == |ps| - 1 && !c.Append? && BadFcs in c.diag)
  {
  }

  lemma FilledBad(ps: seq<Page>, f: RxField, k: nat)
    requires LastOpen(ps)
    ensures |ps| <= |Filled(ps, f)| <= |ps| + 1
    ensures k < |ps| ==> (BadFcs in Filled(ps, f)[k].diag <==> BadFcs in ps[k].diag || (k == |ps| - 1 && BadFrame(f.kind)))
    ensures k == |ps| < |Filled(ps, f)| ==> BadFcs !in Filled(ps, f)[k].diag
  {
    hide LastChanged, LastOpen;
    SomeOpen(ps);
    var c1, c2, c3, c4 := Append(f.data), Mark({BadFcs}), Shut({}), Shut({NoCarrier});
    if k < |ps| { ChangedBad(ps, c1, k); } else { ChangedBad(ps, c1, 0); }
    var p1 := LastChanged(ps, c1);
    if k < |p1| { ChangedBad(p1, c2, k); } else { ChangedBad(p1, c2, 0); }
    var p2 := if BadFrame(f.kind) then LastChanged(p1, c2) else p1;
    if k < |p2| { ChangedBad(p2, c3, k); } else { ChangedBad(p2, c3, 0); }
    var p3 := if EndsFrame(f.kind) then LastChanged(p2, c3) + [BLANK] else p2;
    if k < |p3| { ChangedBad(p3, c4, k); } else { ChangedBad(p3, c4, 0); }
  }

  lemma SomeOpen(ps: seq<Page>)
    ensures LastOpen(ps) ==> |ps| > 0
  {
  }

  lemma BadPacket(h: seq<Heard>, p: Packet, j: nat, k: nat)
    ensures BadPage(HeardNext(h, p), j, k) <==> BadPage(h, j, k) || Hurts(h, Came(p), j, k)
  {
    hide Filled, LastOpen;
    if p.Data? && h != [] {
      var ps := h[|h| - 1].pages;
      SomeOpen(ps);
      if LastOpen(ps) { FilledBad(ps, Arrives(p.field), k); } else { ClosedFilled(ps, Arrives(p.field)); }
    }
  }

  lemma ClosedFilled(ps: seq<Page>, f: RxField)
    ensures !LastOpen(ps) ==> Filled(ps, f) == ps
  {
  }

  lemma BadThen(h: seq<Heard>, a: Arrival, j: nat, k: nat)
    ensures BadPage(HeardThen(h, a), j, k) <==> BadPage(h, j, k) || Hurts(h, a, j, k)
  {
    hide LastChanged, HeardNext, LastOpen;
    if a.Came? {
      BadPacket(h, a.packet, j, k);
    } else if h != [] {
      var ps := h[|h| - 1].pages;
      SomeOpen(ps);
      if LastOpen(ps) { if k < |ps| { ChangedBad(ps, Mark({BadFcs}), k); } else { ChangedBad(ps, Mark({BadFcs}), 0); } }
    }
  }

  /** A page is bad if and only if something hurt it while it was open; what hurts another page leaves it alone. */
  lemma {:induction false} BadIffHurt(line: seq<Arrival>, j: nat, k: nat)
    ensures BadPage(HeardOf(line), j, k) <==> exists n :: HurtAt(line, n, j, k)
  {
    hide BadPage, Hurts, HeardThen;
    if line == [] {
      NoneBad(j, k);
    } else {
      var n := |line| - 1;
      var before := line[..n];
      BadIffHurt(before, j, k);
      BadThen(HeardOf(before), line[n], j, k);
      forall i: nat | i < n ensures HurtAt(line, i, j, k) <==> HurtAt(before, i, j, k) { assert line[..i] == before[..i]; }
      assert HurtAt(line, n, j, k) <==> Hurts(HeardOf(before), line[n], j, k);
    }
  }

  lemma NoneBad(j: nat, k: nat)
    ensures !BadPage([], j, k)
  {
  }

  /**
   So, in every call, a page that the modem has read to its end is read as bad if and only if the other engine said so of
   it, or packets were lost while it was coming in by V.21.
  */
  lemma {:induction false} ReadBadIffHurt(line: seq<Arrival>, moves: seq<Move>, i: nat, k: nat)
    requires LineGram(line) != Gram.Broken
    requires var takes := Play(line, moves).m.takes; i < |takes| && k < |takes[i].pages| && takes[i].pages[k].eof
    ensures var t := Play(line, moves).m.takes[i];
      BadFcs in t.pages[k].diag <==> exists n :: HurtAt(line, n, t.burst, k)
  {
    hide Play, HeardOf, LineGram, HurtAt;
    Reads(line, moves);
    var t := Play(line, moves).m.takes[i];
    assert Agrees(t.pages, HeardOf(line)[t.burst].pages);
    assert PageAgrees(t.pages[k], HeardOf(line)[t.burst].pages[k]);
    BadIffHurt(line, t.burst, k);
  }
}
