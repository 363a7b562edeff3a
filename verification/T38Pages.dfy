/** What the buffers of one burst hold, as a function of its packets alone, and the proof that a stream holds that. */
module T38Pages {
  import opened BitSeq
  import opened EngineTypes
  import opened T38Types
  import opened T38Send
  import opened T38Recv
  import opened T38RecvSafety

  /** A buffer without its address. */
  datatype Page = Page(bytes: seq<Byte>, eof: bool, diag: Diag)

  function PageOf(b: Buf): Page { Page(b.bytes, b.eof, b.diag) }

  function PagesOf(bs: seq<Buf>): (r: seq<Page>)
    ensures |r| == |bs| && forall i :: 0 <= i < |bs| ==> r[i] == PageOf(bs[i])
  {
    if bs == [] then [] else [PageOf(bs[0])] + PagesOf(bs[1..])
  }

  const BLANK := Page([], false, {})

  function PageChanged(p: Page, c: Change): Page {
    match c
    case Append(bytes) => if p.eof then p else p.(bytes := p.bytes + bytes)
    case Mark(diag) => p.(diag := p.diag + diag)
    case Shut(diag) => p.(diag := p.diag + diag, eof := true)
  }

  function LastChanged(ps: seq<Page>, c: Change): seq<Page> {
    if ps == [] then [] else ps[..|ps| - 1] + [PageChanged(ps[|ps| - 1], c)]
  }

  predicate LastOpen(ps: seq<Page>) { ps != [] && !ps[|ps| - 1].eof }

  /** The pages after one data field: it goes to the last page while that is open. */
  function Filled(ps: seq<Page>, f: RxField): seq<Page> {
    if !LastOpen(ps) then ps
    else
      var p1 := LastChanged(ps, Append(f.data));
      var p2 := if BadFrame(f.kind) then LastChanged(p1, Mark({BadFcs})) else p1;
      var p3 := if EndsFrame(f.kind) then LastChanged(p2, Shut({})) + [BLANK] else p2;
      if EndsSignal(f.kind) then LastChanged(p3, Shut({NoCarrier})) else p3
  }

  function FilledAll(ps: seq<Page>, fs: seq<RxField>): seq<Page> {
    if fs == [] then ps else Filled(FilledAll(ps, fs[..|fs| - 1]), fs[|fs| - 1])
  }

  // ------------------------------------------------------------- a stream holds its pages

  predicate HoldsPages(s: Stream, ps: seq<Page>) {
    PagesOf(All(s)) == ps && (s.last.Some? <==> LastOpen(ps))
  }

  lemma ChangedPage(b: Buf, c: Change)
    ensures PageOf(Changed(b, c)) == PageChanged(PageOf(b), c)
  {
  }

  /** Only the newest buffer has the address in `last`. */
  lemma OnlyNewest(bs: seq<Buf>, last: Option<nat>, next: nat, i: nat)
    requires BufsOk(bs, last, next) && last.Some? && i < |bs|
    ensures bs[i].id == last.value <==> i == |bs| - 1
    ensures !bs[|bs| - 1].eof
  {
    assert IsLast(last, bs[|bs| - 1]);
  }

  lemma TouchedPage(bs: seq<Buf>, last: Option<nat>, c: Change, next: nat, i: nat)
    requires BufsOk(bs, last, next) && last.Some? && i < |bs|
    ensures PageOf(Touch(bs, last.value, c)[i]) == LastChanged(PagesOf(bs), c)[i]
  {
    OnlyNewest(bs, last, next, i);
    ChangedPage(bs[i], c);
    hide BufsOk, Changed, PageChanged;
  }

  lemma SamePages(ps: seq<Page>, bs: seq<Buf>, last: Option<nat>, c: Change, next: nat)
    requires BufsOk(bs, last, next) && last.Some? && ps == PagesOf(Touch(bs, last.value, c))
    ensures ps == LastChanged(PagesOf(bs), c)
  {
    hide BufsOk, Touch, PagesOf, PageOf, PageChanged, Changed;
    var ps1 := LastChanged(PagesOf(bs), c);
    assert |ps| == |ps1|;
    forall i | 0 <= i < |ps| ensures ps[i] == ps1[i] {
      TouchedPage(bs, last, c, next, i);
      hide LastChanged;
    }
  }

  lemma LastStaysOpen(ps: seq<Page>, c: Change)
    requires LastOpen(ps)
    ensures LastOpen(LastChanged(ps, c)) <==> !c.Shut?
  {
  }

  lemma TouchedPages(bs: seq<Buf>, last: Option<nat>, c: Change, next: nat)
    requires BufsOk(bs, last, next) && last.Some?
    ensures PagesOf(Touch(bs, last.value, c)) == LastChanged(PagesOf(bs), c)
    ensures LastOpen(PagesOf(bs)) && (LastOpen(LastChanged(PagesOf(bs), c)) <==> !c.Shut?)
  {
    OnlyNewest(bs, last, next, |bs| - 1);
    LastStaysOpen(PagesOf(bs), c);
    SamePages(PagesOf(Touch(bs, last.value, c)), bs, last, c, next);
    hide Touch, LastChanged, Changed;
  }

  lemma ApplyHolds(s: Stream, c: Change, next: nat)
    requires StreamOk(s, next) && s.last.Some?
    ensures HoldsPages(Apply(s, c), LastChanged(PagesOf(All(s)), c))
    ensures LastOpen(PagesOf(All(s)))
  {
    AllApply(s, c);
    ApplyOk(s, c, next);
    TouchedPages(All(s), s.last, c, next);
    hide BufsOk, Touch, Apply, LastChanged, LastOpen, PagesOf;
  }

  lemma PushHolds(s: Stream, next: nat)
    requires StreamOk(s, next) && s.last == None
    ensures HoldsPages(PushBuf(s, next), PagesOf(All(s)) + [BLANK])
  {
    assert All(PushBuf(s, next)) == All(s) + [Buf(next, [], false, {})];
    assert PagesOf(All(PushBuf(s, next))) == PagesOf(All(s)) + [BLANK];
  }

  /** `PutField`, as far as the open stream goes. */
  function StreamPut(s: Stream, f: RxField, next: nat): Stream {
    var s1 := Apply(s, Append(f.data));
    var s2 := if BadFrame(f.kind) then Apply(s1, Mark({BadFcs})) else s1;
    var s3 := if EndsFrame(f.kind) then PushBuf(Apply(s2, Shut({})), next) else s2;
    if EndsSignal(f.kind) then Apply(s3, Shut({NoCarrier})) else s3
  }

  function NextAfter(f: RxField, next: nat): nat { if EndsFrame(f.kind) then next + 1 else next }

  lemma PutHolds(s: Stream, f: RxField, next: nat)
    requires StreamOk(s, next) && s.last.Some?
    ensures HoldsPages(StreamPut(s, f, next), Filled(PagesOf(All(s)), f))
    ensures StreamOk(StreamPut(s, f, next), NextAfter(f, next))
  {
    hide StreamOk, PushBuf, Apply, PagesOf, LastChanged;
    var s1 := Apply(s, Append(f.data));
    ApplyHolds(s, Append(f.data), next); ApplyOk(s, Append(f.data), next);
    var s2 := if BadFrame(f.kind) then Apply(s1, Mark({BadFcs})) else s1;
    if BadFrame(f.kind) { ApplyHolds(s1, Mark({BadFcs}), next); ApplyOk(s1, Mark({BadFcs}), next); }
    var s3 := if EndsFrame(f.kind) then PushBuf(Apply(s2, Shut({})), next) else s2;
    if EndsFrame(f.kind) {
      ApplyHolds(s2, Shut({}), next); ApplyOk(s2, Shut({}), next);
      PushHolds(Apply(s2, Shut({})), next); PushOk(Apply(s2, Shut({})), next);
      PushLast(Apply(s2, Shut({})), next);
    }
    if EndsSignal(f.kind) { ApplyHolds(s3, Shut({NoCarrier}), NextAfter(f, next)); ApplyOk(s3, Shut({NoCarrier}), NextAfter(f, next)); }
  }

  lemma PushLast(s: Stream, next: nat)
    ensures PushBuf(s, next).last == Some(next)
  {
  }

  /** Of the two streams, one changes by the field. */
  lemma PutFieldStream(ss: Streams, t: Target, f: RxField)
    requires Points(ss, t)
    ensures PutField(ss, t, f) ==
      match t
      case Nowhere => ss
      case ToIn => Streams(Some(StreamPut(ss.inn.value, f, ss.next)), ss.saved, NextAfter(f, ss.next))
      case ToSaved => Streams(ss.inn, Some(StreamPut(ss.saved.value, f, ss.next)), NextAfter(f, ss.next))
  {
    hide Apply, PushBuf;
  }

  /** A field leaves alone what the stream is for and, unless nothing was being read, that something is. */
  lemma PutShape(s: Stream, f: RxField, next: nat)
    ensures var s1 := StreamPut(s, f, next);
      s1.row == s.row && s1.want == s.want && (s1.first.Some? <==> s.first.Some?) && |s1.queue| >= |s.queue|
      && (s.first.Some? ==> s1.first.value.id == s.first.value.id)
  {
    hide Touch;
  }
}
