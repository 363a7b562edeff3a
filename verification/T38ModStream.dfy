/** A stream of buffers as the object it is: `firstBuf`, the queue, and `lastBuf` pointing into them. */
module T38ModStreams {
  import opened BitSeq
  import opened EngineTypes
  import opened DataStreams
  import opened T38Types
  import opened T38Recv

  /** The buffers `bs` are separate objects with all their parts in `store`; buffer `k` holds what `held[k]` says. */
  ghost predicate Keep(bs: seq<DataStream<Byte>>, held: seq<Buf>, store: set<object>)
    reads store
  {
    && |bs| == |held|
    && (forall k :: 0 <= k < |bs| ==> bs[k] in store && bs[k].Repr <= store && bs[k].Valid())
    && (forall k :: 0 <= k < |bs| ==> Is(bs[k], held[k]))
    && (forall j, k :: 0 <= j < k < |bs| ==> bs[j].Repr !! bs[k].Repr)
  }

  ghost predicate Is(b: DataStream<Byte>, held: Buf)
    reads b
  {
    b.Contents == held.bytes && b.eof == held.eof && b.diag == held.diag
  }

  predicate Ascending(held: seq<Buf>) { forall i, j :: 0 <= i < j < |held| ==> held[i].id < held[j].id }

  /** The address `id` is above those of all the buffers. */
  predicate Newer(held: seq<Buf>, id: nat) { forall i :: 0 <= i < |held| ==> held[i].id < id }

  predicate AllNewer(held: seq<Buf>, others: seq<Buf>) { forall i :: 0 <= i < |others| ==> Newer(held, others[i].id) }

  predicate Stored(bs: seq<DataStream<Byte>>, store: set<object>) { forall k :: 0 <= k < |bs| ==> bs[k] in store }

  lemma StoredAppend(bs: seq<DataStream<Byte>>, store: set<object>, b: DataStream<Byte>)
    requires Stored(bs, store) && b in b.Repr
    ensures Stored(bs + [b], store + b.Repr)
  {
  }

  lemma AscendingAppend(held: seq<Buf>, b: Buf)
    requires Ascending(held) && Newer(held, b.id)
    ensures Ascending(held + [b])
  {
  }

  lemma KeepAppend(bs: seq<DataStream<Byte>>, held: seq<Buf>, store: set<object>, b: DataStream<Byte>, id: nat)
    requires Keep(bs, held, store) && b.Valid() && b.Repr !! store && Is(b, Buf(id, [], false, {}))
    ensures Keep(bs + [b], held + [Buf(id, [], false, {})], store + b.Repr)
  {
    hide DataStream.Valid;
  }

  lemma KeepFresh(bs: seq<DataStream<Byte>>, held: seq<Buf>, store: set<object>, b: DataStream<Byte>, id: nat)
    requires Keep(bs, held, store) && b.Valid() && b.Repr !! store && Is(b, Buf(id, [], false, {}))
    ensures Keep(bs + [b], held + [Buf(id, [], false, {})], store + b.Repr) && b in b.Repr
  {
    KeepAppend(bs, held, store, b, id);
  }

  lemma KeepTail(bs: seq<DataStream<Byte>>, held: seq<Buf>, store: set<object>)
    requires Keep(bs, held, store) && bs != []
    ensures Keep(bs[1..], held[1..], store)
  {
    hide DataStream.Valid;
  }

  lemma KeepDistinct(bs: seq<DataStream<Byte>>, held: seq<Buf>, store: set<object>)
    requires Keep(bs, held, store)
    ensures |bs| > 1 ==> bs[0] != bs[|bs| - 1]
  {
    if |bs| > 1 { assert bs[0].Repr !! bs[|bs| - 1].Repr; }
  }

  lemma KeepBoth(bs: seq<DataStream<Byte>>, held: seq<Buf>, store: set<object>,
                 bs1: seq<DataStream<Byte>>, held1: seq<Buf>, store1: set<object>)
    requires Keep(bs, held, store) && Keep(bs1, held1, store1) && store !! store1
    ensures Keep(bs + bs1, held + held1, store + store1)
  {
    hide DataStream.Valid;
  }

  /** The newest buffer takes what the caller puts there. */
  method PutNewest(ghost bs: seq<DataStream<Byte>>, ghost held: seq<Buf>, ghost store: set<object>, b: DataStream<Byte>, bytes: seq<Byte>)
    returns (res: int)
    requires Keep(bs, held, store) && bs != [] && b == bs[|bs| - 1]
    modifies b.Repr
    ensures fresh(b.Repr - old(b.Repr)) && res == if old(b.eof) then -1 else |bytes|
    ensures Keep(bs, held[|held| - 1 := Changed(held[|held| - 1], Append(bytes))], store + b.Repr)
  {
    hide DataStream.Valid;
    res := b.PutData(bytes);
  }

  method MarkNewest(ghost bs: seq<DataStream<Byte>>, ghost held: seq<Buf>, ghost store: set<object>, b: DataStream<Byte>, diag: Diag)
    requires Keep(bs, held, store) && bs != [] && b == bs[|bs| - 1]
    modifies b
    ensures Keep(bs, held[|held| - 1 := Changed(held[|held| - 1], Mark(diag))], store)
  {
    hide DataStream.Valid;
    b.SetDiag(b.diag + diag);
  }

  method ShutNewest(ghost bs: seq<DataStream<Byte>>, ghost held: seq<Buf>, ghost store: set<object>, b: DataStream<Byte>, diag: Diag)
    requires Keep(bs, held, store) && bs != [] && b == bs[|bs| - 1]
    modifies b
    ensures Keep(bs, held[|held| - 1 := Changed(held[|held| - 1], Shut(diag))], store)
  {
    hide DataStream.Valid;
    b.SetDiag(b.diag + diag);
    b.PutEof();
  }

  /** The oldest buffer gives up to `count` bytes. */
  method GetOldest(ghost bs: seq<DataStream<Byte>>, ghost held: seq<Buf>, ghost store: set<object>, b: DataStream<Byte>, count: nat)
    returns (res: int, bytes: seq<Byte>)
    requires Keep(bs, held, store) && bs != [] && b == bs[0]
    modifies b.Repr
    ensures Answer(res, bytes) == Read(held[0], count)
    ensures Keep(bs, held[0 := held[0].(bytes := held[0].bytes[|bytes|..])], store)
  {
    hide DataStream.Valid;
    res, bytes := b.GetData(count);
    assert held[0].bytes == bytes + b.Contents;
    assert bytes == held[0].bytes[..|bytes|] && b.Contents == held[0].bytes[|bytes|..];
  }

  /** The address of the newest buffer is no other's. */
  lemma {:induction false} TouchNewest(held: seq<Buf>, c: Change)
    requires Ascending(held) && held != []
    ensures Touch(held, held[|held| - 1].id, c) == held[|held| - 1 := Changed(held[|held| - 1], c)]
  {
    hide Changed, Touch;
    var n := |held| - 1;
    forall i | 0 <= i < n ensures held[i].id != held[n].id { assert held[i].id < held[n].id; }
    assert Touch(held, held[n].id, c) == held[n := Changed(held[n], c)];
  }

  lemma JoinFirst<T>(a: seq<T>, x: T, b: seq<T>)
    ensures a + [x] + b == a + ([x] + b)
  {
  }

  lemma JoinNext<T>(a: seq<T>, b: seq<T>)
    requires b != []
    ensures a + [b[0]] + b[1..] == a + b
  {
  }

  lemma JoinBefore<T>(x: T, a: seq<T>, b: seq<T>)
    ensures [x] + (a + b) == [x] + a + b
  {
  }

  class ModStream {
    var firstBuf: DataStream?<Byte>
    var bufQ: seq<DataStream<Byte>>
    var lastBuf: DataStream?<Byte>
    var row: ModRow
    var want: Want

    ghost var held: seq<Buf>
    ghost var store: set<object>

    ghost function Bufs(): seq<DataStream<Byte>>
      reads this`firstBuf, this`bufQ
    {
      if firstBuf == null then bufQ else [firstBuf] + bufQ
    }

    /** `lastBuf`, unless null, is the newest buffer. */
    ghost predicate Shape()
      reads this`firstBuf, this`bufQ, this`lastBuf, this`held, this`store
    {
      && this !in store && |held| == |Bufs()| && Ascending(held)
      && (lastBuf != null ==> Bufs() != [] && lastBuf == Bufs()[|Bufs()| - 1])
      && Stored(Bufs(), store)
    }

    ghost predicate Valid()
      reads this, store
    {
      Shape() && Keep(Bufs(), held, store)
    }

    /** The stream as the value the specification works on. */
    ghost function View(): (s: Stream)
      requires Shape()
      ensures s.row == row && s.want == want && (s.last == None <==> lastBuf == null) && (s.first == None <==> firstBuf == null)
      reads this`firstBuf, this`bufQ, this`lastBuf, this`held, this`store, this`row, this`want
    {
      Stream(if firstBuf == null then None else Some(held[0]), if firstBuf == null then held else held[1..],
             if lastBuf == null then None else Some(held[|held| - 1].id), row, want)
    }

    lemma ViewAll()
      requires Shape()
      ensures All(View()) == held
    {
    }

    lemma Queued()
      requires Shape()
      ensures View().queue == [] <==> bufQ == []
    {
    }

    constructor (row: ModRow, want: Want)
      ensures Valid() && store == {} && View() == NewStream(row, want)
    {
      firstBuf, bufQ, lastBuf := null, [], null;
      held, store := [], {};
      this.row, this.want := row, want;
    }

    lemma PushedView(before: Stream, id: nat)
      requires Shape() && lastBuf != null && before.row == row && before.want == want && (before.first.Some? <==> firstBuf != null)
      requires held == All(before) + [Buf(id, [], false, {})]
      ensures View() == T38Recv.PushBuf(before, id)
    {
      assert before.first.Some? ==> held[0] == before.first.value && held[1..] == before.queue + [Buf(id, [], false, {})];
    }

    /** With no buffer open, nothing is done. */
    lemma NothingDone(c: Change)
      requires Shape() && lastBuf == null
      ensures View() == Apply(View(), c)
    {
    }

    method Enqueue(b: DataStream<Byte>, ghost id: nat)
      requires Shape() && Newer(held, id)
      requires Keep(Bufs() + [b], held + [Buf(id, [], false, {})], store + b.Repr) && b in b.Repr && this !in b.Repr
      modifies this`bufQ, this`lastBuf, this`held, this`store
      ensures Valid() && store == old(store) + b.Repr
      ensures View() == T38Recv.PushBuf(old(View()), id)
    {
      hide Keep, DataStream.Valid, Ascending, Stored, Newer, T38Recv.PushBuf;
      ghost var before := View();
      ViewAll();
      AscendingAppend(held, Buf(id, [], false, {}));
      StoredAppend(Bufs(), store, b);
      ghost var bs := Bufs() + [b];
      if firstBuf != null { JoinBefore(firstBuf, bufQ, [b]); }
      lastBuf := b;
      bufQ := bufQ + [b];
      assert Bufs() == bs;
      held := held + [Buf(id, [], false, {})];
      store := store + b.Repr;
      hide View;
      PushedView(before, id);
    }

    method PushBuf(ghost id: nat)
      requires Valid() && Newer(held, id)
      modifies this`bufQ, this`lastBuf, this`held, this`store
      ensures Valid() && fresh(store - old(store))
      ensures View() == T38Recv.PushBuf(old(View()), id)
    {
      hide DataStream.Valid, Keep, View;
      var b := new DataStream<Byte>(0);
      KeepFresh(Bufs(), held, store, b, id);
      Enqueue(b, id);
    }

    method DeleteFirstBuf() returns (done: bool)
      requires Valid()
      modifies this`firstBuf, this`lastBuf, this`held
      ensures Valid() && firstBuf == null && done == old(firstBuf != null)
      ensures View() == DeleteFirst(old(View()))
    {
      hide DataStream.Valid, Keep, Newer;
      if firstBuf == null {
        return false;
      }
      KeepTail(Bufs(), held, store);
      KeepDistinct(Bufs(), held, store);
      assert Bufs()[1..] == bufQ;
      if |held| > 1 { assert held[0].id < held[|held| - 1].id; }
      if lastBuf == firstBuf {
        lastBuf := null;
      }
      firstBuf := null;
      held := held[1..];
      return true;
    }

    method PopBuf() returns (some: bool)
      requires Valid()
      modifies this`firstBuf, this`bufQ, this`lastBuf, this`held
      ensures Valid() && some == (View().first.Some?)
      ensures View() == T38Recv.PopBuf(old(View()))
    {
      hide DataStream.Valid, Keep, DeleteFirst;
      var _ := DeleteFirstBuf();
      assert View() == DeleteFirst(old(View()));
      if bufQ == [] {
        return false;
      }
      Dequeue();
      return true;
    }

    method Dequeue()
      requires Valid() && firstBuf == null && bufQ != []
      modifies this`firstBuf, this`bufQ
      ensures Valid() && firstBuf != null
      ensures View() == old(View()).(first := Some(old(View()).queue[0]), queue := old(View()).queue[1..])
    {
      hide DataStream.Valid, Keep;
      ghost var bs := Bufs();
      firstBuf := bufQ[0];
      bufQ := bufQ[1..];
      assert Bufs() == bs;
    }

    /** What `Apply` does, seen from the list of all the buffers. */
    lemma ApplyView(before: Stream, c: Change)
      requires Shape() && lastBuf != null && |All(before)| == |held| && Ascending(All(before))
      requires before.row == row && before.want == want && (before.first.Some? <==> firstBuf != null)
      requires before.last == Some(All(before)[|held| - 1].id)
      requires held == All(before)[|held| - 1 := Changed(All(before)[|held| - 1], c)]
      ensures View().(last := if c.Shut? then None else View().last) == Apply(before, c)
    {
      TouchNewest(All(before), c);
      var whole := Touch(All(before), before.last.value, c);
      if before.first.Some? {
        assert Apply(before, c).queue == Touch(before.queue, before.last.value, c);
        assert whole[1..] == Touch(before.queue, before.last.value, c);
      }
      hide Touch;
      assert held == whole;
    }

    lemma LastStored()
      requires Valid() && lastBuf != null
      ensures lastBuf in store && lastBuf.Repr <= store && this !in lastBuf.Repr && lastBuf in lastBuf.Repr
    {
      assert Bufs()[|Bufs()| - 1].Valid();
    }

    /** `c` was done to the buffer at `lastBuf`, of the stream `before`. */
    ghost predicate Done(before: Stream, c: Change)
      reads this`firstBuf, this`bufQ, this`lastBuf, this`held, this`store, this`row, this`want
    {
      Shape() && lastBuf != null && View().(last := if c.Shut? then None else View().last) == Apply(before, c)
    }

    method WriteLast(bytes: seq<Byte>) returns (res: int)
      requires Valid() && lastBuf != null
      modifies this`held, this`store, lastBuf.Repr
      ensures Valid() && fresh(store - old(store)) && Done(old(View()), Append(bytes))
    {
      hide DataStream.Valid, Keep, Changed, Apply;
      ghost var before := View();
      ViewAll();
      LastStored();
      res := PutNewest(Bufs(), held, store, lastBuf, bytes);
      held := held[|held| - 1 := Changed(held[|held| - 1], Append(bytes))];
      store := store + lastBuf.Repr;
      SameIds(before, Append(bytes));
      ApplyView(before, Append(bytes));
    }

    /** A change leaves the addresses as they are. */
    lemma SameIds(before: Stream, c: Change)
      requires Ascending(All(before)) && All(before) != []
      requires held == All(before)[|All(before)| - 1 := Changed(All(before)[|All(before)| - 1], c)]
      ensures Ascending(held)
    {
    }

    method PutData(bytes: seq<Byte>) returns (res: int)
      requires Valid()
      modifies this`held, this`store, store
      ensures Valid() && fresh(store - old(store))
      ensures View() == Apply(old(View()), Append(bytes))
      ensures old(lastBuf) == null ==> res == -1
    {
      hide DataStream.Valid, Keep;
      if lastBuf == null {
        return -1;
      }
      LastStored();
      hide Apply;
      res := WriteLast(bytes);
    }

    method MarkLast(diag: Diag)
      requires Valid() && lastBuf != null
      modifies this`held, lastBuf
      ensures Valid() && Done(old(View()), Mark(diag))
    {
      hide DataStream.Valid, Keep, Changed, Apply;
      ghost var before := View();
      ViewAll();
      LastStored();
      MarkNewest(Bufs(), held, store, lastBuf, diag);
      held := held[|held| - 1 := Changed(held[|held| - 1], Mark(diag))];
      SameIds(before, Mark(diag));
      ApplyView(before, Mark(diag));
    }

    method SetDiag(diag: Diag) returns (done: bool)
      requires Valid()
      modifies this`held, store
      ensures Valid() && done == (lastBuf != null)
      ensures View() == Apply(old(View()), Mark(diag))
    {
      hide DataStream.Valid, Keep;
      if lastBuf == null {
        return false;
      }
      LastStored();
      hide Apply;
      MarkLast(diag);
      return true;
    }

    method ShutLast(diag: Diag)
      requires Valid() && lastBuf != null
      modifies this`held, lastBuf
      ensures Valid() && Done(old(View()), Shut(diag))
    {
      hide DataStream.Valid, Keep, Changed, Apply;
      ghost var before := View();
      ViewAll();
      LastStored();
      ShutNewest(Bufs(), held, store, lastBuf, diag);
      held := held[|held| - 1 := Changed(held[|held| - 1], Shut(diag))];
      SameIds(before, Shut(diag));
      ApplyView(before, Shut(diag));
    }

    method PutEof(diag: Diag) returns (done: bool)
      requires Valid()
      modifies this`held, this`lastBuf, store
      ensures Valid() && lastBuf == null && done == old(lastBuf != null)
      ensures View() == Apply(old(View()), Shut(diag))
    {
      hide DataStream.Valid, Keep, Apply, Ascending, Stored;
      if lastBuf == null {
        NothingDone(Shut(diag));
        return false;
      }
      LastStored();
      ShutLast(diag);
      lastBuf := null;
      return true;
    }

    method ReadFirst(count: nat) returns (res: int, bytes: seq<Byte>)
      requires Valid() && firstBuf != null
      modifies this`held, firstBuf.Repr
      ensures Valid() && var b := old(View()).first.value;
        Answer(res, bytes) == Read(b, count) && |bytes| <= |b.bytes|
        && View() == old(View()).(first := Some(b.(bytes := b.bytes[|bytes|..])))
    {
      hide DataStream.Valid, Keep;
      FirstStored();
      res, bytes := GetOldest(Bufs(), held, store, firstBuf, count);
      ghost var b := held[0].(bytes := held[0].bytes[|bytes|..]);
      SameFirst(b);
      held := held[0 := b];
    }

    lemma SameFirst(b: Buf)
      requires Ascending(held) && held != [] && b.id == held[0].id
      ensures Ascending(held[0 := b])
    {
    }

    lemma FirstStored()
      requires Valid() && firstBuf != null
      ensures firstBuf in store && firstBuf.Repr <= store && this !in firstBuf.Repr
    {
      assert Bufs()[0] == firstBuf;
    }

    /** `GetData`, for data that is read as it came. */
    method GetData(count: nat) returns (res: int, bytes: seq<Byte>)
      requires Valid() && want != Want(DtRaw, DtHdlc)
      modifies this`held, store
      ensures Valid() && View() == T38Recv.GetData(old(View()), count, []).stream
      ensures Answer(res, bytes) == T38Recv.GetData(old(View()), count, []).answer
    {
      hide DataStream.Valid, Keep, Read, Shape;
      if firstBuf == null || want.dataType != want.dataTypeT38 {
        return -1, [];
      }
      FirstStored();
      res, bytes := ReadFirst(count);
    }

    /** The buffers of `from` change hands, one by one. */
    method TakeBufs(from: ModStream)
      requires this != from
      modifies this`bufQ, from`firstBuf, from`bufQ
      ensures bufQ == old(bufQ) + old(from.Bufs()) && from.firstBuf == null && from.bufQ == []
    {
      ghost var goal := bufQ + from.Bufs();
      if from.firstBuf != null {
        JoinFirst(bufQ, from.firstBuf, from.bufQ);
        bufQ := bufQ + [from.firstBuf];
        from.firstBuf := null;
      }
      hide Bufs;
      while from.bufQ != []
        invariant from.firstBuf == null && bufQ + from.bufQ == goal
        decreases |from.bufQ|
      {
        JoinNext(bufQ, from.bufQ);
        var buf := from.bufQ[0];
        from.bufQ := from.bufQ[1..];
        bufQ := bufQ + [buf];
      }
    }

    method HandOver(from: ModStream)
      requires this != from
      modifies this`bufQ, this`lastBuf, this`held, this`store
      modifies from`firstBuf, from`bufQ, from`lastBuf, from`held, from`store
      ensures Bufs() == old(Bufs()) + old(from.Bufs()) && lastBuf == old(from.lastBuf)
      ensures held == old(held) + old(from.held) && store == old(store) + old(from.store)
      ensures from.firstBuf == null && from.bufQ == [] && from.lastBuf == null && from.held == [] && from.store == {}
    {
      ghost var theirs := from.Bufs();
      if firstBuf != null { JoinBefore(firstBuf, bufQ, theirs); }
      TakeBufs(from);
      lastBuf := from.lastBuf;
      from.lastBuf := null;
      held := held + from.held;
      store := store + from.store;
      from.held, from.store := [], {};
    }

    lemma MovedShape(mine: seq<DataStream<Byte>>, theirs: seq<DataStream<Byte>>, ours: seq<Buf>, others: seq<Buf>)
      requires Ascending(ours) && Ascending(others) && AllNewer(ours, others)
      requires Bufs() == mine + theirs && held == ours + others && |mine| == |ours| && |theirs| == |others|
      requires this !in store && Stored(mine, store) && Stored(theirs, store)
      requires lastBuf != null ==> theirs != [] && lastBuf == theirs[|theirs| - 1]
      ensures Shape()
    {
    }

    lemma MovedView(before: Stream, from: Stream, n: nat)
      requires Shape() && before.row == row && before.want == want && n == |All(before)|
      requires held == All(before) + All(from) && (firstBuf != null <==> before.first.Some?)
      requires lastBuf == null <==> from.last == None
      requires from.last.Some? ==> All(from) != [] && from.last.value == All(from)[|All(from)| - 1].id
      ensures View() == MoveInto(before, from)
    {
      hide Ascending, Stored, DataStream.Valid, Keep;
      if before.first.Some? { JoinBefore(before.first.value, before.queue, All(from)); }
    }

    /** `Move`: this stream takes over the buffers of `from`, which come after its own. */
    method Move(from: ModStream)
      requires Valid() && from.Valid() && this != from && store !! from.store && this !in from.store && from !in store
      requires lastBuf == null && AllNewer(held, from.held)
      modifies this`bufQ, this`lastBuf, this`held, this`store
      modifies from`firstBuf, from`bufQ, from`lastBuf, from`held, from`store
      ensures Valid() && from.Valid() && store == old(store + from.store)
      ensures View() == MoveInto(old(View()), old(from.View())) && All(from.View()) == []
    {
      hide DataStream.Valid, Keep, Ascending, MoveInto;
      KeepBoth(Bufs(), held, store, from.Bufs(), from.held, from.store);
      ViewAll();
      from.ViewAll();
      KeepNone();
      AscendingNone();
      ghost var mine, theirs, ours, others := Bufs(), from.Bufs(), held, from.held;
      ghost var before, other := View(), from.View();
      HandOver(from);
      hide All;
      MovedShape(mine, theirs, ours, others);
      MovedView(before, other, |ours|);
    }

    lemma AscendingNone()
      ensures Ascending([])
    {
    }

    lemma KeepNone()
      ensures Keep([], [], {})
    {
    }
  }
}
