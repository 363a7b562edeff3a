/**
 The queue under every codec: a FIFO made of 256-element chunks. A `DataStream` is, to its
 callers, a sequence with an end-of-data flag. The program queues bytes; nothing here
 depends on what the elements are.
*/
module DataStreams {
  import opened EngineTypes

  const CHUNK: nat := 256

  class ChunkStream<T(0)> {
    const data: array<T>
    var first: nat
    var last: nat
    /** The bytes written and not yet read. */
    ghost var view: seq<T>

    ghost predicate Valid()
      reads this, data
    {
      && data.Length == CHUNK
      && first <= last <= CHUNK
      && view == data[first..last]
    }

    constructor ()
      ensures Valid() && fresh(data) && last == 0 && view == []
    {
      data := new T[CHUNK];
      first, last := 0, 0;
      view := [];
    }

    /** Takes as much as fits; -1 when the chunk is full. */
    method Write(buf: seq<T>) returns (len: int)
      requires Valid()
      modifies this, data
      ensures Valid()
      ensures old(last) == CHUNK ==> len == -1 && last == old(last) && view == old(view)
      ensures old(last) < CHUNK ==>
        && len == last - old(last) == (if |buf| < CHUNK - old(last) then |buf| else CHUNK - old(last))
        && view == old(view) + buf[..len]
    {
      len := CHUNK - last;
      if len == 0 {
        return -1;
      }
      if len > |buf| {
        len := |buf|;
      }
      forall i | 0 <= i < len {
        data[last + i] := buf[i];
      }
      last := last + len;
      assert data[first..last] == old(data[first..last]) + buf[..len];
      view := view + buf[..len];
    }

    /** Hands out what is there, at most `count`; -1 when the chunk is spent. */
    method Read(count: nat) returns (len: int, buf: seq<T>)
      requires Valid()
      modifies this`first, this`view
      ensures Valid()
      ensures old(first) == CHUNK ==> len == -1 && buf == [] && view == old(view) == []
      ensures old(first) < CHUNK ==>
        && len == |buf| == (if count < |old(view)| then count else |old(view)|)
        && old(view) == buf + view
    {
      if CHUNK == first {
        return -1, [];
      }
      len := last - first;
      if len > count {
        len := count;
      }
      buf := data[first..first + len];
      first := first + len;
      view := view[len..];
    }
  }

  function Flatten<T>(views: seq<seq<T>>): seq<T> {
    if views == [] then [] else views[0] + Flatten(views[1..])
  }

  lemma {:induction false} FlattenAppend<T>(a: seq<seq<T>>, b: seq<seq<T>>)
    ensures Flatten(a + b) == Flatten(a) + Flatten(b)
  {
    if a == [] {
      assert a + b == b;
    } else {
      assert (a + b)[1..] == a[1..] + b;
      FlattenAppend(a[1..], b);
    }
  }

  lemma FlattenEmpty<T>(views: seq<seq<T>>)
    ensures Flatten(views + [[]]) == Flatten(views)
  {
    FlattenAppend(views, [[]]);
    assert Flatten<T>([[]]) == [];
  }

  /** Bytes `x` taken from the oldest chunk. */
  lemma FlattenTake<T>(views: seq<seq<T>>, x: seq<T>, rest: seq<T>)
    requires views != [] && views[0] == x + rest
    ensures Flatten(views) == x + Flatten(views[0 := rest])
    ensures x == [] && |views| == 1 && rest == [] ==> Flatten(views[0 := rest]) == []
  {
    assert views[0 := rest][1..] == views[1..];
  }

  lemma FlattenNone<T>(views: seq<seq<T>>)
    ensures views == [] ==> Flatten(views) == []
    ensures views != [] && views[0] == [] ==> Flatten(views) == Flatten(views[1..])
  {
  }

  /** Bytes `x` put into the newest chunk. */
  function Grown<T>(views: seq<seq<T>>, x: seq<T>): seq<seq<T>>
    requires views != []
  {
    views[|views| - 1 := views[|views| - 1] + x]
  }

  lemma FlattenGrow<T>(views: seq<seq<T>>, x: seq<T>)
    requires views != []
    ensures Flatten(Grown(views, x)) == Flatten(views) + x
  {
    var n := |views| - 1;
    var v := views[n];
    assert views == views[..n] + [v] && views[n := v + x] == views[..n] + [v + x];
    FlattenAppend(views[..n], [v]);
    FlattenAppend(views[..n], [v + x]);
    assert Flatten([v]) == v && Flatten([v + x]) == v + x;
  }

  /**
   The chunks `cs`, oldest first, are separate objects with all their parts in `store`; chunk
   `k` holds `views[k]`, and every chunk but the newest is full.
  */
  ghost predicate Hold<T(0)>(cs: seq<ChunkStream<T>>, views: seq<seq<T>>, store: set<object>)
    reads store
  {
    && |cs| == |views|
    && (forall k :: 0 <= k < |cs| ==> cs[k] in store && cs[k].data in store)
    && (forall k :: 0 <= k < |cs| ==> cs[k].Valid() && cs[k].view == views[k])
    && (forall k :: 0 <= k < |cs| - 1 ==> cs[k].last == CHUNK)
    && (forall j, k :: 0 <= j < k < |cs| ==> cs[j] != cs[k] && cs[j].data != cs[k].data)
  }

  lemma HoldAppend<T(0)>(cs: seq<ChunkStream<T>>, views: seq<seq<T>>, store: set<object>, c: ChunkStream<T>)
    requires Hold(cs, views, store)
    requires cs != [] ==> cs[|cs| - 1].last == CHUNK
    requires c !in store && c.data !in store && c.Valid() && c.view == []
    ensures Hold(cs + [c], views + [[]], store + {c, c.data})
  {
  }

  lemma HoldTail<T(0)>(cs: seq<ChunkStream<T>>, views: seq<seq<T>>, store: set<object>)
    requires Hold(cs, views, store) && cs != []
    ensures Hold(cs[1..], views[1..], store)
  {
  }

  method WriteNewest<T(0)>(ghost cs: seq<ChunkStream<T>>, ghost views: seq<seq<T>>, ghost store: set<object>,
                           c: ChunkStream<T>, buf: seq<T>)
    returns (len: int)
    requires Hold(cs, views, store) && cs != [] && c == cs[|cs| - 1]
    modifies c, c.data
    ensures old(c.last) == CHUNK ==> len == -1 && c.last == CHUNK && Hold(cs, views, store)
    ensures old(c.last) != CHUNK ==>
      0 <= len <= |buf| && (buf != [] ==> len > 0) && Hold(cs, Grown(views, buf[..len]), store)
  {
    len := c.Write(buf);
  }

  method ReadOldest<T(0)>(ghost cs: seq<ChunkStream<T>>, ghost views: seq<seq<T>>, ghost store: set<object>,
                          c: ChunkStream<T>, count: nat)
    returns (len: int, buf: seq<T>)
    requires Hold(cs, views, store) && cs != [] && c == cs[0]
    modifies c
    ensures len < 0 ==> buf == [] && views[0] == [] && Hold(cs, views, store)
    ensures len >= 0 ==> |buf| == len <= count && len <= |views[0]| && views[0] == buf + views[0][len..]
    ensures len >= 0 ==> Hold(cs, views[0 := views[0][len..]], store)
    ensures len == 0 && count > 0 ==> |cs| == 1 && views[0] == []
  {
    len, buf := c.Read(count);
  }

  lemma FirstStored<T(0)>(cs: seq<ChunkStream<T>>, views: seq<seq<T>>, store: set<object>)
    requires Hold(cs, views, store) && cs != []
    ensures cs[0] in store
  {
  }

  class DataStream<T(0)> {
    var firstBuf: ChunkStream?<T>
    var bufQ: seq<ChunkStream<T>>
    var lastBuf: ChunkStream?<T>
    var busy: nat
    var threshold: nat
    var eof: bool
    var diag: Diag

    ghost var Contents: seq<T>
    ghost var Repr: set<object>
    ghost var views: seq<seq<T>>
    ghost var store: set<object>

    /** All chunks, oldest first. */
    ghost function Chunks(): seq<ChunkStream<T>>
      reads this`firstBuf, this`bufQ
    {
      if firstBuf == null then bufQ else [firstBuf] + bufQ
    }

    /** The representation is this object and its chunks. */
    ghost predicate Owns()
      reads this`Repr, this`store
    {
      Repr == {this} + store && this !in store
    }

    /** The chunks hold `Contents`. */
    ghost predicate Holds()
      reads this`firstBuf, this`bufQ, this`Contents, this`views, this`store, store
    {
      && |views| == |Chunks()|
      && Hold(Chunks(), views, store)
      && Contents == Flatten(views)
    }

    /** The chunks hold `Contents`; `lastBuf`, unless null, is the newest chunk. */
    ghost predicate Shape()
      reads this`firstBuf, this`bufQ, this`lastBuf, this`Contents, this`views, this`store, store
    {
      Holds() && (lastBuf != null ==> LastIsNewest())
    }

    ghost predicate LastIsNewest()
      reads this`firstBuf, this`bufQ, this`lastBuf, this`store
    {
      && Chunks() != []
      && lastBuf == Chunks()[|Chunks()| - 1]
      && lastBuf in store && lastBuf.data in store
    }

    /** Between calls `lastBuf` is null only on an empty queue, and never refers to a deleted chunk. */
    ghost predicate Valid()
      reads this, Repr
      ensures Valid() ==> this in Repr
    {
      && Owns() && Shape()
      && busy == |Contents|
      && (lastBuf == null ==> Chunks() == [])
    }

    /** `Valid` in the middle of `PutData`: a newest chunk that is full may be let go of. */
    ghost predicate Filling()
      reads this, Repr
    {
      && Owns() && Shape()
      && (lastBuf == null && Chunks() != [] ==> Chunks()[|Chunks()| - 1].last == CHUNK)
    }

    constructor (threshold: nat)
      ensures Valid() && fresh(Repr)
      ensures Contents == [] && !eof && diag == {} && this.threshold == threshold
    {
      firstBuf, bufQ, lastBuf, busy := null, [], null, 0;
      this.threshold, eof, diag := threshold, false, {};
      Contents, views, store := [], [], {};
      Repr := {this};
    }

    ghost predicate Same(eof: bool, diag: Diag, threshold: nat, busy: nat)
      reads this
    {
      this.eof == eof && this.diag == diag && this.threshold == threshold && this.busy == busy
    }

    method Enqueue(chunk: ChunkStream<T>)
      requires Filling() && lastBuf == null
      requires Hold(Chunks() + [chunk], views + [[]], store + {chunk, chunk.data})
      requires this !in store + {chunk, chunk.data}
      modifies this
      ensures Same(old(eof), old(diag), old(threshold), old(busy))
      ensures Owns() && Shape() && lastBuf == chunk && Contents == old(Contents)
      ensures Repr == old(Repr) + {chunk, chunk.data}
    {
      hide Hold, Flatten;
      FlattenEmpty(views);
      ghost var cs := Chunks() + [chunk];
      lastBuf := chunk;
      bufQ := bufQ + [chunk];
      assert Chunks() == cs;
      views := views + [[]];
      store := store + {chunk, chunk.data};
      Repr := {this} + store;
    }

    method NewChunk()
      requires Filling() && lastBuf == null
      modifies this
      ensures Same(old(eof), old(diag), old(threshold), old(busy))
      ensures Owns() && Shape() && lastBuf != null && lastBuf.last == 0 && Contents == old(Contents)
      ensures fresh(Repr - old(Repr)) && fresh(lastBuf) && fresh(lastBuf.data)
    {
      hide Flatten, Hold;
      var chunk := new ChunkStream<T>();
      HoldAppend(Chunks(), views, store, chunk);
      Enqueue(chunk);
    }

    method WriteLast(buf: seq<T>) returns (len: int)
      requires Owns() && Shape() && lastBuf != null
      modifies this, lastBuf, lastBuf.data
      ensures Same(old(eof), old(diag), old(threshold), old(busy)) && lastBuf == old(lastBuf) && Repr == old(Repr)
      ensures Owns() && Shape()
      ensures old(lastBuf.last) == CHUNK ==> len == -1 && lastBuf.last == CHUNK && Contents == old(Contents)
      ensures old(lastBuf.last) != CHUNK ==> 0 <= len <= |buf| && (buf != [] ==> len > 0)
      ensures old(lastBuf.last) != CHUNK ==> Contents == old(Contents) + buf[..len]
    {
      hide Flatten, Hold;
      len := WriteNewest(Chunks(), views, store, lastBuf, buf);
      if len >= 0 {
        FlattenGrow(views, buf[..len]);
        views := Grown(views, buf[..len]);
        Contents := Contents + buf[..len];
      }
    }

    /** One turn of the loop of `PutData`. */
    method PutSome(buf: seq<T>) returns (len: int)
      requires Filling() && buf != []
      modifies Repr
      ensures Filling() && fresh(Repr - old(Repr))
      ensures Same(old(eof), old(diag), old(threshold), old(busy))
      ensures len < 0 ==> old(lastBuf) != null && lastBuf == null && Contents == old(Contents)
      ensures len >= 0 ==> 0 < len <= |buf| && lastBuf != null && Contents == old(Contents) + buf[..len]
    {
      hide Flatten, Hold;
      if lastBuf == null {
        NewChunk();
      }
      len := WriteLast(buf);
      if len < 0 {
        lastBuf := null;
      }
    }

    method PutData(buf: seq<T>) returns (res: int)
      requires Valid()
      modifies Repr
      ensures Valid() && fresh(Repr - old(Repr))
      ensures eof == old(eof) && diag == old(diag) && threshold == old(threshold)
      ensures eof ==> res == -1 && Contents == old(Contents)
      ensures !eof ==> res == |buf| && Contents == old(Contents) + buf
    {
      hide Flatten, Hold, Shape;
      if eof {
        return -1;
      }
      var done := 0;
      while done < |buf|
        invariant 0 <= done <= |buf|
        invariant Filling() && fresh(Repr - old(Repr))
        invariant lastBuf == null ==> Chunks() == [] || done < |buf|
        invariant Contents == old(Contents) + buf[..done]
        invariant Same(old(eof), old(diag), old(threshold), old(busy))
        decreases |buf| - done, if lastBuf != null then 1 else 0
      {
        var len := PutSome(buf[done..]);
        if len >= 0 {
          assert buf[..done] + buf[done..][..len] == buf[..done + len];
          done := done + len;
        }
      }
      busy := busy + done;
      assert buf[..done] == buf;
      return done;
    }

    /** `Valid` in the middle of `GetData`: with no chunk left, `lastBuf` may be a deleted one. */
    ghost predicate Draining()
      reads this, Repr
    {
      Owns() && Holds() && (Chunks() != [] ==> LastIsNewest())
    }

    /** Reads from the chunk in front; a spent chunk is deleted. */
    method ReadFirst(count: nat) returns (len: int, buf: seq<T>)
      requires Draining() && firstBuf != null && firstBuf in store
      modifies this, firstBuf
      ensures Same(old(eof), old(diag), old(threshold), old(busy)) && Repr == old(Repr) && store == old(store)
      ensures bufQ == old(bufQ) && Draining() && old(Contents) == buf + Contents
      ensures len < 0 ==> buf == [] && firstBuf == null
      ensures len >= 0 ==> len == |buf| <= count && firstBuf == old(firstBuf)
      ensures len == 0 && count > 0 ==> bufQ == [] && Contents == []
    {
      hide Hold, Flatten;
      len, buf := ReadOldest(Chunks(), views, store, firstBuf, count);
      if len < 0 {
        HoldTail(Chunks(), views, store);
        assert Chunks()[1..] == bufQ;
        FlattenNone(views);
        firstBuf := null;
        views := views[1..];
      } else {
        FlattenTake(views, buf, views[0][len..]);
        views := views[0 := views[0][len..]];
        Contents := Flatten(views);
      }
    }

    /** Makes the oldest queued chunk the one in front. */
    method Front() returns (some: bool)
      requires Draining()
      modifies this
      ensures Same(old(eof), old(diag), old(threshold), old(busy)) && Repr == old(Repr) && store == old(store)
      ensures Draining() && Chunks() == old(Chunks()) && Contents == old(Contents)
      ensures some == (firstBuf != null) == (Chunks() != [])
      ensures some ==> firstBuf in store
      ensures !some ==> lastBuf == null && Contents == []
    {
      hide Hold, Flatten;
      FlattenNone(views);
      if firstBuf == null {
        if bufQ == [] {
          lastBuf := null;
          return false;
        }
        ghost var cs := Chunks();
        firstBuf, bufQ := bufQ[0], bufQ[1..];
        assert Chunks() == cs;
      }
      FirstStored(Chunks(), views, store);
      return true;
    }

    /** The loop of `GetData`. */
    method Drain(count: nat) returns (buf: seq<T>)
      requires Valid() && Contents != []
      modifies Repr
      ensures Draining() && Repr == old(Repr)
      ensures Chunks() == [] ==> lastBuf == null
      ensures Same(old(eof), old(diag), old(threshold), old(busy))
      ensures old(Contents) == buf + Contents && |buf| <= count
      ensures |buf| == count || Contents == []
    {
      hide Hold, Flatten, LastIsNewest;
      assert Chunks() != [] by {
        FlattenNone(views);
      }
      hide Holds;
      buf := [];
      while |buf| < count
        invariant |buf| <= count
        invariant Draining() && Repr == old(Repr)
        invariant Chunks() == [] ==> |buf| < count
        invariant old(Contents) == buf + Contents
        invariant Same(old(eof), old(diag), old(threshold), old(busy))
        decreases count - |buf|, |Chunks()|
      {
        var some := Front();
        if !some {
          return;
        }
        var len, part := ReadFirst(count - |buf|);
        assert buf + (part + Contents) == (buf + part) + Contents;
        if len == 0 {
          return;
        }
        buf := buf + part;
      }
    }

    method GetData(count: nat) returns (res: int, buf: seq<T>)
      requires Valid()
      modifies Repr
      ensures Valid() && Repr == old(Repr)
      ensures eof == old(eof) && diag == old(diag) && threshold == old(threshold)
      ensures old(Contents) == buf + Contents
      ensures old(Contents) == [] ==> buf == [] && res == if eof then -1 else 0
      ensures old(Contents) != [] ==> res == |buf| == if count < |old(Contents)| then count else |old(Contents)|
    {
      hide Hold, Flatten;
      if busy == 0 {
        return if eof then -1 else 0, [];
      }
      buf := Drain(count);
      busy := busy - |buf|;
      return |buf|, buf;
    }

    method PutEof()
      requires Valid()
      modifies this
      ensures Valid() && Repr == old(Repr) && eof && Contents == old(Contents) && diag == old(diag) && threshold == old(threshold)
    {
      hide Hold, Flatten;
      eof := true;
    }

    method SetDiag(diag: Diag)
      requires Valid()
      modifies this
      ensures Valid() && Repr == old(Repr) && this.diag == diag
      ensures eof == old(eof) && Contents == old(Contents) && threshold == old(threshold)
    {
      hide Hold, Flatten;
      this.diag := diag;
    }

    method Clean()
      requires Valid()
      modifies this
      ensures Valid() && Repr <= old(Repr) && Contents == [] && !eof && diag == {} && threshold == old(threshold)
    {
      hide Shape;
      bufQ := [];
      firstBuf, lastBuf, busy := null, null, 0;
      eof, diag := false, {};
      Contents, views, store, Repr := [], [], {}, {this};
      EmptyShape();
    }

    lemma EmptyShape()
      requires firstBuf == null && bufQ == [] && lastBuf == null
      requires Contents == [] && views == [] && store == {}
      ensures Shape() && Chunks() == []
    {
    }
  }
}
