/** The data port's queue: bytes go in with their DLE shielding taken off, and come out shielded. */
module DleDatas {
  import opened BitSeq
  import opened EngineTypes
  import opened DataStreams
  import opened DleCode

  /** `in` and `out` of the reversing loop after `j` turns. */
  function In(x: bv8, j: nat): bv8 { if j == 0 then x else In(x, j - 1) >> 1 }

  function Out(x: bv8, j: nat): bv8 { if j == 0 then 0 else (Out(x, j - 1) << 1) + (In(x, j - 1) & 1) }

  lemma EightTurns(x: bv8)
    ensures Out(x, 8) == Rev8(x)
  {
    assert In(x, 1) == x >> 1 && Out(x, 1) == x & 1;
    assert In(x, 2) == x >> 2 && Out(x, 2) == ((x & 1) << 1) + ((x >> 1) & 1);
    assert In(x, 3) == x >> 3 && Out(x, 3) == (Out(x, 2) << 1) + ((x >> 2) & 1);
    assert In(x, 4) == x >> 4 && Out(x, 4) == (Out(x, 3) << 1) + ((x >> 3) & 1);
    assert In(x, 5) == x >> 5 && Out(x, 5) == (Out(x, 4) << 1) + ((x >> 4) & 1);
    assert In(x, 6) == x >> 6 && Out(x, 6) == (Out(x, 5) << 1) + ((x >> 5) & 1);
    assert In(x, 7) == x >> 7 && Out(x, 7) == (Out(x, 6) << 1) + ((x >> 6) & 1);
  }

  /** The table of reversed bytes, filled bit by bit. */
  method InitBitRevTable() returns (table: seq<Byte>)
    ensures |table| == 256 && forall i :: 0 <= i < 256 ==> table[i] == Rev(Byte(i as bv8))
  {
    hide Rev8;
    table := [];
    while |table| < 256
      invariant |table| <= 256 && forall i :: 0 <= i < |table| ==> table[i] == Rev(Byte(i as bv8))
    {
      var x := |table| as bv8;
      var rest, out: bv8 := x, 0;
      var j := 0;
      while j < 8
        invariant j <= 8 && rest == In(x, j) && out == Out(x, j)
      {
        out := (out << 1) + (rest & 1);
        rest := rest >> 1;
        j := j + 1;
      }
      EightTurns(x);
      table := table + [Byte(out)];
    }
  }

  /** The bytes, reversed bit by bit if they are to be. */
  method TurnBytes(bitRev: bool, p: seq<Byte>) returns (tmp: seq<Byte>)
    ensures tmp == Turned(bitRev, p)
  {
    hide Rev;
    tmp := [];
    while |tmp| < |p|
      invariant |tmp| <= |p| && forall i :: 0 <= i < |tmp| ==> tmp[i] == if bitRev then Rev(p[i]) else p[i]
    {
      tmp := tmp + [if bitRev then Rev(p[|tmp|]) else p[|tmp|]];
    }
  }

  /** The bytes with every DLE doubled. */
  method Shield(p: seq<Byte>) returns (out: seq<Byte>)
    ensures out == Encode(p)
  {
    hide IsDle, Coded;
    out := [];
    var i := 0;
    while i < |p|
      invariant i <= |p| && out == Encode(p[..i])
    {
      EncodeAdd(p[..i], [p[i]]);
      assert p[..i + 1] == p[..i] + [p[i]];
      EncodeOne(p[i]);
      if IsDle(p[i]) {
        out := out + [DLE];
      }
      out := out + [p[i]];
      i := i + 1;
    }
    assert p[..|p|] == p;
  }

  lemma EncodeOne(b: Byte)
    ensures IsDle(b) ==> [DLE] + [b] == Encode([b])
    ensures !IsDle(b) ==> [b] == Encode([b])
  {
    assert [b][1..] == [] && Encode([]) == [];
  }

  class DleData {
    const data: DataStream<Byte>
    var dle: bool
    var recvEtx: bool
    var bitRev: bool

    ghost predicate Valid()
      reads this, data, data.Repr
    {
      this !in data.Repr && data.Valid()
    }

    constructor ()
      ensures Valid() && fresh(data.Repr) && data.Contents == [] && !data.eof && !dle && !recvEtx && !bitRev
    {
      data := new DataStream<Byte>(0);
      dle, recvEtx, bitRev := false, false, false;
    }

    method Clean()
      requires Valid()
      modifies this`dle, this`recvEtx, data
      ensures Valid() && data.Repr <= old(data.Repr) && data.Contents == [] && !data.eof && !dle && !recvEtx
    {
      data.Clean();
      dle, recvEtx := false, false;
    }

    /** A run is stored through a block buffer; `p` is not moved on between the blocks. */
    method StoreRun(p: seq<Byte>)
      requires Valid() && !data.eof
      modifies data.Repr
      ensures Valid() && fresh(data.Repr - old(data.Repr)) && !data.eof
      ensures data.Contents == old(data.Contents) + Stored(bitRev, p)
    {
      hide DataStream.Valid, Blocks, Turned;
      if !bitRev {
        var _ := data.PutData(p);
        return;
      }
      var cPut := |p|;
      ghost var done := [];
      while cPut > 0
        invariant 0 <= cPut <= |p| && Valid() && fresh(data.Repr - old(data.Repr)) && !data.eof
        invariant data.Contents == old(data.Contents) + done && done + Blocks(p, cPut) == Blocks(p, |p|)
      {
        var cTmp := if cPut > BLOCK then BLOCK else cPut;
        var tmp := TurnBytes(true, p[..cTmp]);
        NextBlock(p, cPut, done);
        var _ := data.PutData(tmp);
        done := done + tmp;
        cPut := cPut - cTmp;
      }
      NoBlock(p, done);
    }

    lemma NextBlock(p: seq<Byte>, left: nat, done: seq<Byte>)
      requires 0 < left <= |p|
      ensures var n := if left > BLOCK then BLOCK else left;
        done + Blocks(p, left) == done + Turned(true, p[..n]) + Blocks(p, left - n)
    {
      var n := if left > BLOCK then BLOCK else left;
      assert done + (RevAll(p[..n]) + Blocks(p, left - n)) == done + RevAll(p[..n]) + Blocks(p, left - n);
    }

    lemma NoBlock(p: seq<Byte>, done: seq<Byte>)
      ensures done + Blocks(p, 0) == done
    {
    }

    /** The first DLE of `p` at or after `from`: `memchr`. */
    method FindDle(p: seq<Byte>, from: nat) returns (k: nat)
      requires from <= |p|
      ensures k == Find(p, from)
    {
      hide IsDle;
      k := from;
      while k < |p| && !IsDle(p[k])
        invariant from <= k <= |p| && Find(p, from) == Find(p, k)
      {
        k := k + 1;
      }
    }

    /** One turn of the scan of `PutDleData`, on what is left of the call. */
    method PutRun(p: seq<Byte>) returns (rest: seq<Byte>)
      requires Valid() && !data.eof && p != [] && !(dle && IsEtx(p[0]))
      modifies this`dle, data.Repr
      ensures Valid() && fresh(data.Repr - old(data.Repr)) && !data.eof && |rest| < |p|
      ensures exists run :: data.Contents == old(data.Contents) + run
                && Scan(bitRev, old(dle), p) == Prepend(run, Scan(bitRev, dle, rest))
    {
      hide DataStream.Valid, IsDle, IsEtx, Find, Stored;
      var q, from := p, 0;
      if dle {
        dle := false;
        if IsDle(p[0]) { from := 1; } else { q := p[1..]; }
      }
      var k := FindDle(q, from);
      dle := k < |q|;
      StoreRun(q[..k]);
      rest := if k < |q| then q[k + 1..] else [];
    }

    /** `PutDleData`: takes the shielding off, up to the end of the data. */
    method PutDleData(buf: seq<Byte>) returns (res: int)
      requires Valid()
      modifies this`dle, data, data.Repr
      ensures Valid() && fresh(data.Repr - old(data.Repr))
      ensures old(data.eof) ==> res == -1 && data.Contents == old(data.Contents) && dle == old(dle) && data.eof
      ensures var d := Scan(bitRev, old(dle), buf);
        !old(data.eof) ==>
          data.Contents == old(data.Contents) + d.out && dle == d.dle && data.eof == d.eof && res == |buf| - d.rest
    {
      hide DataStream.Valid, IsDle, IsEtx, Scan, Prepend;
      if data.eof {
        return -1;
      }
      var p := buf;
      ghost var done := [];
      ScanEnds(bitRev, dle, buf);
      PrependNone(Scan(bitRev, dle, buf));
      while p != []
        invariant Valid() && fresh(data.Repr - old(data.Repr)) && !data.eof && |p| <= |buf|
        invariant data.Contents == old(data.Contents) + done
        invariant Scan(bitRev, old(dle), buf) == Prepend(done, Scan(bitRev, dle, p))
        decreases |p|
      {
        ScanEnds(bitRev, dle, p);
        if dle && IsEtx(p[0]) {
          dle := false;
          data.PutEof();
          PrependFacts(done, Decoded([], false, true, |p| - 1));
          return |buf| - (|p| - 1);
        }
        label L:
        ghost var before := data.Contents;
        p := PutRun(p);
        ghost var run := data.Contents[|before|..];
        assert data.Contents == before + run;
        PrependTwice(done, run, Scan(bitRev, dle, p));
        done := done + run;
      }
      ScanEnds(bitRev, dle, []);
      PrependFacts(done, Decoded([], dle, false, 0));
      return |buf|;
    }

    /** The shielded data still to be given out, as far as it is in. */
    ghost function Line(): (line: seq<Byte>)
      reads this, data
      ensures recvEtx ==> line == []
    {
      if recvEtx then [] else Encode(Turned(bitRev, data.Contents)) + End(data.eof)
    }

    /** One block of `GetDleData`, of at most `room` bytes; nothing comes of it when the queue is empty and not ended. */
    method GetBlock(room: nat) returns (out: seq<Byte>)
      requires Valid() && !recvEtx && room >= 4
      modifies this`recvEtx, data.Repr
      ensures Valid() && data.Repr == old(data.Repr) && data.eof == old(data.eof)
      ensures old(Line()) == out + Line() && |out| <= room
      ensures recvEtx ==> data.eof
      ensures out == [] ==> old(Line()) == [] && !recvEtx
      ensures out != [] && !recvEtx ==> |data.Contents| < old(|data.Contents|)
    {
      hide DataStream.Valid, Encode, Turned;
      EncodeNothing(bitRev);
      var cGet := (room - 2) / 2;
      if cGet > BLOCK { cGet := BLOCK; }
      var n, tmp := data.GetData(cGet);
      if n == -1 {
        recvEtx := true;
        return [DLE, ETX];
      }
      if n == 0 {
        return [];
      }
      var turned := TurnBytes(bitRev, tmp);
      out := Shield(turned);
      LineAdd(bitRev, tmp, data.Contents, data.eof);
      EncodeLength(turned);
    }

    /** `GetDleData`: never more than `count` bytes, and none lost or repeated. */
    method GetDleData(count: nat) returns (res: int, buf: seq<Byte>)
      requires Valid()
      modifies this`recvEtx, data.Repr
      ensures Valid() && data.Repr == old(data.Repr) && data.eof == old(data.eof)
      ensures old(Line()) == buf + Line() && |buf| <= count
      ensures res == if old(recvEtx) then -1 else |buf|
      ensures count >= 4 && old(Line()) != [] ==> buf != []
    {
      hide DataStream.Valid, Line;
      buf := [];
      if recvEtx {
        return -1, [];
      }
      while count - |buf| >= 4 && !recvEtx
        invariant Valid() && data.Repr == old(data.Repr) && data.eof == old(data.eof)
        invariant |buf| <= count && old(Line()) == buf + Line() && (recvEtx ==> buf != [])
        decreases if recvEtx then 0 else 1, |data.Contents|
      {
        ghost var before := Line();
        var out := GetBlock(count - |buf|);
        assert buf + (out + Line()) == buf + out + Line();
        buf := buf + out;
        if out == [] {
          return |buf|, buf;
        }
      }
      return |buf|, buf;
    }
  }

  function End(eof: bool): seq<Byte> { if eof then [DLE, ETX] else [] }

  lemma EncodeNothing(bitRev: bool)
    ensures Encode(Turned(bitRev, [])) == []
  {
  }

  lemma LineAdd(bitRev: bool, a: seq<Byte>, b: seq<Byte>, eof: bool)
    ensures Encode(Turned(bitRev, a + b)) + End(eof) == Encode(Turned(bitRev, a)) + (Encode(Turned(bitRev, b)) + End(eof))
  {
    TurnedAdd(bitRev, a, b);
    EncodeAdd(Turned(bitRev, a), Turned(bitRev, b));
    hide Encode, Turned;
  }

  lemma ScanEnds(bitRev: bool, dle: bool, p: seq<Byte>)
    ensures p == [] ==> Scan(bitRev, dle, p) == Decoded([], dle, false, 0)
    ensures p != [] && dle && IsEtx(p[0]) ==> Scan(bitRev, dle, p) == Decoded([], false, true, |p| - 1)
  {
  }

  lemma PrependNone(d: Decoded)
    ensures Prepend([], d) == d
  {
    assert [] + d.out == d.out;
  }

  lemma PrependFacts(run: seq<Byte>, d: Decoded)
    ensures Prepend(run, d).out == run + d.out && (d.out == [] ==> Prepend(run, d).out == run)
    ensures Prepend(run, d).dle == d.dle && Prepend(run, d).eof == d.eof && Prepend(run, d).rest == d.rest
  {
  }

  lemma PrependTwice(a: seq<Byte>, b: seq<Byte>, d: Decoded)
    ensures Prepend(a, Prepend(b, d)) == Prepend(a + b, d)
  {
    assert a + (b + d.out) == a + b + d.out;
  }
}
