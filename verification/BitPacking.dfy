/** Numbers laid bit by bit into a stream of octets, in either bit order, and read back. */
module BitPacking {
  import opened BitSeq
  import opened BitValues

  type Octet = x: nat | x < 256 witness 0

  datatype Field = Field(value: nat, width: nat)

  /** The low `n` bits of `v`, the high bit first. */
  function HighFirst(v: nat, n: nat): (r: Bits)
    ensures |r| == n
  {
    if n == 0 then [] else HighFirst(v / 2, n - 1) + [v % 2 == 1]
  }

  /** The low `n` bits of `v` in the order they go down the stream. */
  function Laid(lsbFirst: bool, v: nat, n: nat): (r: Bits)
    ensures |r| == n
  {
    if lsbFirst then LowFirst(v, n) else HighFirst(v, n)
  }

  /** The number that a piece of the stream stands for. */
  function Number(lsbFirst: bool, bits: Bits): nat { if lsbFirst then Value(bits) else HighValue(bits) }

  function HighValue(bits: Bits): nat {
    if bits == [] then 0 else 2 * HighValue(bits[..|bits| - 1]) + Digit(bits[|bits| - 1])
  }

  function OctetsLaid(lsbFirst: bool, octets: seq<Octet>): (r: Bits)
    ensures |r| == 8 * |octets|
  {
    if octets == [] then [] else OctetsLaid(lsbFirst, octets[..|octets| - 1]) + Laid(lsbFirst, octets[|octets| - 1], 8)
  }

  function FieldsLaid(lsbFirst: bool, fields: seq<Field>): Bits {
    if fields == [] then [] else Laid(lsbFirst, fields[0].value, fields[0].width) + FieldsLaid(lsbFirst, fields[1..])
  }

  /** What reading numbers of these widths off a stream gives. */
  function Parse(lsbFirst: bool, stream: Bits, widths: seq<nat>): seq<nat> {
    if widths == [] || widths[0] > |stream| then []
    else [Number(lsbFirst, stream[..widths[0]])] + Parse(lsbFirst, stream[widths[0]..], widths[1..])
  }

  function Widths(fields: seq<Field>): (r: seq<nat>)
    ensures |r| == |fields|
  {
    seq(|fields|, i requires 0 <= i < |fields| => fields[i].width)
  }

  function Values(fields: seq<Field>): (r: seq<nat>)
    ensures |r| == |fields|
  {
    seq(|fields|, i requires 0 <= i < |fields| => Low(fields[i].value, fields[i].width))
  }

  // ------------------------------------------------------------- 32-bit words

  /** Bitwise or. */
  function Or(a: nat, b: nat): nat
    decreases a + b
  {
    if a == 0 && b == 0 then 0
    else (if a % 2 == 1 || b % 2 == 1 then 1 else 0) + 2 * Or(a / 2, b / 2)
  }

  lemma {:induction false} OrZero(b: nat)
    ensures Or(0, b) == b
    decreases b
  {
    if b > 0 { OrZero(b / 2); }
  }

  /** Bits that do not meet just stand beside each other. */
  lemma {:induction false} OrBeside(low: nat, high: nat, n: nat)
    requires low < Pow2(n)
    ensures Or(low, Up(high, n)) == low + Up(high, n)
    decreases n
  {
    if n == 0 {
      OrZero(high);
    } else {
      var p := high * Pow2(n - 1);
      assert high * Pow2(n) == 2 * p by { Associate(high, Pow2(n - 1)); }
      OrBeside(low / 2, high, n - 1);
      OrStep(low, p);
    }
  }

  lemma Associate(a: nat, p: nat)
    ensures a * (2 * p) == 2 * (a * p)
  {
  }

  lemma OrStep(low: nat, p: nat)
    requires Or(low / 2, p) == low / 2 + p
    ensures Or(low, 2 * p) == low + 2 * p
  {
    assert (2 * p) / 2 == p && (2 * p) % 2 == 0;
  }

  lemma {:induction false} OrSwap(a: nat, b: nat)
    ensures Or(a, b) == Or(b, a)
    decreases a + b
  {
    if a != 0 || b != 0 { OrSwap(a / 2, b / 2); }
  }

  lemma {:induction false} Pow2Add(m: nat, n: nat)
    ensures Pow2(m + n) == Pow2(m) * Pow2(n)
    decreases m
  {
    if m > 0 {
      Pow2Add(m - 1, n);
      calc {
        Pow2(m + n);
        2 * Pow2(m - 1 + n);
        2 * (Pow2(m - 1) * Pow2(n));
        (2 * Pow2(m - 1)) * Pow2(n);
        Pow2(m) * Pow2(n);
      }
    }
  }

  // ------------------------------------------------------------- division by powers of two

  /** Dividing by two and then by `p` is dividing by `2 * p`. */
  lemma HalveFirst(v: nat, p: nat)
    requires p > 0
    ensures v / (2 * p) == v / 2 / p && v % (2 * p) == 2 * (v / 2 % p) + v % 2
  {
    var q, r := v / 2 / p, v / 2 % p;
    assert v / 2 == p * q + r;
    assert v == 2 * (p * q + r) + v % 2;
    assert p * q * 2 == (2 * p) * q;
    Quotient(v, 2 * p, q, 2 * r + v % 2);
  }

  lemma Quotient(v: nat, d: nat, q: nat, r: nat)
    requires d > 0 && v == d * q + r && r < d
    ensures v / d == q && v % d == r
  {
    var q1, r1 := v / d, v % d;
    assert v == d * q1 + r1 && r1 < d;
    if q1 < q {
      assert d * q >= d * (q1 + 1) by { Scale(d, q1 + 1, q); }
    } else if q1 > q {
      assert d * q1 >= d * (q + 1) by { Scale(d, q + 1, q1); }
    }
  }

  lemma Scale(d: nat, a: nat, b: nat)
    requires a <= b
    ensures d * a <= d * b
  {
  }

  /** `v << n`, of unbounded width. */
  function Up(v: nat, n: nat): nat { v * Pow2(n) }

  /** `v & ((1 << n) - 1)`. */
  function Low(v: nat, n: nat): (r: nat)
    ensures r < Pow2(n) && r <= v
  {
    Divide(v, Pow2(n));
    v % Pow2(n)
  }

  /** `v >> n`. */
  function Down(v: nat, n: nat): (r: nat)
    ensures r <= v
  {
    Divide(v, Pow2(n));
    v / Pow2(n)
  }

  lemma Divide(v: nat, p: nat)
    requires p > 0
    ensures 0 <= v / p <= v && 0 <= v % p < p && v % p <= v && v == p * (v / p) + v % p
  {
    var q, r := v / p, v % p;
    assert v == p * q + r;
    Scale(q, 1, p);
  }

  /** A number is what its low bits say, under the rest. */
  lemma Parts(v: nat, n: nat)
    ensures v == Low(v, n) + Up(Down(v, n), n)
  {
    hide Pow2;
    Divide(v, Pow2(n));
  }

  lemma Whole(low: nat, high: nat, n: nat)
    requires low < Pow2(n)
    ensures Low(low + Up(high, n), n) == low && Down(low + Up(high, n), n) == high
  {
    hide Pow2;
    Quotient(low + high * Pow2(n), Pow2(n), high, low);
  }

  // ------------------------------------------------------------- splitting a number's bits

  /** The first `m` bits of a number, and then the rest. */
  lemma {:induction false} LowSplit(v: nat, m: nat, n: nat)
    ensures LowFirst(v, m + n) == LowFirst(v, m) + LowFirst(Down(v, m), n)
    decreases m
  {
    if m > 0 {
      LowSplit(v / 2, m - 1, n);
      HalveFirst(v, Pow2(m - 1));
    }
  }

  lemma {:induction false} HighSplit(v: nat, m: nat, n: nat)
    ensures HighFirst(v, m + n) == HighFirst(Down(v, n), m) + HighFirst(v, n)
    decreases n
  {
    if n > 0 {
      HighSplit(v / 2, m, n - 1);
      HalveFirst(v, Pow2(n - 1));
    }
  }

  /** Bits above the `k`-th do not show in the first `n`. */
  lemma {:induction false} LaidMod(lsbFirst: bool, v: nat, k: nat, n: nat)
    requires n <= k
    ensures Laid(lsbFirst, Low(v, k), n) == Laid(lsbFirst, v, n)
    decreases n
  {
    if n > 0 {
      LaidMod(lsbFirst, v / 2, k - 1, n - 1);
      HalveFirst(v, Pow2(k - 1));
      assert Low(v, k) % 2 == v % 2 && Low(v, k) / 2 == Low(v / 2, k - 1);
    }
  }

  /** A laid number is read back modulo its width. */
  lemma {:induction false} NumberLaid(lsbFirst: bool, v: nat, n: nat)
    ensures Number(lsbFirst, Laid(lsbFirst, v, n)) == Low(v, n)
    decreases n
  {
    if n > 0 {
      NumberLaid(lsbFirst, v / 2, n - 1);
      HalveFirst(v, Pow2(n - 1));
      var bits := Laid(lsbFirst, v, n);
      if lsbFirst { assert bits[1..] == Laid(lsbFirst, v / 2, n - 1); }
      else { assert bits[..n - 1] == Laid(lsbFirst, v / 2, n - 1); }
    }
  }

  lemma {:induction false} NoBits(lsbFirst: bool, n: nat)
    ensures Laid(lsbFirst, 0, n) == Zeros(n)
    decreases n
  {
    if n > 0 { NoBits(lsbFirst, n - 1); }
  }

  lemma {:induction false} OctetsAppend(lsbFirst: bool, a: seq<Octet>, o: Octet)
    ensures OctetsLaid(lsbFirst, a + [o]) == OctetsLaid(lsbFirst, a) + Laid(lsbFirst, o, 8)
  {
    assert (a + [o])[..|a|] == a;
  }

  lemma Regroup(a: Bits, b: Bits, c: Bits)
    ensures a + b + c == a + (b + c)
  {
  }

  lemma TakeFront(a: Bits, b: Bits, n: nat)
    requires n <= |a|
    ensures (a + b)[..n] == a[..n] && (a + b)[n..] == a[n..] + b
  {
  }

  lemma Tails(fields: seq<Field>)
    requires fields != []
    ensures Widths(fields)[1..] == Widths(fields[1..]) && Values(fields)[1..] == Values(fields[1..])
    ensures Widths(fields)[0] == fields[0].width && Values(fields)[0] == Low(fields[0].value, fields[0].width)
  {
    hide Low;
  }

  /** Numbers laid one after the other, whatever follows them, are read back as they were, each modulo its width. */
  lemma {:induction false} RoundTrip(lsbFirst: bool, fields: seq<Field>, padding: Bits)
    ensures Parse(lsbFirst, FieldsLaid(lsbFirst, fields) + padding, Widths(fields)) == Values(fields)
    decreases |fields|
  {
    hide Laid, Number, Widths, Values, Low;
    if fields != [] {
      var head, rest := Laid(lsbFirst, fields[0].value, fields[0].width), FieldsLaid(lsbFirst, fields[1..]);
      NumberLaid(lsbFirst, fields[0].value, fields[0].width);
      RoundTrip(lsbFirst, fields[1..], padding);
      Regroup(head, rest, padding);
      TakeFront(head, rest + padding, fields[0].width);
      assert head[..fields[0].width] == head && head[fields[0].width..] + (rest + padding) == rest + padding;
      Tails(fields);
    }
  }

  // ------------------------------------------------------------- whole runs

  /** What a put does: octets that go out, and the bits that wait before and after. */
  predicate PutStep(lsbFirst: bool, before: Bits, f: Field, out: seq<Octet>, after: Bits) {
    OctetsLaid(lsbFirst, out) + after == before + Laid(lsbFirst, f.value, f.width)
  }

  /** What the flush sends: the waiting bits and the zeros that fill their octet. */
  predicate FlushStep(lsbFirst: bool, before: Bits, out: seq<Octet>) {
    exists n: nat :: n < 8 && OctetsLaid(lsbFirst, out) == before + Zeros(n)
  }

  /** What a get does to the bits that are still to be read. */
  predicate GetStep(lsbFirst: bool, before: Bits, width: nat, x: nat, after: Bits) {
    width <= |before| && x == Number(lsbFirst, before[..width]) && after == before[width..]
  }

  function Joined(outs: seq<seq<Octet>>): seq<Octet> { if outs == [] then [] else outs[0] + Joined(outs[1..]) }

  lemma {:induction false} OctetsJoin(lsbFirst: bool, a: seq<Octet>, b: seq<Octet>)
    ensures OctetsLaid(lsbFirst, a + b) == OctetsLaid(lsbFirst, a) + OctetsLaid(lsbFirst, b)
    decreases |b|
  {
    hide Laid;
    if b == [] {
      assert a + b == a;
    } else {
      var n := |b| - 1;
      OctetsJoin(lsbFirst, a, b[..n]);
      assert (a + b)[..|a| + n] == a + b[..n];
    }
  }

  lemma {:induction false} AllPuts(lsbFirst: bool, fields: seq<Field>, outs: seq<seq<Octet>>, waiting: seq<Bits>)
    requires |outs| == |fields| && |waiting| == |fields| + 1
    requires forall i :: 0 <= i < |fields| ==> PutStep(lsbFirst, waiting[i], fields[i], outs[i], waiting[i + 1])
    ensures OctetsLaid(lsbFirst, Joined(outs)) + waiting[|fields|] == waiting[0] + FieldsLaid(lsbFirst, fields)
    decreases |fields|
  {
    hide Laid, OctetsLaid;
    if fields == [] {
      EmptyLaid(lsbFirst);
    } else {
      AllPuts(lsbFirst, fields[1..], outs[1..], waiting[1..]);
      OctetsJoin(lsbFirst, outs[0], Joined(outs[1..]));
      assert PutStep(lsbFirst, waiting[0], fields[0], outs[0], waiting[1]);
      Chain(OctetsLaid(lsbFirst, outs[0]), OctetsLaid(lsbFirst, Joined(outs[1..])), waiting[|fields|],
            waiting[1], FieldsLaid(lsbFirst, fields[1..]), waiting[0], Laid(lsbFirst, fields[0].value, fields[0].width));
    }
  }

  lemma EmptyLaid(lsbFirst: bool)
    ensures OctetsLaid(lsbFirst, []) == []
  {
  }

  lemma Chain(a: Bits, b: Bits, last: Bits, second: Bits, rest: Bits, first: Bits, head: Bits)
    requires a + second == first + head && b + last == second + rest
    ensures a + b + last == first + (head + rest)
  {
    assert a + b + last == a + (second + rest);
    assert a + (second + rest) == first + head + rest;
  }

  lemma {:induction false} AllGets(lsbFirst: bool, widths: seq<nat>, xs: seq<nat>, left: seq<Bits>)
    requires |xs| == |widths| && |left| == |widths| + 1
    requires forall i :: 0 <= i < |widths| ==> GetStep(lsbFirst, left[i], widths[i], xs[i], left[i + 1])
    ensures Parse(lsbFirst, left[0], widths) == xs
    decreases |widths|
  {
    hide Number;
    if widths != [] {
      assert GetStep(lsbFirst, left[0], widths[0], xs[0], left[1]);
      AllGets(lsbFirst, widths[1..], xs[1..], left[1..]);
    }
  }

  /** Whatever is put, and flushed, the gets of the same widths give back, each value modulo its width. */
  lemma {:induction false} PutFlushGet(lsbFirst: bool, fields: seq<Field>, outs: seq<seq<Octet>>, waiting: seq<Bits>, last: seq<Octet>,
                    xs: seq<nat>, left: seq<Bits>)
    requires |outs| == |xs| == |fields| && |waiting| == |left| == |fields| + 1 && waiting[0] == []
    requires forall i :: 0 <= i < |fields| ==> PutStep(lsbFirst, waiting[i], fields[i], outs[i], waiting[i + 1])
    requires FlushStep(lsbFirst, waiting[|fields|], last)
    requires left[0] == OctetsLaid(lsbFirst, Joined(outs) + last)
    requires forall i :: 0 <= i < |fields| ==> GetStep(lsbFirst, left[i], fields[i].width, xs[i], left[i + 1])
    ensures xs == Values(fields)
  {
    hide Laid, OctetsLaid, Parse, FieldsLaid, PutStep, GetStep, Zeros;
    AllPuts(lsbFirst, fields, outs, waiting);
    OctetsJoin(lsbFirst, Joined(outs), last);
    var n: nat :| n < 8 && OctetsLaid(lsbFirst, last) == waiting[|fields|] + Zeros(n);
    AllGets(lsbFirst, Widths(fields), xs, left);
    RoundTrip(lsbFirst, fields, Zeros(n));
    Regroup(OctetsLaid(lsbFirst, Joined(outs)), waiting[|fields|], Zeros(n));
    assert [] + FieldsLaid(lsbFirst, fields) == FieldsLaid(lsbFirst, fields);
  }
}
