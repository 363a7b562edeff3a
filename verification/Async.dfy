/**
 Asynchronous characters: a start bit, 1 to 8 data bits, perhaps a parity bit, and stop bits, of which
 ITU-T V.14 may delete any. A character is the list of its bits, the low one first.
*/
module Async {
  import opened BitSeq

  type Octet = b: Bits | |b| == 8 witness Zeros(8)

  datatype Parity = NoParity | Even | Odd

  datatype Setup = Setup(dataBits: nat, parity: Parity, v14: bool)

  predicate SetupOk(u: Setup) { 1 <= u.dataBits <= 8 }

  /** The receiver: `bitPos` counts the bits of the character that have come, the start bit included. */
  datatype Rx = Rx(bitPos: nat, reg: Octet, parityBit: bool, out: seq<Octet>, parityErrors: nat, framingErrors: nat)

  /** The character in the low bits; the rest are zeros. */
  function Aligned(u: Setup, reg: Octet): Octet
    requires SetupOk(u)
  {
    reg[8 - u.dataBits..] + Zeros(8 - u.dataBits)
  }

  function PutBit(u: Setup, r: Rx, bit: bool): Rx
    requires SetupOk(u)
  {
    if r.bitPos == 0 then r.(bitPos := if bit then 0 else 1, parityBit := false, reg := Zeros(8))
    else if r.bitPos <= u.dataBits then
      r.(reg := r.reg[1..] + [bit], parityBit := r.parityBit != bit, bitPos := r.bitPos + 1)
    else if u.parity != NoParity && r.bitPos == u.dataBits + 1 then
      var want := if u.parity == Odd then !r.parityBit else r.parityBit;
      r.(parityBit := want, parityErrors := r.parityErrors + (if want != bit then 1 else 0), bitPos := r.bitPos + 1)
    else if bit then r.(out := r.out + [Aligned(u, r.reg)], reg := Aligned(u, r.reg), bitPos := 0)
    else if u.v14 then r.(out := r.out + [Aligned(u, r.reg)], bitPos := 1, parityBit := false, reg := Zeros(8))
    else r.(framingErrors := r.framingErrors + 1, bitPos := 0)
  }

  function PutAll(u: Setup, r: Rx, line: Bits): Rx
    requires SetupOk(u)
    decreases |line|
  {
    if line == [] then r else PutAll(u, PutBit(u, r, line[0]), line[1..])
  }

  // ------------------------------------------------------------- the line

  function ParityOf(bits: Bits): bool { if bits == [] then false else bits[0] != ParityOf(bits[1..]) }

  function ParityBits(u: Setup, data: Bits): Bits {
    match u.parity
    case NoParity => []
    case Even => [ParityOf(data)]
    case Odd => [!ParityOf(data)]
  }

  /** The start bit, the low data bits, and the parity bit of a character. */
  function Head(u: Setup, b: Octet): Bits
    requires SetupOk(u)
  {
    [false] + b[..u.dataBits] + ParityBits(u, b[..u.dataBits])
  }

  /** A character and the stop elements that are left of those that were sent with it. */
  datatype Item = Item(data: Octet, stops: nat)

  function Line(u: Setup, items: seq<Item>): Bits
    requires SetupOk(u)
  {
    if items == [] then [] else Head(u, items[0].data) + Ones(items[0].stops) + Line(u, items[1..])
  }

  /** A character as it is to be delivered: modulo 2 to the number of data bits. */
  function Masked(u: Setup, b: Octet): Octet
    requires SetupOk(u)
  {
    b[..u.dataBits] + Zeros(8 - u.dataBits)
  }

  function MaskedAll(u: Setup, items: seq<Item>): (r: seq<Octet>)
    requires SetupOk(u)
    ensures |r| == |items| && forall i :: 0 <= i < |r| ==> r[i] == Masked(u, items[i].data)
  {
    if items == [] then [] else [Masked(u, items[0].data)] + MaskedAll(u, items[1..])
  }

  // ------------------------------------------------------------- one character

  lemma {:induction false} PutAllAdd(u: Setup, r: Rx, a: Bits, b: Bits)
    requires SetupOk(u)
    ensures PutAll(u, r, a + b) == PutAll(u, PutAll(u, r, a), b)
    decreases |a|
  {
    hide PutBit;
    if a == [] {
      assert a + b == b;
    } else {
      assert (a + b)[1..] == a[1..] + b && (a + b)[0] == a[0];
      PutAllAdd(u, PutBit(u, r, a[0]), a[1..], b);
    }
  }

  lemma {:induction false} DataBits(u: Setup, r: Rx, bits: Bits)
    requires SetupOk(u) && 1 <= r.bitPos && r.bitPos + |bits| <= u.dataBits + 1
    ensures PutAll(u, r, bits) ==
            r.(bitPos := r.bitPos + |bits|, reg := r.reg[|bits|..] + bits, parityBit := r.parityBit != ParityOf(bits))
    decreases |bits|
  {
    if bits == [] {
      assert r.reg[0..] + [] == r.reg;
    } else {
      var r1 := PutBit(u, r, bits[0]);
      DataBits(u, r1, bits[1..]);
      assert r1.reg[|bits| - 1..] + bits[1..] == r.reg[|bits|..] + bits;
    }
  }

  /** Where the first stop bit, or the start bit in its place, is looked for. */
  function StopPos(u: Setup): nat { u.dataBits + 1 + (if u.parity == NoParity then 0 else 1) }

  /** The receiver at the end of the head of character `b`, with `out` delivered before it. */
  predicate AtStop(u: Setup, r: Rx, b: Octet, out: seq<Octet>)
    requires SetupOk(u)
  {
    r.bitPos == StopPos(u) && Aligned(u, r.reg) == Masked(u, b) && r.out == out
  }

  predicate Clean(r: Rx, r0: Rx) { r.parityErrors == r0.parityErrors && r.framingErrors == r0.framingErrors }

  /** From its start bit, a character comes to its stop position with no error. */
  lemma {:induction false} HeadPass(u: Setup, r: Rx, b: Octet)
    requires SetupOk(u) && r.bitPos == 1 && !r.parityBit && r.reg == Zeros(8)
    ensures var r1 := PutAll(u, r, b[..u.dataBits] + ParityBits(u, b[..u.dataBits])); AtStop(u, r1, b, r.out) && Clean(r1, r)
  {
    var d := b[..u.dataBits];
    PutAllAdd(u, r, d, ParityBits(u, d));
    DataBits(u, r, d);
    var r1 := PutAll(u, r, d);
    var reg := r.reg[u.dataBits..] + d;
    assert reg[8 - u.dataBits..] == d;
    hide ParityOf;
    if u.parity == NoParity {
      assert PutAll(u, r1, []) == r1;
    } else {
      var p := ParityBits(u, d)[0];
      assert ParityBits(u, d) == [p] && [p][1..] == [];
      assert PutAll(u, r1, [p]) == PutBit(u, r1, p);
    }
  }

  lemma {:induction false} RestPass(u: Setup, r: Rx, n: nat)
    requires SetupOk(u) && r.bitPos == 0
    ensures var r1 := PutAll(u, r, Ones(n)); r1.bitPos == 0 && r1.out == r.out && Clean(r1, r)
    decreases n
  {
    if n > 0 {
      assert Ones(n)[1..] == Ones(n - 1);
      RestPass(u, PutBit(u, r, true), n - 1);
    }
  }

  /** Stop elements, if any, deliver the character. */
  lemma StopPass(u: Setup, r: Rx, b: Octet, out: seq<Octet>, n: nat)
    requires SetupOk(u) && AtStop(u, r, b, out) && n > 0
    ensures var r1 := PutAll(u, r, Ones(n)); r1.bitPos == 0 && r1.out == out + [Masked(u, b)] && Clean(r1, r)
  {
    assert Ones(n)[1..] == Ones(n - 1);
    RestPass(u, PutBit(u, r, true), n - 1);
  }

  // ------------------------------------------------------------- the whole line

  /** Between characters: idle, or with one at its stop position whose stop elements are all gone. */
  predicate Between(u: Setup, r: Rx, done: seq<Octet>)
    requires SetupOk(u)
  {
    (r.bitPos == 0 && r.out == done)
    || (u.v14 && r.bitPos == StopPos(u) && done != [] && r.out == done[..|done| - 1] && Aligned(u, r.reg) == done[|done| - 1])
  }

  /** The start bit of the next character delivers the one before it. */
  lemma StartPass(u: Setup, r: Rx, done: seq<Octet>)
    requires SetupOk(u) && Between(u, r, done)
    ensures var r1 := PutBit(u, r, false);
      r1.bitPos == 1 && !r1.parityBit && r1.reg == Zeros(8) && r1.out == done && Clean(r1, r)
  {
    if r.bitPos != 0 { assert done[..|done| - 1] + [done[|done| - 1]] == done; }
  }

  lemma ItemPass(u: Setup, r: Rx, done: seq<Octet>, x: Item)
    requires SetupOk(u) && Between(u, r, done) && (x.stops > 0 || u.v14)
    ensures var r1 := PutAll(u, r, Head(u, x.data) + Ones(x.stops)); Between(u, r1, done + [Masked(u, x.data)]) && Clean(r1, r)
  {
    var d := x.data[..u.dataBits];
    var rest := d + ParityBits(u, d);
    var head := Head(u, x.data);
    assert head == [false] + rest && head[1..] == rest && head[0] == false;
    PutAllAdd(u, r, head, Ones(x.stops));
    StartPass(u, r, done);
    var r0 := PutBit(u, r, false);
    assert PutAll(u, r, head) == PutAll(u, r0, rest);
    HeadPass(u, r0, x.data);
    var r1 := PutAll(u, r, head);
    hide PutBit;
    if x.stops > 0 {
      StopPass(u, r1, x.data, done, x.stops);
    } else {
      assert Ones(0) == [] && PutAll(u, r1, []) == r1;
      var all := done + [Masked(u, x.data)];
      assert all[..|all| - 1] == done;
    }
  }

  lemma {:induction false} LinePass(u: Setup, r: Rx, done: seq<Octet>, items: seq<Item>)
    requires SetupOk(u) && Between(u, r, done) && (u.v14 || forall x :: x in items ==> x.stops > 0)
    ensures var r1 := PutAll(u, r, Line(u, items)); Between(u, r1, done + MaskedAll(u, items)) && Clean(r1, r)
    decreases |items|
  {
    hide PutBit, Between, Masked, Head;
    if items == [] {
      assert done + [] == done;
      assert PutAll(u, r, []) == r;
    } else {
      var first := Head(u, items[0].data) + Ones(items[0].stops);
      ItemPass(u, r, done, items[0]);
      PutAllAdd(u, r, first, Line(u, items[1..]));
      var done1 := done + [Masked(u, items[0].data)];
      LinePass(u, PutAll(u, r, first), done1, items[1..]);
      assert done1 + MaskedAll(u, items[1..]) == done + MaskedAll(u, items);
    }
  }

  /** With a bit after the data of the last character, whatever the bit, everything is delivered. */
  lemma {:induction false} NextBit(u: Setup, r: Rx, done: seq<Octet>, bit: bool)
    requires SetupOk(u) && Between(u, r, done)
    ensures PutBit(u, r, bit).out == done && Clean(PutBit(u, r, bit), r)
  {
    if r.bitPos != 0 { assert done[..|done| - 1] + [done[|done| - 1]] == done; }
  }

  /**
   Any characters, in any setting, with at least one stop element left of each, or any number under
   V.14: the receiver delivers them all, in order, with no error, provided some bit follows the data of
   the last.
  */
  lemma {:induction false} RoundTrip(u: Setup, r: Rx, items: seq<Item>, bit: bool)
    requires SetupOk(u) && r.bitPos == 0 && (u.v14 || forall x :: x in items ==> x.stops > 0)
    ensures var r1 := PutAll(u, r, Line(u, items) + [bit]);
      r1.out == r.out + MaskedAll(u, items) && r1.parityErrors == r.parityErrors && r1.framingErrors == r.framingErrors
  {
    LinePass(u, r, r.out, items);
    var r1 := PutAll(u, r, Line(u, items));
    NextBit(u, r1, r.out + MaskedAll(u, items), bit);
    PutAllAdd(u, r, Line(u, items), [bit]);
    assert [bit][1..] == [];
    assert PutAll(u, r1, [bit]) == PutBit(u, r1, bit);
  }
}
