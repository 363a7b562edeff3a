/** Asynchronous characters with errors: each wrong parity bit and each missing stop bit is counted, once, and nothing else is. */
module AsyncErrors {
  import opened BitSeq
  import opened Async

  /** A character as it comes: with its parity bit as it should be or not, and its stop bits, or a zero in front of them. */
  datatype Char = Char(data: Octet, stops: nat, flip: bool, broken: bool)

  predicate CharOk(u: Setup, x: Char) { if x.broken then !u.v14 else x.stops > 0 }

  function Flipped(bits: Bits, flip: bool): Bits { if flip && bits != [] then [!bits[0]] + bits[1..] else bits }

  function CharBits(u: Setup, x: Char): Bits
    requires SetupOk(u)
  {
    var d := x.data[..u.dataBits];
    [false] + d + Flipped(ParityBits(u, d), x.flip) + (if x.broken then [false] else []) + Ones(x.stops)
  }

  function CharsBits(u: Setup, xs: seq<Char>): Bits
    requires SetupOk(u)
  {
    if xs == [] then [] else CharBits(u, xs[0]) + CharsBits(u, xs[1..])
  }

  /** What is delivered: the characters that have a stop bit. */
  function Delivered(u: Setup, xs: seq<Char>): seq<Octet>
    requires SetupOk(u)
  {
    if xs == [] then [] else (if xs[0].broken then [] else [Masked(u, xs[0].data)]) + Delivered(u, xs[1..])
  }

  function WrongParities(u: Setup, xs: seq<Char>): nat {
    if xs == [] then 0 else (if xs[0].flip && u.parity != NoParity then 1 else 0) + WrongParities(u, xs[1..])
  }

  function MissingStops(xs: seq<Char>): nat { if xs == [] then 0 else (if xs[0].broken then 1 else 0) + MissingStops(xs[1..]) }

  /** The parity bit, right or wrong, after the data. */
  lemma ParityPass(u: Setup, r: Rx, b: Octet, flip: bool)
    requires SetupOk(u) && r.bitPos == u.dataBits + 1 && Aligned(u, r.reg) == Masked(u, b) && r.parityBit == ParityOf(b[..u.dataBits])
    ensures var r1 := PutAll(u, r, Flipped(ParityBits(u, b[..u.dataBits]), flip));
      && AtStop(u, r1, b, r.out) && r1.framingErrors == r.framingErrors
      && r1.parityErrors == r.parityErrors + (if flip && u.parity != NoParity then 1 else 0)
  {
    hide PutAll, ParityOf, Masked;
    OneBit(u, r, Flipped(ParityBits(u, b[..u.dataBits]), flip));
  }

  /** The data bits. */
  lemma DataPass(u: Setup, r: Rx, b: Octet)
    requires SetupOk(u) && r.bitPos == 1 && !r.parityBit
    ensures var r1 := PutAll(u, r, b[..u.dataBits]);
      && r1.bitPos == u.dataBits + 1 && Aligned(u, r1.reg) == Masked(u, b) && r1.parityBit == ParityOf(b[..u.dataBits])
      && r1.out == r.out && r1.framingErrors == r.framingErrors && r1.parityErrors == r.parityErrors
  {
    var d := b[..u.dataBits];
    DataBits(u, r, d);
    assert (r.reg[u.dataBits..] + d)[8 - u.dataBits..] == d;
    hide PutAll, ParityOf;
  }

  /** The start bit, the data and the parity bit, right or wrong. */
  lemma HeadPass(u: Setup, r: Rx, x: Char)
    requires SetupOk(u) && r.bitPos == 0
    ensures var d := x.data[..u.dataBits];
      var r1 := PutAll(u, r, [false] + d + Flipped(ParityBits(u, d), x.flip));
      && AtStop(u, r1, x.data, r.out) && r1.framingErrors == r.framingErrors
      && r1.parityErrors == r.parityErrors + (if x.flip && u.parity != NoParity then 1 else 0)
  {
    hide PutAll, AtStop, Flipped, ParityOf, ParityBits, Masked, Aligned;
    var d := x.data[..u.dataBits];
    var p := Flipped(ParityBits(u, d), x.flip);
    PutAllAdd(u, r, [false] + d, p);
    PutAllAdd(u, r, [false], d);
    OneBit(u, r, [false]);
    DataPass(u, PutBit(u, r, false), x.data);
    ParityPass(u, PutAll(u, r, [false] + d), x.data, x.flip);
  }

  lemma OneBit(u: Setup, r: Rx, bits: Bits)
    requires SetupOk(u) && |bits| <= 1
    ensures PutAll(u, r, bits) == if bits == [] then r else PutBit(u, r, bits[0])
  {
    if bits != [] { assert bits[1..] == []; }
  }

  /** The stop bits, or a zero in their place. */
  lemma TailPass(u: Setup, r: Rx, x: Char, out: seq<Octet>)
    requires SetupOk(u) && CharOk(u, x) && AtStop(u, r, x.data, out)
    ensures var r1 := PutAll(u, r, (if x.broken then [false] else []) + Ones(x.stops));
      && r1.bitPos == 0 && r1.parityErrors == r.parityErrors
      && r1.out == out + (if x.broken then [] else [Masked(u, x.data)])
      && r1.framingErrors == r.framingErrors + (if x.broken then 1 else 0)
  {
    if x.broken {
      PutAllAdd(u, r, [false], Ones(x.stops));
      OneBit(u, r, [false]);
      RestPass(u, PutBit(u, r, false), x.stops);
      assert out + [] == out;
    } else {
      assert [] + Ones(x.stops) == Ones(x.stops);
      StopPass(u, r, x.data, out, x.stops);
    }
    hide PutAll;
  }

  lemma CharPass(u: Setup, r: Rx, x: Char)
    requires SetupOk(u) && CharOk(u, x) && r.bitPos == 0
    ensures var r1 := PutAll(u, r, CharBits(u, x));
      && r1.bitPos == 0 && r1.out == r.out + (if x.broken then [] else [Masked(u, x.data)])
      && r1.parityErrors == r.parityErrors + (if x.flip && u.parity != NoParity then 1 else 0)
      && r1.framingErrors == r.framingErrors + (if x.broken then 1 else 0)
  {
    hide PutAll, AtStop, Flipped, ParityBits, Masked;
    var d := x.data[..u.dataBits];
    var head, tail := [false] + d + Flipped(ParityBits(u, d), x.flip), (if x.broken then [false] else []) + Ones(x.stops);
    assert CharBits(u, x) == head + tail;
    PutAllAdd(u, r, head, tail);
    HeadPass(u, r, x);
    TailPass(u, PutAll(u, r, head), x, r.out);
  }

  /** A character before the others. */
  lemma CharsFirst(u: Setup, xs: seq<Char>)
    requires SetupOk(u) && xs != []
    ensures CharsBits(u, xs) == CharBits(u, xs[0]) + CharsBits(u, xs[1..])
    ensures Delivered(u, xs) == (if xs[0].broken then [] else [Masked(u, xs[0].data)]) + Delivered(u, xs[1..])
    ensures WrongParities(u, xs) == (if xs[0].flip && u.parity != NoParity then 1 else 0) + WrongParities(u, xs[1..])
    ensures MissingStops(xs) == (if xs[0].broken then 1 else 0) + MissingStops(xs[1..])
  {
    hide CharBits, Masked;
  }

  lemma NoChars(u: Setup, r: Rx)
    requires SetupOk(u)
    ensures PutAll(u, r, CharsBits(u, [])) == r && Delivered(u, []) == [] && WrongParities(u, []) == MissingStops([]) == 0
  {
  }

  /**
   Any characters, some with a wrong parity bit and some with a zero for their first stop bit: those with a stop bit are
   delivered, in order, whatever their parity, and as many errors are counted of each kind as there are.
  */
  lemma {:induction false} ErrorsCounted(u: Setup, r: Rx, xs: seq<Char>)
    requires SetupOk(u) && r.bitPos == 0 && forall x :: x in xs ==> CharOk(u, x)
    ensures var r1 := PutAll(u, r, CharsBits(u, xs));
      && r1.bitPos == 0 && r1.out == r.out + Delivered(u, xs)
      && r1.parityErrors == r.parityErrors + WrongParities(u, xs) && r1.framingErrors == r.framingErrors + MissingStops(xs)
    decreases |xs|
  {
    hide PutAll, PutBit, CharBits, CharsBits, Masked, Delivered, WrongParities, MissingStops;
    if xs == [] {
      NoChars(u, r);
      assert r.out + [] == r.out;
    } else {
      CharsFirst(u, xs);
      CharPass(u, r, xs[0]);
      PutAllAdd(u, r, CharBits(u, xs[0]), CharsBits(u, xs[1..]));
      var r1 := PutAll(u, r, CharBits(u, xs[0]));
      ErrorsCounted(u, r1, xs[1..]);
      assert r1.out + Delivered(u, xs[1..]) == r.out + Delivered(u, xs);
    }
  }
}
