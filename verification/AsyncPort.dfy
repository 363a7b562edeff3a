/** The asynchronous sender and receiver as the objects they are, one bit at a time. */
module AsyncPorts {
  import opened BitSeq
  import opened Async

  const END_OF_DATA: int := -7

  class AsyncRx {
    const setup: Setup
    var bitPos: nat
    var byteInProgress: Octet
    var parityBit: bool
    var parityErrors: nat
    var framingErrors: nat
    var put: seq<Octet>

    ghost function View(): Rx
      reads this
    {
      Rx(bitPos, byteInProgress, parityBit, put, parityErrors, framingErrors)
    }

    constructor (setup: Setup)
      ensures this.setup == setup && View() == Rx(0, Zeros(8), false, [], 0, 0)
    {
      this.setup := setup;
      bitPos, byteInProgress, parityBit, put, parityErrors, framingErrors := 0, Zeros(8), false, [], 0, 0;
    }

    /** `async_rx_put_bit`; a signal status from -1 to -5, or the end of data, starts over. */
    method PutBit(bit: int)
      requires SetupOk(setup)
      modifies this
      ensures -5 <= bit <= -1 || bit == END_OF_DATA ==> View() == old(View()).(bitPos := 0, reg := Zeros(8))
      ensures bit < 0 && !(-5 <= bit <= -1 || bit == END_OF_DATA) ==> View() == old(View())
      ensures bit >= 0 ==> View() == Async.PutBit(setup, old(View()), bit == 1)
    {
      if bit < 0 {
        if -5 <= bit || bit == END_OF_DATA {
          bitPos, byteInProgress := 0, Zeros(8);
        }
        return;
      }
      var b := bit == 1;
      if bitPos == 0 {
        if !b { bitPos := bitPos + 1; }
        parityBit, byteInProgress := false, Zeros(8);
      } else if bitPos <= setup.dataBits {
        byteInProgress := byteInProgress[1..] + [b];
        parityBit := parityBit != b;
        bitPos := bitPos + 1;
      } else if setup.parity != NoParity && bitPos == setup.dataBits + 1 {
        if setup.parity == Odd { parityBit := !parityBit; }
        if parityBit != b { parityErrors := parityErrors + 1; }
        bitPos := bitPos + 1;
      } else if b {
        byteInProgress := Aligned(setup, byteInProgress);
        put := put + [byteInProgress];
        bitPos := 0;
      } else if setup.v14 {
        put := put + [Aligned(setup, byteInProgress)];
        bitPos, parityBit, byteInProgress := 1, false, Zeros(8);
      } else {
        framingErrors := framingErrors + 1;
        bitPos := 0;
      }
    }
  }

  /** The characters still to be got, each sent with the same number of stop bits. */
  function Items(queue: seq<Octet>, stops: nat): (r: seq<Item>)
    ensures |r| == |queue|
  {
    if queue == [] then [] else [Item(queue[0], stops)] + Items(queue[1..], stops)
  }

  class AsyncTx {
    const setup: Setup
    const stopBits: nat
    var bitPos: nat
    var byteInProgress: Bits
    var parityBit: bool
    var queue: seq<Octet>

    ghost var rest: Bits

    /** `rest` is what is left of the character being sent. */
    ghost predicate Valid()
      reads this
    {
      && SetupOk(setup) && stopBits > 0
      && (bitPos == 0 ==> rest == [])
      && (1 <= bitPos <= setup.dataBits ==>
            |byteInProgress| >= setup.dataBits + 1 - bitPos
            && var left := byteInProgress[..setup.dataBits + 1 - bitPos];
               rest == left + Tail(parityBit != ParityOf(left)) + Ones(stopBits))
      && (setup.parity != NoParity && bitPos == setup.dataBits + 1 ==> rest == Tail(parityBit) + Ones(stopBits))
      && (bitPos >= StopPos(setup) ==> bitPos < StopPos(setup) + stopBits && rest == Ones(StopPos(setup) + stopBits - bitPos))
    }

    /** The parity bit, when the data has parity `odd`. */
    ghost function Tail(odd: bool): Bits {
      match setup.parity
      case NoParity => []
      case Even => [odd]
      case Odd => [!odd]
    }

    /** The bits still to be sent. */
    ghost function Ahead(): Bits
      requires SetupOk(setup)
      reads this
    {
      rest + Line(setup, Items(queue, stopBits))
    }

    constructor (setup: Setup, stopBits: nat, queue: seq<Octet>)
      requires SetupOk(setup) && stopBits > 0
      ensures Valid() && Ahead() == Line(setup, Items(queue, stopBits))
    {
      this.setup, this.stopBits, this.queue := setup, stopBits, queue;
      bitPos, byteInProgress, parityBit, rest := 0, [], false, [];
    }

    /** `async_tx_get_bit`. */
    method GetBit() returns (bit: int)
      requires Valid()
      modifies this
      ensures Valid()
      ensures old(Ahead()) == [] ==> bit == END_OF_DATA && Ahead() == []
      ensures old(Ahead()) != [] ==> (bit == 0 || bit == 1) && old(Ahead()) == [bit == 1] + Ahead()
    {
      if bitPos == 0 && queue == [] {
        return END_OF_DATA;
      }
      bit := NextBit();
    }

    method NextBit() returns (bit: int)
      requires Valid() && !(bitPos == 0 && queue == [])
      modifies this
      ensures Valid() && (bit == 0 || bit == 1) && old(Ahead()) == [bit == 1] + Ahead()
    {
      hide Line, Items;
      if bitPos == 0 {
        FirstItem();
        byteInProgress, queue := queue[0], queue[1..];
        parityBit := false;
        bitPos := 1;
        rest := byteInProgress[..setup.dataBits] + Tail(ParityOf(byteInProgress[..setup.dataBits])) + Ones(stopBits);
        bit := 0;
      } else {
        bit := CharBit();
      }
    }

    /** The first character of the queue. */
    lemma FirstItem()
      requires Valid() && queue != []
      ensures var d := queue[0][..setup.dataBits];
        Line(setup, Items(queue, stopBits)) ==
        [false] + (d + Tail(ParityOf(d)) + Ones(stopBits) + Line(setup, Items(queue[1..], stopBits)))
    {
      hide ParityOf;
      var d := queue[0][..setup.dataBits];
      assert Items(queue, stopBits)[1..] == Items(queue[1..], stopBits);
      assert ParityBits(setup, d) == Tail(ParityOf(d));
    }

    /** A bit of the character being sent. */
    method CharBit() returns (bit: int)
      requires Valid() && bitPos > 0
      modifies this`bitPos, this`byteInProgress, this`parityBit, this`rest
      ensures Valid() && (bit == 0 || bit == 1) && old(rest) == [bit == 1] + rest
    {
      if bitPos <= setup.dataBits {
        bit := DataBit();
      } else if setup.parity != NoParity && bitPos == setup.dataBits + 1 {
        if setup.parity == Odd { parityBit := !parityBit; }
        bit := if parityBit then 1 else 0;
        bitPos := bitPos + 1;
        rest := Ones(stopBits);
      } else {
        bit := 1;
        bitPos := bitPos + 1;
        rest := rest[1..];
        if bitPos == StopPos(setup) + stopBits { bitPos := 0; }
      }
    }

    method DataBit() returns (bit: int)
      requires Valid() && 1 <= bitPos <= setup.dataBits
      modifies this`bitPos, this`byteInProgress, this`parityBit, this`rest
      ensures Valid() && (bit == 0 || bit == 1) && old(rest) == [bit == 1] + rest
    {
      hide SetupOk, Tail, Ones, ParityOf;
      ghost var left := byteInProgress[..setup.dataBits + 1 - bitPos];
      var b := byteInProgress[0];
      assert left[0] == b && left[1..] == byteInProgress[1..][..setup.dataBits - bitPos];
      RestNext(left);
      bit := if b then 1 else 0;
      byteInProgress := byteInProgress[1..];
      parityBit := parityBit != b;
      bitPos := bitPos + 1;
      rest := rest[1..];
    }

    /** One data bit less. */
    lemma RestNext(left: Bits)
      requires left != [] && rest == left + Tail(parityBit != ParityOf(left)) + Ones(stopBits)
      ensures rest == [left[0]] + rest[1..]
      ensures rest[1..] == left[1..] + Tail((parityBit != left[0]) != ParityOf(left[1..])) + Ones(stopBits)
      ensures |left| == 1 ==> rest[1..] == Tail(parityBit != left[0]) + Ones(stopBits)
      ensures |left| == 1 && setup.parity == NoParity ==> rest[1..] == Ones(stopBits)
    {
      hide Tail, Ones, ParityOf;
      ParityNext(left);
      Cut(left, Tail(parityBit != ParityOf(left)), Ones(stopBits));
      NoTail(parityBit != left[0]);
    }

    lemma NoTail(odd: bool)
      ensures setup.parity == NoParity ==> Tail(odd) + Ones(stopBits) == Ones(stopBits)
    {
    }

    static lemma Cut(s: Bits, t: Bits, u: Bits)
      requires s != []
      ensures (s + t + u)[1..] == s[1..] + t + u && s + t + u == [s[0]] + (s + t + u)[1..]
      ensures |s| == 1 ==> (s + t + u)[1..] == t + u
    {
    }

    lemma ParityNext(d: Bits)
      requires d != []
      ensures ParityOf(d) == (d[0] != ParityOf(d[1..])) && (|d| == 1 ==> !ParityOf(d[1..]))
    {
    }
  }
}
