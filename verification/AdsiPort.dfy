/** The caller-ID sender and receiver as the objects they are, one bit at a time. */
module AdsiPorts {
  import opened BitSeq
  import opened BitValues
  import opened Adsi

  const CARRIER_UP: int := -2
  const END_OF_DATA: int := -7

  class AdsiRx {
    var bitPos: nat
    var inProgress: Octet
    var consecutiveOnes: nat
    const msg: array<Octet>
    var msgLen: nat
    var framingErrors: nat
    var reports: seq<seq<Octet>>

    ghost predicate Valid()
      reads this
    {
      msg.Length == 256 && msgLen <= 256 && bitPos <= 9
    }

    /** The receiver as the value the specification works on. */
    ghost function View(): Rx
      requires msgLen <= msg.Length
      reads this, msg
    {
      Rx(bitPos, inProgress, consecutiveOnes, msg[..msgLen], framingErrors, reports)
    }

    constructor ()
      ensures Valid() && fresh(msg) && View() == Rx(0, Zeros(8), 0, [], 0, [])
    {
      bitPos, inProgress, consecutiveOnes, msgLen, framingErrors, reports := 0, Zeros(8), 0, 0, 0, [];
      msg := new Octet[256](_ => Zeros(8));
    }

    /** `adsi_rx_put_bit`. */
    method PutBit(bit: int)
      requires Valid()
      modifies this, msg
      ensures Valid()
      ensures bit == CARRIER_UP ==>
        View() == old(View()).(bitPos := 0, inProgress := Zeros(8), ones := 0, msg := [])
      ensures bit < 0 && bit != CARRIER_UP ==> View() == old(View())
      ensures bit >= 0 ==> View() == Adsi.PutBit(old(View()), bit % 2 == 1)
    {
      hide Complete, CheckOk;
      if bit < 0 {
        if bit == CARRIER_UP {
          consecutiveOnes, bitPos, inProgress, msgLen := 0, 0, Zeros(8), 0;
        }
        return;
      }
      var b := bit % 2 == 1;
      if bitPos == 0 {
        if b {
          consecutiveOnes := consecutiveOnes + 1;
        } else {
          bitPos := 1;
          if consecutiveOnes > 10 {
            msgLen := 0;
          }
          consecutiveOnes := 0;
        }
      } else if bitPos <= 8 {
        inProgress := inProgress[1..] + [b];
        bitPos := bitPos + 1;
      } else {
        if b {
          Store();
        } else {
          framingErrors := framingErrors + 1;
        }
        bitPos := 0;
        inProgress := Zeros(8);
      }
    }

    /** A character is put to the message, which is reported if it is whole and its sum is right. */
    method Store()
      requires Valid()
      modifies this`msgLen, this`reports, msg
      ensures Valid() && View() == Adsi.Store(old(View()))
    {
      hide Value, CheckOk;
      if msgLen >= 256 {
        return;
      }
      msg[msgLen] := inProgress;
      msgLen := msgLen + 1;
      ghost var now := msg[..msgLen];
      assert now == old(msg[..msgLen]) + [inProgress];
      if msgLen >= 3 && msgLen == Value(msg[1]) + 3 {
        var ok := SumRight();
        if ok {
          assert now[..|now| - 1] == msg[..msgLen - 1];
          reports := reports + [msg[..msgLen - 1]];
        }
        msgLen := 0;
      }
    }

    /** `(-sum & 0xFF) == msg[i]`. */
    method SumRight() returns (ok: bool)
      requires msg.Length == 256 && 0 < msgLen <= 256
      ensures ok <==> CheckOk(msg[..msgLen])
    {
      hide Value;
      var sum, i := 0, 0;
      assert msg[..0] == [];
      while i < msgLen - 1
        invariant i <= msgLen - 1 && sum == Sum(msg[..i])
      {
        assert msg[..i + 1][..i] == msg[..i];
        sum := sum + Value(msg[i]);
        i := i + 1;
      }
      assert msg[..msgLen][..msgLen - 1] == msg[..i];
      ok := (256 - sum % 256) % 256 == Value(msg[i]);
    }
  }

  class AdsiTx {
    const setting: Setting
    const msg: array<Octet>
    var msgLen: nat
    var bitNo: nat
    var bitPos: nat
    var byteNo: nat
    var txSignalOn: bool

    /** Where the sending of a message is: in the preamble and the rest, in its characters, or after them. */
    ghost predicate Valid()
      reads this
    {
      && msg.Length == 256 && msgLen <= 256 && setting.stopBits > 0 && bitPos <= 8 + setting.stopBits
      && (msgLen > 0 ==>
            && byteNo <= msgLen && txSignalOn
            && (bitNo < setting.preamble + setting.rest ==> byteNo == 0 && bitPos == 0)
            && (bitNo <= setting.preamble + setting.rest <==> byteNo < msgLen)
            && (byteNo == msgLen ==> bitPos == 0))
    }

    ghost function Text(): seq<Octet>
      requires msgLen <= msg.Length
      reads this, msg
    {
      msg[..msgLen]
    }

    /** What follows the rest: the characters from `from` on, and the ones at the end. */
    ghost function Body(from: nat): Bits
      requires msgLen <= msg.Length && from <= msgLen
      reads this, msg
    {
      Chars(Text()[from..], setting.stopBits) + Ones(setting.post)
    }

    /** The bits of the message that are still to be sent. */
    ghost function Ahead(): Bits
      requires Valid() && msgLen > 0
      reads this, msg
    {
      var start := setting.preamble + setting.rest;
      if bitNo < setting.preamble then Preamble(setting.preamble)[bitNo..] + (Ones(setting.rest) + Body(0))
      else if bitNo < start then Ones(start - bitNo) + Body(0)
      else if byteNo < msgLen then Char(Text()[byteNo], setting.stopBits)[bitPos..] + Body(byteNo + 1)
      else if bitNo <= start + setting.post then Ones(start + setting.post + 1 - bitNo)
      else []
    }

    constructor (setting: Setting)
      requires setting.stopBits > 0
      ensures Valid() && fresh(msg) && msgLen == 0 && this.setting == setting
    {
      this.setting := setting;
      msg := new Octet[256](_ => Zeros(8));
      msgLen, bitNo, bitPos, byteNo, txSignalOn := 0, 0, 0, 0, false;
    }

    /** `adsi_tx_put_message`: not while one is being sent, and not one that is too long. */
    method PutMessage(text: seq<Octet>) returns (res: int)
      requires Valid()
      modifies this, msg
      ensures Valid()
      ensures old(msgLen) > 0 ==> res == 0 && msgLen == old(msgLen) && Ahead() == old(Ahead())
      ensures old(msgLen) == 0 && |text| > 255 ==> res == -1 && msgLen == 0
      ensures old(msgLen) == 0 && |text| <= 255 ==>
        res == |text| && msgLen == |text| + 1 && Ahead() == Line(setting, WithCheck(Corrected(text)))
    {
      if msgLen > 0 {
        return 0;
      }
      txSignalOn := true;
      if |text| > 255 {
        return -1;
      }
      Fill(text);
      byteNo, bitPos, bitNo := 0, 0, 0;
      assert Text()[0..] == Text();
      assert Preamble(setting.preamble)[0..] == Preamble(setting.preamble);
      LineParts(setting, Text());
      return |text|;
    }

    /** `adsi_tx_get_bit`: the next bit of the message, and after the last the end of data, once for each message. */
    method GetBit() returns (bit: int)
      requires Valid() && msgLen > 0
      modifies this`bitNo, this`bitPos, this`byteNo, this`msgLen, this`txSignalOn
      ensures Valid()
      ensures old(Ahead()) == [] ==> bit == END_OF_DATA && msgLen == 0
      ensures old(Ahead()) != [] ==>
        msgLen == old(msgLen) && (bit == 0 || bit == 1) && old(Ahead()) == [bit == 1] + Ahead()
    {
      hide Chars, Char, Ones, Preamble;
      var start := setting.preamble + setting.rest;
      if bitNo < start {
        bit := Lead();
      } else if bitNo <= start {
        bit := CharBit();
      } else if bitNo <= start + setting.post {
        OnesNext(start + setting.post + 1 - bitNo);
        bit := 1;
        bitNo := bitNo + 1;
      } else {
        bit := END_OF_DATA;
        if txSignalOn {
          txSignalOn := false;
          msgLen := 0;
        }
      }
    }

    /** A bit of the preamble or of the rest. */
    method Lead() returns (bit: int)
      requires Valid() && msgLen > 0 && bitNo < setting.preamble + setting.rest
      modifies this`bitNo
      ensures Valid() && (bit == 0 || bit == 1) && old(Ahead()) == [bit == 1] + Ahead()
    {
      hide Chars, Char, Ones, Preamble;
      ghost var rest := Ones(setting.rest) + Body(0);
      if bitNo < setting.preamble {
        PreambleAt(setting.preamble, bitNo);
        bit := bitNo % 2;
        bitNo := bitNo + 1;
        if bitNo == setting.preamble {
          assert Preamble(setting.preamble)[bitNo..] == [];
        }
      } else {
        OnesNext(setting.preamble + setting.rest - bitNo);
        bit := 1;
        bitNo := bitNo + 1;
      }
      BodyStart();
    }

    /** After the lead comes the first character. */
    lemma BodyStart()
      requires Valid() && msgLen > 0
      ensures Ones(0) + Body(0) == Char(Text()[0], setting.stopBits)[0..] + Body(1)
      ensures setting.rest == 0 ==> Ones(setting.rest) + Body(0) == Char(Text()[0], setting.stopBits)[0..] + Body(1)
    {
      assert Text()[0..][0] == Text()[0] && Text()[0..][1..] == Text()[1..];
      assert Ones(0) == [];
    }

    /** A bit of a character; the last stop bit goes on to the next. */
    method CharBit() returns (bit: int)
      requires Valid() && msgLen > 0 && bitNo == setting.preamble + setting.rest
      modifies this`bitNo, this`bitPos, this`byteNo
      ensures Valid() && (bit == 0 || bit == 1) && old(Ahead()) == [bit == 1] + Ahead()
    {
      hide Chars, Ones, Preamble, Char;
      ghost var c := Char(Text()[byteNo], setting.stopBits);
      CharAt(Text()[byteNo], setting.stopBits, bitPos);
      assert [c[bitPos]] + c[bitPos + 1..] + Body(byteNo + 1) == [c[bitPos]] + (c[bitPos + 1..] + Body(byteNo + 1));
      if bitPos < 9 + setting.stopBits - 1 {
        bit := if bitPos == 0 then 0 else if bitPos < 9 then (if msg[byteNo][bitPos - 1] then 1 else 0) else 1;
        bitPos := bitPos + 1;
      } else {
        bit := 1;
        assert c[bitPos + 1..] == [];
        assert [] + Body(byteNo + 1) == Body(byteNo + 1);
        LastStop();
      }
    }

    /** After the last stop bit comes the next character, or the ones at the end. */
    method LastStop()
      requires Valid() && msgLen > 0 && bitNo == setting.preamble + setting.rest && bitPos == 8 + setting.stopBits
      modifies this`bitNo, this`bitPos, this`byteNo
      ensures Valid() && Ahead() == old(Body(byteNo + 1))
    {
      hide Chars, Ones, Preamble, Char;
      NextChar(byteNo);
      bitPos := 0;
      byteNo := byteNo + 1;
      if byteNo >= msgLen {
        bitNo := bitNo + 1;
      }
    }

    lemma NextChar(k: nat)
      requires msgLen <= msg.Length && k < msgLen && setting.stopBits > 0
      ensures |Char(Text()[k], setting.stopBits)| == 9 + setting.stopBits
      ensures k + 1 < msgLen ==> Body(k + 1) == Char(Text()[k + 1], setting.stopBits)[0..] + Body(k + 2)
      ensures k + 1 == msgLen ==> Body(k + 1) == Ones(setting.post)
    {
      if k + 1 < msgLen {
        assert Text()[k + 1..][0] == Text()[k + 1] && Text()[k + 1..][1..] == Text()[k + 2..];
      }
    }

    /** The message, its length put right, and its sumcheck; of a message too short for a length the place is overwritten, or not sent. */
    method Fill(text: seq<Octet>)
      requires |text| <= 255 && msg.Length == 256
      modifies this`msgLen, msg
      ensures msgLen == |text| + 1 && msg[..msgLen] == WithCheck(Corrected(text))
    {
      hide Value, OctetOf, Sum;
      var n := |text|;
      ghost var fixed := Corrected(text);
      Copy(text);
      msg[1] := OctetOf((n + 254) % 256);
      assert msg[..n] == fixed by {
        assert n >= 2 ==> (n + 254) % 256 == n - 2;
        assert n == 1 ==> msg[..n][0] == text[0];
      }
      var i, sum := 0, 0;
      SumNext([], Zeros(8));
      while i < n
        invariant i <= n && sum == Sum(fixed[..i]) && msg[..n] == fixed
      {
        SumNext(fixed[..i], fixed[i]);
        assert fixed[..i + 1] == fixed[..i] + [fixed[i]] && msg[..n][i] == msg[i];
        sum := sum + Value(msg[i]);
        i := i + 1;
      }
      assert fixed[..n] == fixed;
      msg[n] := OctetOf((256 - sum % 256) % 256);
      msgLen := n + 1;
      assert msg[..n + 1] == fixed + [msg[n]];
    }

    /** `memcpy`. */
    method Copy(text: seq<Octet>)
      requires |text| <= msg.Length
      modifies msg
      ensures msg[..|text|] == text
    {
      var i := 0;
      while i < |text|
        invariant i <= |text| && msg[..i] == text[..i]
      {
        msg[i] := text[i];
        i := i + 1;
      }
    }
  }

  lemma SumNext(m: seq<Octet>, b: Octet)
    ensures Sum(m + [b]) == Sum(m) + Value(b) && Sum([]) == 0
  {
    assert (m + [b])[..|m|] == m;
  }

  lemma PreambleAt(n: nat, i: nat)
    requires i < n
    ensures Preamble(n)[i] == (i % 2 == 1) && Preamble(n)[i..] == [Preamble(n)[i]] + Preamble(n)[i + 1..]
  {
    if i < n - 1 { PreambleAt(n - 1, i); }
  }

  lemma OnesNext(n: nat)
    requires n > 0
    ensures Ones(n) == [true] + Ones(n - 1)
  {
  }

  lemma CharAt(b: Octet, stopBits: nat, i: nat)
    requires i < 9 + stopBits
    ensures var c := Char(b, stopBits);
      |c| == 9 + stopBits && c[i] == (if i == 0 then false else if i < 9 then b[i - 1] else true) && c[i..] == [c[i]] + c[i + 1..]
  {
  }

  lemma LineParts(s: Setting, m: seq<Octet>)
    ensures Line(s, m) == Preamble(s.preamble) + (Ones(s.rest) + (Chars(m, s.stopBits) + Ones(s.post)))
  {
  }
}
