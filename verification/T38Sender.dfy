/** The transmit side of the engine as the object it is: fields that the modem's calls and the packet thread update under the lock. */
module T38Senders {
  import opened BitSeq
  import opened EngineTypes
  import opened DataStreams
  import opened T38Types
  import opened T38Send

  /** `GetModPars`, by AT command number: the first row of the table that has it. */
  method GetModPars(val: int) returns (row: Option<ModRow>)
    ensures row == GetModRow(val)
  {
    hide FindFrom;
    var i := 0;
    while i < |MODS|
      invariant i <= |MODS| && GetModRow(val) == FindFrom(val, i)
    {
      NextRow(val, i);
      if MODS[i].val == val {
        return Some(MODS[i]);
      }
      i := i + 1;
    }
    NextRow(val, i);
    return None;
  }

  lemma NextRow(val: int, i: nat)
    requires i <= |MODS|
    ensures FindFrom(val, i) ==
      if i == |MODS| then None else if MODS[i].val == val then Some(MODS[i]) else FindFrom(val, i + 1)
  {
  }

  class T38Sender {
    var stateOut: StateOut
    var stateModem: StateModem
    var modPars: OutPars
    const bufOut: DataStream<Byte>
    var attached: bool
    var countOut: nat
    var stop: StopPars
    var pace: Pace
    var between: Between
    var pc: Pc

    ghost predicate Valid()
      reads this, bufOut, bufOut.Repr
    {
      this !in bufOut.Repr && bufOut.Valid()
    }

    /** The state as the value the specification works on. */
    ghost function View(): Tx
      reads this, bufOut
    {
      Tx(stateOut, stateModem, modPars, pc, OutBuf(bufOut.Contents, bufOut.eof, attached), countOut,
         stop, pace, between)
    }

    constructor ()
      ensures Valid() && fresh(bufOut.Repr) && View() == START
    {
      hide DataStream.Valid;
      stateOut, stateModem, modPars, pc := OutNoSig, StmIdle, INVALID_PARS, Ready;
      attached, countOut, stop := false, 0, StopPars(false, -1);
      pace, between := Pace(0, 0, 0, true), Between(DtNone, false, 0);
      bufOut := new DataStream<Byte>(2048);
    }

    // ------------------------------------------------------------ the modem's calls

    method SendOnIdle(dataType: DataType)
      requires Valid()
      modifies this`between
      ensures Valid() && View() == old(View()).(between := old(View().between).(onIdle := dataType))
    {
      hide DataStream.Valid;
      between := between.(onIdle := dataType);
    }

    method SendStart(dataType: DataType, param: int, hdlcOnly: bool) returns (ok: bool)
      requires Valid()
      modifies this`stateModem, this`modPars, bufOut
      ensures Valid() && bufOut.Repr <= old(bufOut.Repr)
      ensures ok == StartOk(old(View()), dataType, param, hdlcOnly)
      ensures View() == T38Send.SendStart(old(View()), dataType, param, hdlcOnly)
    {
      hide DataStream.Valid;
      if stateModem != StmIdle {
        return false;
      }
      modPars := INVALID_PARS;
      if dataType == DtCed {
        modPars := OutPars(DtCed, DtCed, CedTone, param, V21, 0);
      } else if dataType == DtSilence {
        modPars := OutPars(DtSilence, DtSilence, NoSignal, param, V21, 0);
      } else if dataType == DtHdlc || dataType == DtRaw {
        var row := GetModPars(param);
        hide GetModRow;
        if row == None {
          return false;
        }
        var r := row.value;
        modPars := OutPars(dataType, if r.mod == V21 || hdlcOnly then DtHdlc else DtRaw, r.ind, r.lenInd, r.mod, r.br);
      } else {
        return false;
      }
      bufOut.Clean();
      stateModem := StmOutMoreData;
      return true;
    }

    method Send(bytes: seq<Byte>) returns (res: int)
      requires Valid()
      modifies bufOut.Repr
      ensures Valid() && fresh(bufOut.Repr - old(bufOut.Repr))
      ensures res == if SendOk(old(View())) then |bytes| else -1
      ensures View() == T38Send.Send(old(View()), bytes)
    {
      hide DataStream.Valid;
      if stateModem != StmOutMoreData {
        return -1;
      }
      res := bufOut.PutData(bytes);
    }

    method SendStop(moreFrames: bool, callbackParam: int) returns (ok: bool)
      requires Valid()
      modifies this`stateModem, this`stop, bufOut
      ensures Valid() && bufOut.Repr == old(bufOut.Repr)
      ensures ok == StopOk(old(View()))
      ensures View() == T38Send.SendStop(old(View()), moreFrames, callbackParam)
    {
      hide DataStream.Valid;
      if stateModem != StmOutMoreData {
        return false;
      }
      bufOut.PutEof();
      stateModem := StmOutNoMoreData;
      stop := StopPars(moreFrames, callbackParam);
      return true;
    }

    method OnResetModemState()
      requires Valid()
      modifies this`stateModem, this`between, this`stop, bufOut
      ensures Valid() && bufOut.Repr == old(bufOut.Repr) && View() == Reset(old(View()))
    {
      hide DataStream.Valid;
      bufOut.PutEof();
      if stateModem != StmIdle && !IsOut(stateModem) {
        stateModem := StmIdle;
      }
      between := between.(onIdle := DtNone);
      stop := stop.(callbackParam := -1);
    }

    method SendingNotCompleted(now: int) returns (busy: bool)
      requires Valid()
      ensures busy == Busy(View(), now)
    {
      hide DataStream.Valid;
      if stateOut != OutIdle {
        return true;
      }
      return between.delaySignal && pace.timeBegin > now;
    }

    // ------------------------------------------------------------ the packet thread

    method BeginBurst(now: int) returns (effect: Effect)
      requires Valid() && stateOut == OutIdle
      modifies this`stateOut, this`between, this`pace, this`pc
      ensures Valid() && Outcome(View(), effect) == T38Send.BeginBurst(old(View()), now)
    {
      hide DataStream.Valid;
      if between.delaySignal {
        if modPars.dataType != DtSilence && pace.timeBegin > now {
          pc := Closing(true);
          return Nothing;
        }
        between := between.(delaySignal := false);
      }
      if between.carrierIn != 0 {
        var waitms := if modPars.dataType == DtHdlc then 500 else if modPars.dataType == DtRaw then 2000 else 0;
        if waitms != 0 {
          if between.carrierIn == 1 {
            between := between.(carrierIn := 2);
            pace := pace.(timeBegin := now + waitms);
            pc := Closing(true);
            return Nothing;
          } else if pace.timeBegin > now {
            pc := Closing(true);
            return Nothing;
          } else {
            between := between.(carrierIn := 0);
          }
        }
      }
      effect := Indicate();
    }

    method Indicate() returns (effect: Effect)
      requires Valid()
      modifies this`stateOut, this`pc
      ensures Valid() && Outcome(View(), effect) == T38Send.Indicate(old(View()))
    {
      hide DataStream.Valid;
      if IsData(modPars.dataTypeT38) {
        effect := Emit(Ind(modPars.ind));
        stateOut, pc := OutIndWait, Closing(false);
      } else if modPars.dataTypeT38 == DtCed {
        effect := Emit(Ind(modPars.ind));
        stateOut, pc := OutCedWait, Closing(false);
      } else if modPars.dataTypeT38 == DtSilence {
        effect := Nothing;
        stateOut, pc := OutSilenceWait, Closing(true);
      } else {
        effect := Fail;
        pc := Stopped;
      }
    }

    method BeginData(now: int) returns (effect: Effect)
      requires Valid()
      modifies this`stateOut, this`countOut, this`pace, this`attached, this`pc
      ensures Valid() && Outcome(View(), effect) == T38Send.BeginData(old(View()), now)
    {
      hide DataStream.Valid;
      stateOut := OutData;
      countOut := 0;
      pace := pace.(timeBegin := now);
      pace := pace.(rawCount := 0);
      attached := true;
      if !IsData(modPars.dataType) || !IsData(modPars.dataTypeT38) || (modPars.dataTypeT38 == DtRaw && modPars.dataType == DtHdlc) {
        pc := Stopped;
        return Fail;
      }
      pc := Closing(true);
      return Nothing;
    }

    /** `hdlcOut.GetData`, for data that needs no conversion: `bufOut` is let go of at its EOF. */
    method FetchDirect()
      requires Valid() && Direct(modPars)
      modifies this`attached, this`pace, this`pc, bufOut.Repr
      ensures Valid() && bufOut.Repr == old(bufOut.Repr)
      ensures forall o :: View() == Fetch(old(View()), o)
    {
      hide DataStream.Valid;
      var len := PacketLen(modPars.br);
      var res, bytes := -1, [];
      if attached {
        res, bytes := bufOut.GetData(len);
      }
      if res < 0 {
        attached := false;
      } else {
        pace := pace.(rawCount := pace.rawCount + res);
      }
      pc := Got(res, bytes);
      assert attached ==> bytes == old(bufOut.Contents)[..|bytes|] && bufOut.Contents == old(bufOut.Contents)[|bytes|..];
    }

    /** `hdlcOut.GetData`, for raw bits that become frames; what it answers and leaves in the queue is `o`. */
    method FetchConverted(o: Oracle)
      requires Valid() && !Direct(modPars)
      modifies this`pace, this`pc, bufOut.Repr
      ensures Valid() && fresh(bufOut.Repr - old(bufOut.Repr))
      ensures View() == Fetch(old(View()), o)
    {
      hide DataStream.Valid;
      Replace(o.rest);
      pace := pace.(rawCount := o.rawCount);
      pc := if o.bytes != [] then Got(|o.bytes|, o.bytes) else if o.ended then Got(-1, []) else Got(0, []);
    }

    /** What a conversion leaves in `bufOut`; its EOF stays. */
    method Replace(rest: seq<Byte>)
      requires Valid()
      modifies bufOut.Repr
      ensures Valid() && fresh(bufOut.Repr - old(bufOut.Repr))
      ensures bufOut.Contents == rest && bufOut.eof == old(bufOut.eof)
    {
      hide DataStream.Valid;
      var eof := bufOut.eof;
      bufOut.Clean();
      var _ := bufOut.PutData(rest);
      if eof {
        bufOut.PutEof();
      }
    }

    method Use() returns (effect: Effect)
      requires Valid() && pc.Got?
      modifies this`stateOut, this`countOut, this`pc
      ensures Valid() && Outcome(View(), effect) == T38Send.Use(old(View()))
    {
      hide DataStream.Valid;
      if pc.count == 0 {
        pc := Waiting;
        return Nothing;
      }
      if !IsData(modPars.dataTypeT38) {
        pc := Stopped;
        return Fail;
      }
      if pc.count == -1 {
        stateOut := if modPars.dataTypeT38 == DtHdlc then OutHdlcFcs else OutDataNoSig;
        pc := Closing(true);
        return Nothing;
      }
      effect := Emit(Data(modPars.mod, if modPars.dataTypeT38 == DtHdlc then HdlcData(pc.bytes) else NonEcmData(pc.bytes)));
      countOut := countOut + |pc.bytes|;
      pc := Closing(false);
    }

    method EndConverted(o: Oracle) returns (effect: Effect)
      requires Valid()
      modifies this`stateOut, this`countOut, this`pace, this`pc, bufOut.Repr
      ensures Valid() && fresh(bufOut.Repr - old(bufOut.Repr))
      ensures Outcome(View(), effect) == T38Send.EndConverted(old(View()), o)
    {
      hide DataStream.Valid;
      effect := if countOut != 0 then Emit(Data(modPars.mod, if o.fcsOk then HdlcFcsOk else HdlcFcsBad)) else Nothing;
      pc := Closing(countOut == 0);
      countOut := 0;
      Replace(o.rest);
      pace := pace.(rawCount := o.rawCount);
      stateOut := if o.ended then OutDataNoSig else OutData;
    }

    method EndFrame() returns (effect: Effect)
      requires Valid()
      modifies this`stateOut, this`stateModem, this`countOut, this`pace, this`attached, this`pc, bufOut
      ensures Valid() && bufOut.Repr <= old(bufOut.Repr)
      ensures Outcome(View(), effect) == T38Send.EndFrame(old(View()))
    {
      hide DataStream.Valid;
      if stateModem != StmOutNoMoreData {
        pc := Stopped;
        return Fail;
      }
      var some := countOut != 0;
      pc := Closing(!some);
      countOut := 0;
      bufOut.Clean();
      attached := true;
      pace := pace.(rawCount := pace.rawCount + 4);
      var packet := Data(modPars.mod, HdlcFcsOk);
      if stop.moreFrames {
        stateOut, stateModem := OutData, StmOutMoreData;
        return if some then EmitAck(packet) else Ack(true);
      }
      stateOut := OutDataNoSig;
      return if some then Emit(packet) else Nothing;
    }

    method EndBurst() returns (effect: Effect)
      requires Valid()
      modifies this`stateOut, this`stateModem, this`pc
      ensures Valid() && Outcome(View(), effect) == T38Send.EndBurst(old(View()))
    {
      hide DataStream.Valid;
      if stateModem != StmOutNoMoreData || !IsData(modPars.dataTypeT38) {
        pc := Stopped;
        return Fail;
      }
      effect := EmitAck(Data(modPars.mod, if modPars.dataTypeT38 == DtHdlc then HdlcSigEnd else NonEcmSigEnd));
      stateOut, stateModem, pc := OutNoSig, StmIdle, Closing(false);
    }

    method Tone(now: int) returns (effect: Effect)
      requires Valid() && stateOut in {OutIdle, OutCedWait, OutSilenceWait, OutNoSig} && (stateOut == OutIdle ==> !IsOut(stateModem))
      modifies this`stateOut, this`stateModem, this`between, this`pace, this`pc
      ensures Valid() && forall o :: Outcome(View(), effect) == T38Send.Look(old(View()), now, o)
    {
      hide DataStream.Valid;
      if stateOut == OutIdle {
        effect := if between.onIdle == DtCng then Emit(Ind(CngTone)) else Nothing;
        pc := if between.onIdle == DtCng then Closing(false) else Waiting;
        between := between.(onIdle := DtNone);
      } else if stateOut == OutNoSig {
        effect := Emit(Ind(NoSignal));
        stateOut := OutIdle;
        between := between.(delaySignal := true);
        pace := pace.(timeBegin := now + 75);
        pc := Closing(false);
      } else {
        effect := Ack(stateModem == StmOutNoMoreData);
        if stateOut == OutSilenceWait {
          pace := pace.(doDelay := false);
        }
        stateOut := if stateOut == OutCedWait then OutNoSig else OutIdle;
        stateModem := StmIdle;
        pc := Closing(true);
      }
    }

    /** The locked switch of `PreparePacket`. */
    method Look(now: int, o: Oracle) returns (effect: Effect)
      requires Valid()
      modifies this, bufOut.Repr
      ensures Valid() && fresh(bufOut.Repr - old(bufOut.Repr))
      ensures Outcome(View(), effect) == T38Send.Look(old(View()), now, o)
    {
      hide DataStream.Valid;
      hide T38Send.BeginBurst, T38Send.BeginData, Fetch, T38Send.EndConverted, T38Send.EndFrame, T38Send.EndBurst;
      match stateOut
      case OutIdle =>
        if IsOut(stateModem) {
          effect := BeginBurst(now);
        } else {
          effect := Tone(now);
        }
      case OutIndWait => effect := BeginData(now);
      case OutData =>
        if Direct(modPars) {
          FetchDirect();
        } else {
          FetchConverted(o);
        }
        effect := Nothing;
      case OutHdlcFcs =>
        if modPars.dataType == DtRaw {
          effect := EndConverted(o);
        } else {
          effect := EndFrame();
        }
      case OutDataNoSig => effect := EndBurst();
      case _ => effect := Tone(now);
    }

    method Delay(now: int)
      requires Valid()
      modifies this`pace, this`pc
      ensures Valid() && View() == T38Send.Delay(old(View()), now)
    {
      hide DataStream.Valid;
      if !(pace.doDelay && pace.timeDelayEnd > now) {
        pace := pace.(doDelay := true);
        pc := Looking;
      }
    }

    method Wake(now: int, signal: bool)
      requires Valid()
      modifies this`pace, this`pc
      ensures Valid() && View() == T38Send.Wake(old(View()), now, signal)
    {
      hide DataStream.Valid;
      if !signal {
        pace := pace.(doDelay := true);
        pc := Ready;
        return;
      }
      if stateOut == OutData {
        pace := pace.(rawCount := 0);
        pace := pace.(timeBegin := now - MS_PER_OUT);
        pace := pace.(doDelay := false);
      }
      pc := Looking;
    }

    method Close(now: int)
      requires Valid() && pc.Closing?
      modifies this`pace, this`pc
      ensures Valid() && View() == T38Send.Close(old(View()), now)
    {
      hide DataStream.Valid;
      match stateOut {
        case OutIdle | OutDataNoSig | OutNoSig => pace := pace.(timeDelayEnd := now + MS_PER_OUT);
        case OutCedWait | OutSilenceWait | OutIndWait => pace := pace.(timeDelayEnd := now + modPars.lenInd);
        case OutData | OutHdlcFcs =>
          pace := pace.(timeDelayEnd := if modPars.br == 0 then now else pace.timeBegin + pace.rawCount * 8000 / modPars.br + MS_PER_OUT);
      }
      pace := pace.(doDelay := pace.doDelay || !pc.redo);
      pc := Ready;
    }

    /** One step of `PreparePacket`, between two releases of the lock. */
    method PreparePacketStep(now: int, signal: bool, o: Oracle) returns (effect: Effect)
      requires Valid()
      modifies this, bufOut.Repr
      ensures Valid() && fresh(bufOut.Repr - old(bufOut.Repr))
      ensures Outcome(View(), effect) == Step(old(View()), now, signal, o)
    {
      hide DataStream.Valid;
      hide T38Send.Look, T38Send.Use, T38Send.Delay, T38Send.Wake, T38Send.Close;
      effect := Nothing;
      match pc
      case Ready => Delay(now);
      case Looking => effect := Look(now, o);
      case Got(_, _) => effect := Use();
      case Waiting => Wake(now, signal);
      case Closing(_) => Close(now);
      case Stopped =>
    }
  }
}
