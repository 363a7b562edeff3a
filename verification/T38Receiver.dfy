/** The receive side of the engine as the object it is: two pointers to streams of buffers, which packets fill and the modem's calls empty. */
module T38Receivers {
  import opened BitSeq
  import opened EngineTypes
  import opened T38Types
  import opened T38Send
  import opened T38Recv
  import opened T38RecvSafety
  import opened T38ModStreams
  import T38Senders

  ghost function Parts(s: ModStream?): set<object>
    reads s
  {
    if s == null then {} else {s} + s.store
  }

  ghost predicate Whole(s: ModStream?)
    reads s, Parts(s)
  {
    s != null ==> s.Valid() && s !in s.store
  }

  ghost function ViewOf(s: ModStream?): Option<Stream>
    requires s != null ==> s.Shape()
    reads s
  {
    if s == null then None else Some(s.View())
  }

  /** `GetModPars`, by indicator: the first row of the table that has it. */
  method GetModParsByInd(ind: Indicator) returns (row: Option<ModRow>)
    ensures row == FindInd(ind, 0)
  {
    hide FindInd;
    var i := 0;
    while i < |MODS|
      invariant i <= |MODS| && FindInd(ind, 0) == FindInd(ind, i)
    {
      NextRow(ind, i);
      if MODS[i].ind == ind {
        return Some(MODS[i]);
      }
      i := i + 1;
    }
    NextRow(ind, i);
    return None;
  }

  lemma NextRow(ind: Indicator, i: nat)
    requires i <= |MODS|
    ensures FindInd(ind, i) == if i == |MODS| then None else if MODS[i].ind == ind then Some(MODS[i]) else FindInd(ind, i + 1)
  {
  }

  class T38Receiver {
    var modStreamIn: ModStream?
    var modStreamInSaved: ModStream?
    var stateModem: StateModem
    var carrierIn: nat
    var countIn: nat
    var pc: RxPc

    ghost var next: nat

    ghost function Owned(): set<object>
      reads this`modStreamIn, this`modStreamInSaved, modStreamIn, modStreamInSaved
    {
      Parts(modStreamIn) + Parts(modStreamInSaved)
    }

    /** The streams are whole, and have nothing in common. */
    ghost predicate Apart()
      ensures Apart() ==> this !in Parts(modStreamIn) && this !in Parts(modStreamInSaved) && this !in Owned()
      reads this`modStreamIn, this`modStreamInSaved, modStreamIn, modStreamInSaved, Parts(modStreamIn), Parts(modStreamInSaved)
    {
      && Whole(modStreamIn) && Whole(modStreamInSaved)
      && this !in Owned() && Parts(modStreamIn) !! Parts(modStreamInSaved)
    }

    ghost function Both(): Streams
      requires Apart()
      reads this`modStreamIn, this`modStreamInSaved, this`next, modStreamIn, modStreamInSaved, Parts(modStreamIn), Parts(modStreamInSaved)
    {
      Streams(ViewOf(modStreamIn), ViewOf(modStreamInSaved), next)
    }

    ghost function View(): Rx
      requires Apart()
      reads this, modStreamIn, modStreamInSaved, Parts(modStreamIn), Parts(modStreamInSaved)
    {
      Rx(Both(), stateModem, carrierIn, countIn, pc)
    }

    ghost predicate Valid()
      reads this, modStreamIn, modStreamInSaved, Parts(modStreamIn), Parts(modStreamInSaved)
    {
      Apart() && RxOk(View())
    }

    constructor ()
      ensures Valid() && View() == RX_START && Owned() == {}
    {
      modStreamIn, modStreamInSaved, stateModem := null, null, StmIdle;
      carrierIn, countIn, pc, next := 0, 0, Rest, 0;
    }

    // ------------------------------------------------------------ the streams

    /** `m` points to the stream that `t` names. */
    ghost predicate At(m: ModStream?, t: Target)
      ensures At(m, t) ==> Apart() && Points(Both(), t) && this !in Parts(m) && Parts(m) <= Owned()
      reads this`modStreamIn, this`modStreamInSaved, this`next, modStreamIn, modStreamInSaved, Parts(modStreamIn), Parts(modStreamInSaved), m
    {
      && Apart()
      && match t
         case Nowhere => m == null
         case ToIn => m != null && m == modStreamIn
         case ToSaved => m != null && m == modStreamInSaved
    }

    /** The same, in a state that data may come in. */
    ghost predicate Filling(m: ModStream?, t: Target)
      ensures Filling(m, t) ==> At(m, t)
      reads this`modStreamIn, this`modStreamInSaved, this`next, this`stateModem, modStreamIn, modStreamInSaved, Parts(modStreamIn), Parts(modStreamInSaved), m
    {
      && At(m, t) && StreamsOk(Both()) && StateOk(stateModem, Both())
      && (stateModem == StmInWaitData ==> t == Nowhere) && (t == Nowhere || Holds(Both(), t))
    }

    method PutData(m: ModStream?, ghost t: Target, bytes: seq<Byte>)
      requires At(m, t)
      modifies Parts(m)
      ensures At(m, t) && forall o :: (o in Parts(m) ==> o in old(Parts(m)) || fresh(o)) && (o in Owned() ==> o in old(Owned()) || fresh(o))
      ensures Both() == ApplyTo(old(Both()), t, Append(bytes))
    {
      hide Keep, Ascending, Stored, ModStream.View, Apply;
      if m != null {
        var _ := m.PutData(bytes);
      }
    }

    method SetDiag(m: ModStream?, ghost t: Target, diag: Diag)
      requires At(m, t)
      modifies Parts(m)
      ensures At(m, t) && forall o :: (o in Parts(m) ==> o in old(Parts(m)) || fresh(o)) && (o in Owned() ==> o in old(Owned()) || fresh(o))
      ensures Both() == ApplyTo(old(Both()), t, Mark(diag))
    {
      hide Keep, Ascending, Stored, ModStream.View, Apply;
      if m != null {
        var _ := m.SetDiag(diag);
      }
    }

    method PutEof(m: ModStream?, ghost t: Target, diag: Diag)
      requires At(m, t)
      modifies Parts(m)
      ensures At(m, t) && forall o :: (o in Parts(m) ==> o in old(Parts(m)) || fresh(o)) && (o in Owned() ==> o in old(Owned()) || fresh(o))
      ensures Both() == ApplyTo(old(Both()), t, Shut(diag))
    {
      hide Keep, Ascending, Stored, ModStream.View, Apply;
      if m != null {
        var _ := m.PutEof(diag);
      }
    }

    /** A new buffer, at an address no buffer has had. */
    method PushBuf(m: ModStream?, ghost t: Target)
      requires At(m, t) && StreamsOk(Both())
      modifies this`next, Parts(m)
      ensures At(m, t) && forall o :: (o in Parts(m) ==> o in old(Parts(m)) || fresh(o)) && (o in Owned() ==> o in old(Owned()) || fresh(o))
      ensures Both() == PushTo(old(Both()), t)
    {
      hide Keep, Ascending, Stored, ModStream.View, T38Recv.PushBuf, StreamOk;
      if m != null {
        AboveAll(m, next);
        m.PushBuf(next);
        next := next + 1;
      }
    }

    // ------------------------------------------------------------ packets

    method PutField(m: ModStream?, ghost t: Target, f: RxField)
      requires Filling(m, t)
      modifies this`next, Parts(m)
      ensures At(m, t) && forall o :: (o in Parts(m) ==> o in old(Parts(m)) || fresh(o)) && (o in Owned() ==> o in old(Owned()) || fresh(o))
      ensures Both() == T38Recv.PutField(old(Both()), t, f)
    {
      hide *;
      ghost var before := Both();
      FillingOk(m, t);
      Steps(before, t, f);
      PutData(m, t, f.data);
      if BadFrame(f.kind) {
        SetDiag(m, t, {BadFcs});
      }
      if EndsFrame(f.kind) {
        PutEof(m, t, {});
        PushBuf(m, t);
      }
      if EndsSignal(f.kind) {
        PutEof(m, t, {NoCarrier});
      }
    }

    /** One field of a data packet; the end of the signal forgets the stream. */
    method TakeField(m: ModStream?, ghost t: Target, f: RxField)
      requires Filling(m, t)
      modifies this`next, this`countIn, Parts(m)
      ensures forall o :: (o in Parts(m) ==> o in old(Parts(m)) || fresh(o)) && (o in Owned() ==> o in old(Owned()) || fresh(o))
      ensures if EndsSignal(f.kind) then Filling(null, Nowhere) else Filling(m, t)
      ensures View() == old(View()).(streams := T38Recv.PutField(old(Both()), t, f), countIn := old(countIn) + |f.data|)
    {
      hide Apart, At, Filling, Both, StreamsOk, StateOk, T38Recv.PutField, Holds, Points, Owned;
      FillingOk(m, t);
      PutFieldOk(stateModem, Both(), t, f);
      PutField(m, t, f);
      if EndsSignal(f.kind) { NowhereOk(m, t); } else { Refill(m, t); }
      countIn := countIn + |f.data|;
    }

    /** The carrier is gone; a modem that waits for silence is told so. */
    method EndSignal(rest: seq<RxField>) returns (callback: bool)
      requires Filling(null, Nowhere)
      modifies this`carrierIn, this`stateModem, this`pc
      ensures Apart() && (callback || Filling(null, Nowhere)) && Owned() == old(Owned())
      ensures callback == old(stateModem == StmInWaitSilence)
      ensures View() == if callback then old(View()).(carrierIn := 0, stateModem := StmIdle, pc := Fields(rest))
                        else old(View()).(carrierIn := 0)
    {
      hide Apart, Owned, Filling, At, Both, StreamsOk, StateOk;
      carrierIn := 0;
      if stateModem == StmInWaitSilence {
        stateModem := StmIdle;
        pc := Fields(rest);
        return true;
      }
      return false;
    }

    method Finish(ghost m: ModStream?, ghost t: Target)
      requires Filling(m, t)
      modifies this`pc
      ensures Apart() && View() == old(View()).(pc := Rest) && Owned() == old(Owned())
    {
      hide At, Both, StreamsOk, StateOk;
      pc := Rest;
    }

    /** The loop over the fields of a data packet, up to a callback that ends the wait for silence. */
    method HandleFields(m: ModStream?, ghost t: Target, fields: seq<RxField>)
      requires Filling(m, t)
      modifies this`next, this`countIn, this`carrierIn, this`stateModem, this`pc, Owned()
      ensures Valid() && forall o :: o in Owned() ==> o in old(Owned()) || fresh(o)
      ensures View() == T38Recv.HandleFields(old(View()), t, fields)
    {
      hide Apart, At, Filling, Both, StreamsOk, StateOk, RxOk, T38Recv.PutField, T38Recv.HandleFields, Holds, Points, EndsSignal, Owned;
      ghost var goal := T38Recv.HandleFields(View(), t, fields);
      FillingOk(m, t);
      FieldsOk(View(), t, fields);
      assert fields[0..] == fields;
      var modStream := m;
      ghost var now := t;
      var i := 0;
      while i < |fields|
        invariant i <= |fields| && Filling(modStream, now)
        invariant (modStream == m || modStream == null) && forall o :: (o in Parts(m) ==> o in old(Parts(m)) || fresh(o)) && (o in Owned() ==> o in old(Owned()) || fresh(o))
        invariant T38Recv.HandleFields(View(), now, fields[i..]) == goal
      {
        FieldsNext(View(), now, fields, i);
        TakeField(modStream, now, fields[i]);
        i := i + 1;
        if EndsSignal(fields[i - 1].kind) {
          modStream := null;
          now := Nowhere;
          var callback := EndSignal(fields[i..]);
          if callback {
            return;
          }
        }
      }
      FieldsDone(View(), now, fields[i..]);
      Finish(modStream, now);
    }

    /** Which stream data goes to: the one that is open. */
    method Aim() returns (m: ModStream?, ghost t: Target)
      requires Valid()
      ensures t == TargetOf(Both()) && Filling(m, t)
      ensures (m == null <==> t == Nowhere) && (m != null ==> ModOf(Both(), t) == m.row.mod)
    {
      hide Keep, Ascending, Stored, StreamOk;
      OpenState(View());
      m, t := modStreamIn, ToIn;
      if m == null || m.lastBuf == null {
        m, t := modStreamInSaved, ToSaved;
      }
      if m == null || m.lastBuf == null {
        m, t := null, Nowhere;
      }
    }

    method HandleData(mod: Modulation, fields: seq<RxField>)
      requires Valid()
      modifies this`next, this`countIn, this`carrierIn, this`stateModem, this`pc, Owned()
      ensures Valid() && forall o :: o in Owned() ==> o in old(Owned()) || fresh(o)
      ensures View() == T38Recv.HandleData(old(View()), mod, fields)
    {
      hide Apart, At, Filling, Both, StreamsOk, StateOk, RxOk, Points, Holds, Owned, T38Recv.HandleFields, ApplyTo;
      var modStream: ModStream?;
      ghost var t;
      modStream, t := Aim();
      if modStream != null && modStream.row.mod != mod {
        FillingOk(modStream, t);
        Drop(modStream, t);
        modStream := null;
        t := Nowhere;
      }
      HandleFields(modStream, t, fields);
    }

    /** A stream that turns out to be another signal's is closed. */
    method Drop(m: ModStream?, ghost t: Target)
      requires Filling(m, t)
      modifies Parts(m)
      ensures Filling(null, Nowhere) && forall o :: o in Owned() ==> o in old(Owned()) || fresh(o)
      ensures Both() == ApplyTo(old(Both()), t, Shut({OutOfOrder, NoCarrier}))
      ensures t != Nowhere ==> !Open(Both().inn) && !Open(Both().saved)
    {
      hide Apart, At, Filling, Both, StreamsOk, StateOk, RxOk, Points, Owned, ApplyTo;
      FillingOk(m, t);
      ApplyToOk(Both(), t, Shut({OutOfOrder, NoCarrier}));
      ApplyState(stateModem, Both(), t, Shut({OutOfOrder, NoCarrier}));
      PutEof(m, t, {OutOfOrder, NoCarrier});
      NowhereOk(m, t);
    }

    /** The modem waits for a signal: it gets the saved stream, or a buffer that says the signal is another one. */
    method OfferSaved()
      requires Apart() && StreamsOk(Both()) && modStreamInSaved != null
      requires Both().inn.Some? ==> All(Both().inn.value) == []
      modifies this`modStreamInSaved, this`next, Owned()
      ensures Apart() && forall o :: o in Owned() ==> o in old(Owned()) || fresh(o)
      ensures Both() == Offer(old(Both()))
    {
      hide Keep, Ascending, Stored, ModStream.View, StreamOk;
      if modStreamIn != null {
        if modStreamIn.row.mod == modStreamInSaved.row.mod {
          Emptied(modStreamIn, next);
          modStreamIn.Move(modStreamInSaved);
          modStreamInSaved := null;
        } else {
          PushBuf(modStreamIn, ToIn);
          PutEof(modStreamIn, ToIn, {DiffSig});
        }
      }
    }

    method HandleInd(ind: Indicator)
      requires Valid()
      modifies this, Owned()
      ensures Valid() && forall o :: o in Owned() ==> o in old(Owned()) || fresh(o)
      ensures View() == T38Recv.HandleInd(old(View()), ind)
    {
      hide Keep, Ascending, Stored, ModStream.View, StreamsOk, StateOk, T38Recv.HandleInd2, Apply, Holds;
      IndOk(View(), ind);
      InReady();
      if (modStreamIn != null && modStreamIn.lastBuf != null && modStreamIn.row.ind == ind)
        || (modStreamInSaved != null && modStreamInSaved.lastBuf != null && modStreamInSaved.row.ind == ind) {
        return;
      }
      if modStreamIn != null && modStreamIn.lastBuf != null {
        if countIn == 0 && ind == NoSignal {
          return;
        }
        Drop(modStreamIn, ToIn);
        if stateModem == StmInRecvData {
          pc := Broken(ind);
          return;
        }
      }
      FillingOk(null, Nowhere);
      HandleInd2(ind);
    }

    lemma InReady()
      requires Valid()
      ensures modStreamIn != null && modStreamIn.lastBuf != null ==> Filling(modStreamIn, ToIn)
      ensures modStreamIn == null || modStreamIn.lastBuf == null ==> Filling(null, Nowhere)
    {
      OpenState(View());
    }

    method HandleInd2(ind: Indicator)
      requires Filling(null, Nowhere) && !Open(Both().inn)
      modifies this, Owned()
      ensures Valid() && forall o :: o in Owned() ==> o in old(Owned()) || fresh(o)
      ensures View() == T38Recv.HandleInd2(old(View()), ind)
    {
      hide Apart, Both, At, Filling, Owned, StreamsOk, StateOk, RxOk, Offer, FindInd, EndSilenceWait;
      FillingOk(null, Nowhere);
      Ind2Ok(View(), ind);
      ForgetSaved();
      if !ind.Training? {
        Quiet();
        return;
      }
      var row := GetModParsByInd(ind);
      if row == None {
        Finish(null, Nowhere);
        return;
      }
      StartSignal(row.value);
    }

    method ForgetSaved()
      requires Filling(null, Nowhere)
      modifies this`modStreamInSaved
      ensures Filling(null, Nowhere) && forall o :: o in Owned() ==> o in old(Owned())
      ensures modStreamInSaved == null && View() == old(View()).(streams := old(Both()).(saved := None))
    {
      hide Keep, Ascending, Stored, ModStream.View, StreamOk;
      modStreamInSaved := null;
    }

    /** The line is quiet now. */
    method Quiet()
      requires Filling(null, Nowhere)
      modifies this`carrierIn, this`stateModem, this`pc
      ensures Apart() && Owned() == old(Owned())
      ensures View() == EndSilenceWait(old(View()).(carrierIn := 0, pc := Rest))
    {
      hide At, Both, StreamsOk, StateOk;
      carrierIn := 0;
      if stateModem == StmInWaitSilence {
        stateModem := StmIdle;
      }
      pc := Rest;
    }

    /** A signal begins. */
    method StartSignal(row: ModRow)
      requires Filling(null, Nowhere) && modStreamInSaved == null && !Open(Both().inn)
      modifies this, Owned()
      ensures Apart() && forall o :: o in Owned() ==> o in old(Owned()) || fresh(o)
      ensures var r := old(View()); var ss := r.streams;
        var s := T38Recv.PushBuf(NewStream(row, NO_WANT), ss.next);
        var r1 := r.(streams := Streams(ss.inn, Some(s), ss.next + 1), carrierIn := 1, countIn := 0, pc := Rest);
        View() == if r.stateModem == StmInWaitData then r1.(streams := Offer(r1.streams), stateModem := StmInReadyData) else EndSilenceWait(r1)
    {
      hide Apart, Both, At, Filling, Owned, StreamsOk, StateOk, Offer, T38Recv.PushBuf, All, Open;
      FillingOk(null, Nowhere);
      NoneSaved();
      NewSavedOk(Both(), row);
      NothingYet(stateModem, Both());
      SaveNew(row);
      if stateModem == StmInWaitSilence {
        Become(StmIdle);
      } else if stateModem == StmInWaitData {
        OfferSaved();
        Become(StmInReadyData);
      } else {
        Become(stateModem);
      }
    }

    lemma NoneSaved()
      requires Apart() && modStreamInSaved == null
      ensures Both().saved == None
    {
    }

    /** A new stream, with its first buffer. */
    method SaveNew(row: ModRow)
      requires Apart() && StreamsOk(Both()) && modStreamInSaved == null
      modifies this`modStreamInSaved, this`next, this`carrierIn, this`countIn
      ensures Apart() && modStreamInSaved != null && forall o :: o in Owned() ==> o in old(Owned()) || fresh(o)
      ensures var ss := old(Both());
        var s := T38Recv.PushBuf(NewStream(row, NO_WANT), ss.next);
        View() == old(View()).(streams := Streams(ss.inn, Some(s), ss.next + 1), carrierIn := 1, countIn := 0)
    {
      hide Keep, Ascending, Stored, StreamsOk, T38Recv.PushBuf;
      carrierIn := 1;
      modStreamInSaved := new ModStream(row, NO_WANT);
      modStreamInSaved.PushBuf(next);
      next := next + 1;
      countIn := 0;
    }

    method Become(state: StateModem)
      requires Apart()
      modifies this`stateModem, this`pc
      ensures Apart() && Owned() == old(Owned()) && View() == old(View()).(stateModem := state, pc := Rest)
    {
      hide Keep, Ascending, Stored;
      stateModem := state;
      pc := Rest;
    }

    /** A packet is handled up to its first callback that could change anything for the rest of it. */
    method HandlePacket(p: RxPacket)
      requires Valid() && pc == Rest
      modifies this, Owned()
      ensures Valid() && forall o :: o in Owned() ==> o in old(Owned()) || fresh(o)
      ensures View() == T38Recv.HandlePacket(old(View()), p)
    {
      hide Apart, Both, Owned, RxOk, T38Recv.HandleInd, T38Recv.HandleData;
      match p
      case RxInd(ind) => HandleInd(ind);
      case RxData(mod, fields) => HandleData(mod, fields);
    }

    /** The rest of it, when the callback has returned and the lock is taken again. */
    method Resume()
      requires Valid()
      modifies this, Owned()
      ensures Valid() && forall o :: o in Owned() ==> o in old(Owned()) || fresh(o)
      ensures View() == T38Recv.Resume(old(View()))
    {
      hide Apart, Both, Owned, At, Filling, StreamsOk, StateOk, T38Recv.HandleInd2, T38Recv.HandleFields, Open;
      Restarted();
      match pc
      case Rest =>
      case Broken(ind) => HandleInd2(ind);
      case Fields(fields) => HandleFields(null, Nowhere, fields);
    }

    lemma Restarted()
      requires Valid()
      ensures Filling(null, Nowhere) && (pc.Broken? ==> !Open(Both().inn))
    {
    }

    /** Packets of the network were lost: a V.21 frame that is being received is bad. */
    method HandlePacketLost()
      requires Valid() && pc == Rest
      modifies Owned()
      ensures Valid() && forall o :: o in Owned() ==> o in old(Owned()) || fresh(o)
      ensures View() == PacketLost(old(View()))
    {
      hide Apart, At, Filling, Both, StreamsOk, StateOk, RxOk, Points, Holds, Owned, ApplyTo;
      LostOk(View());
      var modStream: ModStream?;
      ghost var t;
      modStream, t := Aim();
      if modStream != null && modStream.row.mod == V21 {
        SetDiag(modStream, t, {BadFcs});
      }
    }

    /** `OnChangeEnableFakeIn`, when the real line is gone, up to its callback. */
    method LineGone()
      requires Valid()
      modifies this`carrierIn, this`modStreamInSaved, Owned()
      ensures Valid() && forall o :: o in Owned() ==> o in old(Owned()) || fresh(o)
      ensures View() == T38Recv.LineGone(old(View()))
    {
      hide Keep, Ascending, Stored, ModStream.View, StreamsOk, StateOk, Holds, Apply;
      GoneOk(View());
      InReady();
      carrierIn := 0;
      modStreamInSaved := null;
      if modStreamIn != null && modStreamIn.lastBuf != null {
        PutEof(modStreamIn, ToIn, if countIn == 0 then {NoCarrier} else {OutOfOrder, NoCarrier});
      }
    }

    /** And after it. */
    method LineGoneRest()
      requires Valid()
      modifies this`stateModem
      ensures Valid() && View() == T38Recv.EndSilenceWait(old(View())) && Owned() == old(Owned())
    {
      hide Keep, Ascending, Stored, ModStream.View, StreamsOk;
      if stateModem == StmInWaitSilence {
        stateModem := StmIdle;
      }
    }

    // ------------------------------------------------------------ the modem's calls

    method RecvWait(dataType: DataType, param: int, hdlcOnly: bool) returns (ok: bool, done: bool)
      requires Valid()
      modifies this`modStreamIn, this`modStreamInSaved, this`next, this`stateModem, Owned()
      ensures Valid() && forall o :: o in Owned() ==> o in old(Owned()) || fresh(o)
      ensures View() == T38Recv.RecvWait(old(View()), dataType, param, hdlcOnly)
      ensures ok == WaitOk(old(View()), dataType, param)
      ensures done <==> ok && stateModem != StmInWaitSilence && stateModem != StmInWaitData
    {
      hide Apart, Both, Owned, RxOk, GetModRow, TakeStream, Continues;
      WaitKeeps(View(), dataType, param, hdlcOnly);
      if stateModem != StmIdle {
        return false, false;
      }
      if dataType == DtSilence {
        var quiet := WaitSilence();
        return true, quiet;
      }
      if dataType != DtHdlc && dataType != DtRaw {
        return false, false;
      }
      var found := T38Senders.GetModPars(param);
      if found == None {
        return false, false;
      }
      done := WaitData(found.value, WantOf(dataType, found.value, hdlcOnly));
      ok := true;
    }

    method WaitSilence() returns (quiet: bool)
      requires Valid() && stateModem == StmIdle
      modifies this`modStreamIn, this`stateModem
      ensures Apart() && forall o :: o in Owned() ==> o in old(Owned())
      ensures var r := old(View());
        View() == r.(streams := r.streams.(inn := None),
                     stateModem := if r.streams.inn.Some? && r.carrierIn != 0 && r.streams.saved == None then StmInWaitSilence else StmIdle)
      ensures quiet == (stateModem == StmIdle)
    {
      hide Keep, Ascending, Stored, ModStream.View, RxOk;
      if modStreamIn != null {
        modStreamIn := null;
        if carrierIn != 0 && modStreamInSaved == null {
          stateModem := StmInWaitSilence;
          return false;
        }
      }
      return true;
    }

    method WaitData(row: ModRow, want: Want) returns (done: bool)
      requires Valid() && stateModem == StmIdle
      modifies this`modStreamIn, this`modStreamInSaved, this`next, this`stateModem, Owned()
      ensures Apart() && forall o :: o in Owned() ==> o in old(Owned()) || fresh(o)
      ensures done == (Continues(old(Both()), row) || old(Both()).saved.Some?)
      ensures View() == old(View()).(streams := TakeStream(old(Both()), row, want),
                                     stateModem := if done then StmInReadyData else StmInWaitData)
    {
      hide Apart, Both, Owned, StreamsOk, StateOk, Continues, Offer, MoveInto, Apply, T38Recv.PushBuf, All;
      ghost var before := Both();
      var kept := KeepStream(row, want);
      if kept {
        State(StmInReadyData);
        return true;
      }
      NewIn(row, want);
      BlankStreams(before, row, want);
      TakeIsOffer(before, row, want);
      if modStreamInSaved != null {
        OfferSaved();
        State(StmInReadyData);
        return true;
      }
      State(StmInWaitData);
      return false;
    }

    method State(state: StateModem)
      requires Apart()
      modifies this`stateModem
      ensures Apart() && Owned() == old(Owned()) && View() == old(View()).(stateModem := state)
    {
      hide Keep, Ascending, Stored;
      stateModem := state;
    }

    /** What is left of the last stream is taken up, if its signal is the one that is asked for. */
    method KeepStream(row: ModRow, want: Want) returns (kept: bool)
      requires Valid()
      modifies this`modStreamIn, Owned()
      ensures Apart() && forall o :: o in Owned() ==> o in old(Owned()) || fresh(o)
      ensures kept == Continues(old(Both()), row)
      ensures View() == old(View()).(streams := old(Both()).(inn :=
        if kept then Some(DeleteFirst(old(Both()).inn.value).(want := want)) else None))
    {
      hide Apart, Both, Owned, RxOk;
      HasIn();
      if modStreamIn != null {
        DropFirstIn();
        var more := TakeUp(row, want);
        if more {
          return true;
        }
      }
      NoIn();
      return false;
    }

    method TakeUp(row: ModRow, want: Want) returns (more: bool)
      requires Apart() && modStreamIn != null
      modifies Owned()
      ensures Apart() && Owned() == old(Owned()) && old(Both()).inn.Some?
      ensures more == (old(Both()).inn.value.queue != [] && SameSignal(old(Both()).inn, row))
      ensures Both() == if more then old(Both()).(inn := Some(old(Both()).inn.value.(want := want))) else old(Both())
    {
      hide Keep, Ascending, Stored;
      modStreamIn.Queued();
      if modStreamIn.bufQ != [] && modStreamIn.row.mod == row.mod {
        modStreamIn.want := want;
        return true;
      }
      return false;
    }

    method NewIn(row: ModRow, want: Want)
      requires Apart()
      modifies this`modStreamIn
      ensures Apart() && forall o :: o in Owned() ==> o in old(Owned()) || fresh(o)
      ensures View() == old(View()).(streams := old(Both()).(inn := Some(NewStream(row, want))))
      ensures modStreamInSaved != null <==> old(Both()).saved.Some?
    {
      hide Keep, Ascending, Stored;
      modStreamIn := new ModStream(row, want);
    }

    /** `modStreamIn->DeleteFirstBuf()`, if there is a stream. */
    method DropFirstIn()
      requires Apart()
      modifies Owned()
      ensures Apart() && Owned() == old(Owned()) && Both() == DropFirst(old(Both()))
    {
      hide Keep, Ascending, Stored, ModStream.View, DeleteFirst;
      if modStreamIn != null {
        var _ := modStreamIn.DeleteFirstBuf();
      }
    }

    /** `modStreamIn->PopBuf()`. */
    method PopIn() returns (some: bool)
      requires Apart() && modStreamIn != null
      modifies Owned()
      ensures Apart() && Owned() == old(Owned()) && old(Both()).inn.Some?
      ensures Both() == old(Both()).(inn := Some(T38Recv.PopBuf(old(Both()).inn.value)))
      ensures some == (DeleteFirst(old(Both()).inn.value).queue != [])
    {
      hide Keep, Ascending, Stored, ModStream.View;
      some := modStreamIn.PopBuf();
    }

    method RecvStart() returns (ok: bool)
      requires Apart()
      modifies this`modStreamIn, this`stateModem, Owned()
      ensures Apart() && (old(Valid()) ==> Valid() && ok == old(stateModem == StmInReadyData))
      ensures forall o :: o in Owned() ==> o in old(Owned())
      ensures View() == T38Recv.RecvStart(old(View())) && ok == (old(stateModem) == StmInReadyData && CanStart(old(View())))
    {
      hide Apart, Both, Owned, RxOk, T38Recv.PopBuf, DeleteFirst;
      if RxOk(View()) { StartKeeps(View()); }
      if stateModem != StmInReadyData {
        return false;
      }
      HasIn();
      if modStreamIn != null {
        var some := PopIn();
        if some {
          State(StmInRecvData);
          return true;
        }
      }
      NoIn();
      State(StmIdle);
      return false;
    }

    lemma HasIn()
      requires Apart()
      ensures Both().inn == None <==> modStreamIn == null
    {
    }

    method NoIn()
      requires Apart()
      modifies this`modStreamIn
      ensures Apart() && View() == old(View()).(streams := old(Both()).(inn := None)) && forall o :: o in Owned() ==> o in old(Owned())
    {
      modStreamIn := null;
    }

    /** `Recv`, for data that is read as it came. */
    method Recv(count: nat) returns (res: int, bytes: seq<Byte>)
      requires Valid() && (modStreamIn != null ==> modStreamIn.want != Want(DtRaw, DtHdlc))
      modifies Owned()
      ensures Valid() && forall o :: o in Owned() ==> o in old(Owned()) || fresh(o)
      ensures View() == T38Recv.Recv(old(View()), count, []) && Answer(res, bytes) == RecvAnswer(old(View()), count, [])
    {
      hide Keep, Ascending, Stored, StreamsOk, StateOk, ModStream.View, T38Recv.GetData;
      RecvKeeps(View(), count, []);
      if stateModem != StmInRecvData || modStreamIn == null {
        return -1, [];
      }
      res, bytes := modStreamIn.GetData(count);
    }

    method RecvDiag() returns (diag: Option<Diag>)
      requires Valid()
      ensures diag == T38Recv.RecvDiag(View())
    {
      hide RxOk, Ascending, Stored;
      if modStreamIn == null || modStreamIn.firstBuf == null {
        return None;
      }
      assert modStreamIn.Bufs()[0] == modStreamIn.firstBuf;
      return Some(modStreamIn.firstBuf.diag);
    }

    method RecvStop()
      requires Valid()
      modifies this`stateModem, Owned()
      ensures Valid() && Owned() == old(Owned()) && View() == T38Recv.RecvStop(old(View()))
    {
      hide Apart, Both, Owned, RxOk, DropFirst;
      StopKeeps(View());
      if !IsIn(stateModem) {
        return;
      }
      DropFirstIn();
      State(StmIdle);
    }

    /** What `OnResetModemState` does on this side. */
    method Reset()
      requires Valid()
      modifies this`stateModem, Owned()
      ensures Valid() && Owned() == old(Owned()) && View() == RxReset(old(View()))
    {
      hide Apart, Both, Owned, RxOk, DropFirst;
      StopKeeps(View());
      DropFirstIn();
      if !IsOut(stateModem) {
        State(StmIdle);
      }
    }

    /** What `SendStart` does on this side. */
    method TurnToSend(dataType: DataType, accepted: bool)
      requires Valid()
      modifies this`modStreamIn, this`modStreamInSaved, this`stateModem
      ensures Valid() && forall o :: o in Owned() ==> o in old(Owned())
      ensures View() == T38Recv.TurnToSend(old(View()), dataType, accepted)
    {
      hide Keep, Ascending, Stored, RxOk, T38Recv.HandleInd, T38Recv.HandleData, T38Recv.Resume, PacketLost, T38Recv.LineGone, T38Recv.RecvWait, T38Recv.RecvStart, T38Recv.Recv, ModStream.View;
      RxDoOk(View(), AskSend(dataType, accepted));
      if stateModem != StmIdle {
        return;
      }
      modStreamIn := null;
      if dataType != DtSilence {
        modStreamInSaved := null;
      }
      if accepted {
        stateModem := StmOutMoreData;
      }
    }

    lemma Refill(m: ModStream?, t: Target)
      requires At(m, t) && StreamsOk(Both()) && StateOk(stateModem, Both())
      requires (stateModem == StmInWaitData ==> t == Nowhere) && (t == Nowhere || Holds(Both(), t))
      ensures Filling(m, t)
    {
    }

    lemma NowhereOk(m: ModStream?, t: Target)
      requires At(m, t) && StreamsOk(Both()) && StateOk(stateModem, Both())
      ensures Filling(null, Nowhere)
    {
    }

    lemma FillingOk(m: ModStream?, t: Target)
      requires Filling(m, t)
      ensures StreamsOk(Both()) && StateOk(stateModem, Both())
      ensures (stateModem == StmInWaitData ==> t == Nowhere) && (t == Nowhere || Holds(Both(), t))
    {
    }
  }

  lemma FieldsNext(r: Rx, t: Target, fields: seq<RxField>, i: nat)
    requires Points(r.streams, t) && i < |fields|
    ensures var f := fields[i];
      var r1 := r.(streams := T38Recv.PutField(r.streams, t, f), countIn := r.countIn + |f.data|);
      Points(r1.streams, t) && Points(r1.streams, Nowhere) &&
      T38Recv.HandleFields(r, t, fields[i..]) ==
        if !EndsSignal(f.kind) then T38Recv.HandleFields(r1, t, fields[i + 1..])
        else if r.stateModem == StmInWaitSilence then r1.(carrierIn := 0, stateModem := StmIdle, pc := Fields(fields[i + 1..]))
        else T38Recv.HandleFields(r1.(carrierIn := 0), Nowhere, fields[i + 1..])
  {
    hide Apply, T38Recv.PushBuf;
    assert fields[i..][1..] == fields[i + 1..];
  }

  lemma FieldsDone(r: Rx, t: Target, none: seq<RxField>)
    requires Points(r.streams, t) && none == []
    ensures T38Recv.HandleFields(r, t, none) == r.(pc := Rest)
  {
  }

  /** What is done for a field, step by step; the streams are in order when the next buffer is made. */
  lemma Steps(ss: Streams, t: Target, f: RxField)
    requires StreamsOk(ss) && Points(ss, t)
    ensures var s1 := ApplyTo(ss, t, Append(f.data));
      Points(s1, t) && var s2 := if BadFrame(f.kind) then ApplyTo(s1, t, Mark({BadFcs})) else s1;
      Points(s2, t) && StreamsOk(ApplyTo(s2, t, Shut({}))) && Points(ApplyTo(s2, t, Shut({})), t)
      && var s3 := if EndsFrame(f.kind) then PushTo(ApplyTo(s2, t, Shut({})), t) else s2;
      Points(s3, t) && T38Recv.PutField(ss, t, f) == if EndsSignal(f.kind) then ApplyTo(s3, t, Shut({NoCarrier})) else s3
  {
    hide StreamsOk, Apply, T38Recv.PushBuf;
    ApplyToOk(ss, t, Append(f.data));
    var s1 := ApplyTo(ss, t, Append(f.data));
    ApplyToOk(s1, t, Mark({BadFcs}));
    var s2 := if BadFrame(f.kind) then ApplyTo(s1, t, Mark({BadFcs})) else s1;
    ApplyToOk(s2, t, Shut({}));
  }

  lemma NothingYet(m: StateModem, ss: Streams)
    requires StateOk(m, ss)
    ensures m == StmInWaitData && ss.inn.Some? ==> All(ss.inn.value) == []
  {
  }

  lemma BlankStreams(ss: Streams, row: ModRow, want: Want)
    requires StreamsOk(ss)
    ensures StreamsOk(ss.(inn := Some(NewStream(row, want)))) && All(NewStream(row, want)) == []
  {
    BlankOk(row, want, ss.next);
    hide StreamOk;
  }

  lemma TakeIsOffer(ss: Streams, row: ModRow, want: Want)
    requires !Continues(ss, row)
    ensures TakeStream(ss, row, want) ==
      if ss.saved.Some? then Offer(ss.(inn := Some(NewStream(row, want)))) else ss.(inn := Some(NewStream(row, want)))
  {
  }

  lemma StopKeeps(r: Rx)
    requires RxOk(r)
    ensures RxOk(T38Recv.RecvStop(r)) && RxOk(RxReset(r))
  {
    hide RxOk;
    RxDoOk(r, AskStop);
    RxDoOk(r, AskReset);
  }

  lemma Emptied(s: ModStream, next: nat)
    requires s.Shape() && StreamOk(s.View(), next) && All(s.View()) == []
    ensures s.held == [] && s.lastBuf == null && forall others :: AllNewer(s.held, others)
  {
    s.ViewAll();
    OpenNotEmpty(s.View(), next);
  }

  lemma AboveAll(s: ModStream, next: nat)
    requires s.Shape() && StreamOk(s.View(), next)
    ensures Newer(s.held, next)
  {
    s.ViewAll();
  }
}
