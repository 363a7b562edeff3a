# Verification of t38modem's protocol core

A Dafny model of the parts of t38modem, and of the spandsp library it carries, in which bits, frames,
packets, calls and locks can go wrong, with proofs about every run of them. `dafny verify dfyconfig.toml`
checks all of it.

## What is modelled

- **HDLC** (`BitSeq`, `Fcs`, `FcsDetection`, `HdlcWord`, `HdlcChunk`, `HdlcCheck`, `HdlcFraming`, `Hdlc`,
  `HdlcRoundTrip`, `HdlcLink`): the codec of `hdlc.cxx` with its shift word and its 24-bit window, proved against a
  description of the line as a list of bits. The round trip is stated on two codec objects: any frames put into
  the one, any number of opening flags, reads of any sizes on both sides (`HdlcLinks.Transfer`); it rests on
  stuffed data never showing a flag at any offset. The check sequence is taken as what it is, division by a polynomial, which gives its detection
  properties as consequences of one equivalence (`FcsDetection.AcceptedDifference`).
- **Byte queues** (`DataStream`): the chunked queue of `pmutils.cxx` as a sequence of bytes and an EOF flag.
- **T.38 transmit** (`T38Types`, `T38Send`, `T38Run`, `T38Sender`, and the theorems in `T38Grammar`,
  `T38SendSafety`, `T38SendPayload`, `T38SendPacing`, `T38SendTiming`, `T38SendConverted`,
  `T38SendKinds`, `T38SendPauses`, `T38SendLimits`): `SendStart`, `Send`, `SendStop`, the
  reset and `PreparePacket` as atomic steps between two releases of the lock, in any interleaving, with the
  clock as an input. `T38Sender` is the object; each of its methods is proved to be a step of the
  specification that the theorems are about. `T38Grammar` reads a stream of packets with no knowledge of the
  engine and says whether it is well-formed and what it carries.
- **T.38 receive** (`T38ModStream`, `T38Recv`, `T38Receiver`, and `T38RecvSafety`, `T38RecvMarks`,
  `T38RecvAsked`): the two streams of buffers with
  their pointers, `HandlePacket` and the modem's calls. A buffer's number stands for its address, so that `lastBuf`
  could dangle.
- **T.38 calls** (`T38Pages`, `T38Session`, `T38SessionLine`, `T38SessionModem`, `T38SessionReads`, `T38SessionLoss`,
  `T38SessionSilence`, `T38EndToEnd`): a receiving engine from its first state on gets every packet of another engine, and the news of lost
  ones, while its modem asks for a signal,
  reads, stops, is reset or turns to sending, at any moment; before the first indicator, between bursts and after
  no-carrier as well. A stream of packets is heard as a list of bursts, each a list of pages, one page for each buffer;
  the history of the modem says which bursts it took and what it read of each. `T38EndToEnd` puts the sender before it.
- **DLE shielding** (`DleCode`, `DleData`), **BERT** (`BertCode`, `BertSync`, `BertTester`, `BertLink`), **call control**
  (`CallControl`, `ModemEngineBody`), **locks** (`LockOrder`), **redundancy** (`Rfc2198`, `Rfc2198Sim`), the
  **packet queue** (`G1050Queue`), **bit packing** (`BitPacking`, `BitStream`), **caller-ID framing** (`Adsi`,
  `AdsiPort`) and **async framing** (`Async`, `AsyncErrors`, `AsyncPort`).

The engine's two halves are two objects here. What the one does to a field that both use is an event of the other:
the carrier that is heard (`isCarrierIn`) and the receiving states of the modem are events of the transmit side,
the start and the end of a sending state are events of the receive side, at any time.

Where the original updates an object in place there is a class with the same fields and loops, whose methods
are proved against functions on values; the theorems about runs are about these functions. Input from outside
(time, arrival times, channel errors, the network's answers, the order of the threads) is a parameter, over
which the theorems quantify.

## Where the code differs from what one would expect

- `PutDleData` with bit reversal does not move on in its input between blocks of 1024 bytes. A call stores
  exactly what was sent if and only if nothing is reversed or the call is at most 1024 bytes long
  (`DleCode.ExactWithinBlock`); the terminal driver never passes more (`t38modem/drv_pty.cxx:157`).
- A reset in the middle of a frame sets EOF but leaves the modem in its sending state. The packet thread then gives up
  (`T38SendLimits.ResetInsideFrame`), if and only if it comes to the end of the frame before a `SendStop` does
  (`T38SendLimits.GivesUp`). The theorems on delivery and progress are about runs without such a reset; those on the grammar, on acknowledgements and on pacing are not
  restricted.
- No-signal throws away what nobody has asked for. So a burst can be asked for exactly until the no-signal after it
  (`T38SessionReads.FreeUntilNoSignal`), and a reader can have the whole of it if and only if it took it by then and
  gave none of it up (`T38EndToEnd.AskedReadIffTaken`).
- With no opening flag the first frame is lost and no other (`HdlcLinks.Transfer`).
- The other side's carrier is waited out once only: a burst of raw data that follows one of frames over the same carrier
  does not wait 2000 ms again (`T38SendTiming.NotOverCarrier`).
- A clearcall request that says to dial the next number while the dial callback is still out leaves a token that the next
  callback overwrites, so that the first call is never cleared (`CallControl.TokenOverwritten`; `TokenLostIff` says when a
  token is lost, and `CalmKeeps` that it takes such a request).
- With twelve stop bits or more the caller-ID receiver takes the gap between two characters for an idle line
  and never reports a message (`Adsi.ReportedIffShortGaps`).
- The redundancy receiver loses messages exactly when as many packets as the depth are lost in a row
  (`Rfc2198.CompleteIffGapsBelow`).
- `firstIn` is set once and never cleared (`t38modem/t38engine.cxx:1875-1877` tests the wrong way round), so the
  rule that a no-signal before any data is ignored holds for every stream, and is modelled so.
- The counter of overlapping releases (`t38modem/pmodeme.cxx:1328`) never exceeds one, because only one thread
  runs `OnHook` and a received clearcall is turned down while a release is under way
  (`CallControl.NoCallWhileReleasing`).

## Model

| member | source | states |
|---|---|---|
| Fcs.FCS.Build | t38modem/fcs.cxx:47-61 | the register after `build` is the remainder that dividing all the bits of the buffer, most significant first, leaves from the register before |
| Fcs.FCS.BuildByte | t38modem/fcs.cxx:53-60 | the inner loop over one byte takes exactly its eight bits into the division |
| Fcs.StepAsCoded | t38modem/fcs.cxx:54-58 | the shift, the `0x10000` and the `0x11021` of the inner loop are one division step, and keep the register in 16 bits |
| Fcs.ShiftInjective | t38modem/fcs.cxx:54-58 | a step never maps two registers to one |
| FcsDetection.AcceptedIffResidue | t38modem/hdlc.cxx:361-374 | a codeword passes the check if and only if the whole of it leaves the one good residue |
| FcsDetection.AcceptedDifference | t38modem/hdlc.cxx:361-374 | of two words of one length, the first accepted, the second is accepted if and only if their difference is a multiple of the generator |
| FcsDetection.BurstLeavesRemainder | t38modem/fcs.cxx:47-61 | a nonzero difference within 16 consecutive bits is not a multiple of the generator, at any length and place |
| FcsDetection.OddLeavesRemainder | t38modem/fcs.cxx:47-61 | nor is a difference in an odd number of bits |
| FcsDetection.DetectsBurst | t38modem/hdlc.cxx:361-374 | a received frame that differs from a good one within 16 consecutive bits, check bits included, fails the check |
| FcsDetection.DetectsOdd | t38modem/hdlc.cxx:361-374 | so does one that differs in an odd number of bits |
| FcsDetection.DifferentMessages | t38modem/fcs.cxx:47-61 | messages of one length, of any length, that differ in either of these ways have different check values |
| BitSeq.ToBitsInjective | t38modem/hdlc.cxx:62-99 | byte strings with the same line bits are the same |
| DataStreams.ChunkStream.Write | t38modem/pmutils.cxx:119-133 | appends as much as fits, says how much, and -1 for a full chunk with nothing changed |
| DataStreams.ChunkStream.Read | t38modem/pmutils.cxx:135-149 | what is read and what is left are together what was there; -1 only for a spent chunk |
| DataStreams.DataStream.constructor | t38modem/pmutils.h:195-198 | a new queue is empty, not ended, with no diagnostic |
| DataStreams.DataStream.PutData | t38modem/pmutils.cxx:151-179 | the bytes are appended, all of them, unless EOF was set; then -1 and nothing changes |
| DataStreams.DataStream.Drain | t38modem/pmutils.cxx:190-212 | the loop of `GetData` deletes spent chunks without `lastBuf` ever dangling |
| DataStreams.DataStream.GetData | t38modem/pmutils.cxx:181-219 | exactly the first min(count, busy) bytes are removed and returned; -1 if and only if the queue is empty at EOF |
| DataStreams.DataStream.PutEof | t38modem/pmutils.h:203 | sets EOF and leaves the contents alone |
| DataStreams.DataStream.Clean | t38modem/pmutils.cxx:221-232 | nothing is left, neither bytes nor EOF nor diagnostic; the threshold stays |
| Hdlc.HDLC.Emit | t38modem/hdlc.cxx:87-96 | a bit that came into the upper byte is the next bit of the line, a full byte going to the queue |
| Hdlc.HDLC.PackBit | t38modem/hdlc.cxx:77-97 | one data bit lengthens the line by itself, and by a zero after the fifth one in a row unless it is part of a flag |
| Hdlc.HDLC.PackByte | t38modem/hdlc.cxx:71-98 | the eight bits of a byte are sent stuffed, with the run of ones carried over the byte |
| Hdlc.HDLC.Pack | t38modem/hdlc.cxx:62-99 | the line grows by the stuffed bits of the buffer (or the plain bits of a flag), across bytes and calls |
| Hdlc.HDLC.Close | t38modem/hdlc.cxx:222-246 | the frame ends with its check sequence, spoilt if its diagnostic has an error, and two flags |
| Hdlc.HDLC.Feed | t38modem/hdlc.cxx:205-255 | every turn keeps the line that is ahead the same; after the last one no run of ones is left over |
| Hdlc.HDLC.GetInData | t38modem/hdlc.cxx:174-190 | bytes come off the input unchanged and are counted; after the end always -1 |
| Hdlc.HDLC.GetRawFromHdlc | t38modem/hdlc.cxx:192-262 | whatever the sizes of the reads, what is handed out and what is ahead are together what was ahead, and no more than asked for is handed out; when a frame has ended no run of ones is left over for the next |
| Hdlc.HDLC.SyncByte | t38modem/hdlc.cxx:101-118 | the first flag at any bit offset is found, and exactly the bits after it kept |
| Hdlc.HDLC.SkipFlag | t38modem/hdlc.cxx:120-132 | a flag, and only a flag, is dropped, at the offset the frames have |
| Hdlc.HDLC.TakeBit | t38modem/hdlc.cxx:144-168 | a zero after five ones is dropped, any other bit joins the data, the last 16 bits being held back |
| Hdlc.HDLC.UnpackByte | t38modem/hdlc.cxx:134-172 | one byte of the line: destuffed data joins the frame, and the closing flag is found at any offset |
| Hdlc.HDLC.Deliver | t38modem/hdlc.cxx:274-290 | bytes handed out go into the check sequence, and into the frame so far |
| Hdlc.HDLC.RxLoop | t38modem/hdlc.cxx:272-350 | the loop of `GetHdlcData` is where the bit stream says the bytes taken in lead |
| Hdlc.HDLC.GetHdlcFromRaw | t38modem/hdlc.cxx:264-352 | some prefix of the input is taken in, no byte past a closing flag; the state is the bit receiver run over it, and the bytes handed out are appended to the frame |
| Hdlc.HDLC.IsFcsOK | t38modem/hdlc.cxx:361-374 | true if and only if the bits of the frame pass the check |
| Hdlc.HDLC.PutRawData | t38modem/hdlc.cxx:376-381 | the input is set, and no last character is known |
| Hdlc.HDLC.PutHdlcData | t38modem/hdlc.cxx:383-388 | the same for frames |
| Hdlc.HDLC.GetRawStart | t38modem/hdlc.cxx:390-399 | so many opening flags follow the unsent bits of the frame before; the check sequence starts over, and so does the run of ones if any flag is sent |
| Hdlc.HDLC.GetHdlcStart | t38modem/hdlc.cxx:401-415 | the receiver restarts without losing unread line bits; from frames, four bytes are counted for every frame but the first |
| HdlcFraming.NoFalseFlag | t38modem/hdlc.cxx:62-99 | stuffed data shows no flag at any bit offset, the closing one's beginning included |
| HdlcFraming.DestuffStuff | t38modem/hdlc.cxx:134-172 | destuffing undoes stuffing, whatever run of ones it starts after |
| HdlcFraming.UnpackLine | t38modem/hdlc.cxx:134-172 | scanning part of a line whose next flag follows `s` takes in `s` exactly, or stays inside it, and finds the flag if and only if all of it is there |
| HdlcFraming.SyncLine | t38modem/hdlc.cxx:101-118 | looking for the first flag discards what precedes it and nothing else |
| HdlcFraming.DecodeRun | t38modem/hdlc.cxx:264-352 | taking in the bytes of one frame and starting over on the rest is decoding them all |
| HdlcFraming.DecodeFrame | t38modem/hdlc.cxx:264-352 | between frames any number of flags is skipped, and the next frame comes out as it went in |
| HdlcFraming.DecodeLine | t38modem/hdlc.cxx:264-352 | a line of frames decodes to exactly those frames, in order, at any bit offset |
| HdlcFraming.DecodeFromSync | t38modem/hdlc.cxx:264-352 | the same behind noise that shows no flag |
| HdlcCheck.CompareAccepts | t38modem/hdlc.cxx:361-374 | the 16-bit comparison of `isFcsOK` is the codeword check |
| HdlcCheck.ContentsGood | t38modem/hdlc.cxx:222-234 | a frame passes the check if and only if it was not sent with an error diagnostic |
| HdlcRoundTrip.RoundTrip | t38modem/hdlc.cxx:192-352 | decoding the whole bytes of a line of frames with at least one opening flag, behind noise without a flag, gives one result for each frame, in order, with its own data, good if and only if sent as good |
| HdlcLinks.SendFrames | t38modem/hdlc.cxx:192-262 | frames put into the codec one after the other, the line read in pieces of any sizes: the pieces, and the bits of the last byte that is not full, are the whole line of these frames |
| HdlcLinks.ReadFrames | t38modem/hdlc.cxx:264-352 | a line that comes in pieces of any sizes, read in parts of any sizes, with a start and a check for each frame: the results are those of decoding the whole line |
| HdlcLinks.Transfer | t38modem/hdlc.cxx:192-415 | from codec to codec, with any sizes of reads on both sides: the frames come out in order with their data, good if and only if sent as good; only with no opening flag the first one is lost |
| HdlcRoundTrip.DataOfUnique | t38modem/hdlc.cxx:264-352 | the data of a result is determined by its bits |
| T38Types.RowOk | t38modem/t38engine.cxx:475-489 | every row of the modulation table has an indicator of its own modulation and a positive rate of at most 14400 bit/s |
| T38Types.FoundByInd | t38modem/t38engine.cxx:498-514 | a row is found for an indicator if and only if it is a training indicator |
| T38Senders.GetModPars | t38modem/t38engine.cxx:498-514 | the first row with the number, or none |
| T38Receivers.GetModParsByInd | t38modem/t38engine.cxx:498-514 | the first row with the indicator, or none |
| T38Senders.T38Sender.SendOnIdle | t38modem/t38engine.cxx:766-775 | notes what to send between bursts |
| T38Senders.T38Sender.SendStart | t38modem/t38engine.cxx:777-831 | accepted if and only if the modem is idle and the type and modulation are known; then the burst's parameters are set and the queue is empty |
| T38Senders.T38Sender.Send | t38modem/t38engine.cxx:833-853 | appends to the queue in the sending state; otherwise, or after EOF, -1 |
| T38Senders.T38Sender.SendStop | t38modem/t38engine.cxx:855-878 | accepted exactly in the sending state; the frame is closed and the callback noted |
| T38Senders.T38Sender.OnResetModemState | t38modem/t38engine.cxx:739-758 | the frame is closed and the callback replaced, but a sending modem stays where it is |
| T38Senders.T38Sender.BeginBurst | t38modem/t38engine.cxx:1199-1264 | waits out the gap and the other side's carrier, then sends the indicator; for how long, `T38SendTiming.BurstBegins` says |
| T38Senders.T38Sender.Indicate | t38modem/t38engine.cxx:1246-1264 | one indicator, or the silence, by the kind of burst |
| T38Senders.T38Sender.BeginData | t38modem/t38engine.cxx:1289-1327 | counts and times start over and the queue is attached; frames as raw data are refused |
| T38Senders.T38Sender.FetchDirect | t38modem/t38engine.cxx:1336 | for data sent as it is, the fetch moves bytes from the queue, letting go of it at its EOF |
| T38Senders.T38Sender.FetchConverted | t38modem/t38engine.cxx:1336 | for raw bits sent as frames, it moves what the converter says |
| T38Senders.T38Sender.Use | t38modem/t38engine.cxx:1344-1404 | bytes become one data packet of the right kind and are counted; -1 ends the frame or the burst; none waits |
| T38Senders.T38Sender.EndConverted | t38modem/t38engine.cxx:1414-1435 | the end of a converted frame: its check result, and the next frame or the end |
| T38Senders.T38Sender.EndFrame | t38modem/t38engine.cxx:1437-1462 | the end of a frame: fcs-ok, the stop acknowledged if more frames follow; not without a `SendStop` |
| T38Senders.T38Sender.EndBurst | t38modem/t38engine.cxx:1465-1497 | the end of the burst: sig-end, and the stop acknowledged; not without a `SendStop` |
| T38Senders.T38Sender.Tone | t38modem/t38engine.cxx:1266-1287 | after CED, or a silence, the request is acknowledged |
| T38Senders.T38Sender.Look | t38modem/t38engine.cxx:1192-1521 | the locked switch takes the branch of its state |
| T38Senders.T38Sender.Wake | t38modem/t38engine.cxx:1545-1567 | after a wait in mid-data the count and the time base start over |
| T38Senders.T38Sender.Close | t38modem/t38engine.cxx:1570-1582 | the next delay, from the bytes counted in a burst, or a fixed one |
| T38Senders.T38Sender.PreparePacketStep | t38modem/t38engine.cxx:1108-1589 | one step between two releases of the lock, in any state, as the specification |
| T38Senders.T38Sender.SendingNotCompleted | t38modem/t38engine.cxx:1073-1087 | says whether something is on the line, or the gap after the last no-signal lasts; `T38SendLimits.AllSent` and `StillBusy` say what that is worth |
| T38Grammar.PrefixUnbroken | t38modem/t38engine.cxx:1197-1520 | a stream that is not broken has no broken beginning |
| T38Grammar.AfterEnd | t38modem/t38engine.cxx:1478-1504 | in a well-formed stream no-signal follows every end of burst at once, and nothing else |
| T38SendSafety.LookKeeps | t38modem/t38engine.cxx:1192-1521 | every branch of the switch sends only what may come next, and leaves a state that fits it |
| T38SendSafety.Grammar | t38modem/t38engine.cxx:1108-1589 | in every interleaving of `SendStart`, `Send`, `SendStop`, resets and packet steps the packets sent begin a stream of bursts (CED; or indicator, data and fcs or raw data, sig-end), each followed by no-signal, with CNG only in between; and the modem is in a sending state as long as a burst is on the line |
| T38SendSafety.Acknowledged | t38modem/t38engine.cxx:855-878 | in every run the accepted stops are acknowledged in order, each exactly once with its parameter; only the one the modem is in is due |
| T38SendPayload.FetchInData | t38modem/t38engine.cxx:1336-1361 | -1 comes only when every byte of a closed frame has gone |
| T38SendPayload.Delivered | t38modem/t38engine.cxx:777-878 | in every run of direct sends with no reset inside a frame the bursts on the line carry what the modem asked for, exact and in order, only the last being still on its way; and the packet thread never gives up |
| T38SendLimits.GivesUp | t38modem/t38engine.cxx:1437-1476 | in every run without conversion the thread has given up if and only if it came, at some moment, to the end of a frame that a modem reset had closed and no `SendStop` since |
| T38SendLimits.ResetInsideFrame | t38modem/t38engine.cxx:739-758 | a run with a reset inside a frame that ends with the thread giving up |
| T38SendLimits.StopIsAnswered | t38modem/t38engine.cxx:855-878 | from any point where a stop is pending, every schedule of steps of the packet thread that outlast its delays, woken by data or by timeout, brings its acknowledgement within a number of steps that the state gives |
| T38SendLimits.AllSent | t38modem/t38engine.cxx:1073-1087 | once `SendingNotCompleted` says no, in any run, the packets sent end between bursts, every accepted stop of an idle modem is acknowledged, and all that it asked for is on the line |
| T38SendLimits.StillBusy | t38modem/t38engine.cxx:1073-1087 | while it says yes, a burst is on the line, or its no-signal is to come or new, or a silence lasts |
| T38SendPacing.StepPaced | t38modem/t38engine.cxx:1554-1582 | every step keeps what is counted due, or held back by the delay set |
| T38SendPacing.NeverAhead | t38modem/t38engine.cxx:1570-1582 | in every run, when a data packet goes out at `t`: 8000 * rawCount < br * (t - timeBegin + 1), and the same for all bytes since the burst began, with one more millisecond for each wait for the modem |
| T38SendTiming.BurstBegins | t38modem/t38engine.cxx:1199-1253 | in every run the indicator of a burst of data goes out if and only if the thread looks for what to do with such a burst to begin, 75 ms have passed since the last no-signal (or a silence has begun since), and the other side's carrier is not heard, or was known of, with the gap over, for 500 ms (frames) or 2000 ms (raw data), or was waited out before |
| T38SendTiming.NotOverCarrier | t38modem/t38engine.cxx:1210-1243 | so none goes out over a carrier known of for less than 500 ms, or 2000 ms for raw data unless a burst of frames waited it out before |
| T38SendTiming.CedBegins | t38modem/t38engine.cxx:1199-1253 | CED goes out once the gap is over, whatever the carrier |
| T38SendTiming.PauseEnds | t38modem/t38engine.cxx:1554-1582 | an indicator lasts as long as the table says, CED and a silence as long as the modem says, to the millisecond; elsewhere between bursts the thread pauses 30 ms |
| T38SendTiming.NothingEarly | t38modem/t38engine.cxx:1266-1327 | no data goes out and no tone or silence is acknowledged before that time is over |
| T38SendTiming.CngAtMost | t38modem/t38engine.cxx:766-775 | in every run no more CNG goes out than was asked for |
| T38SendTiming.CngComes | t38modem/t38engine.cxx:766-775 | and when asked for, with nothing else to send, it goes out |
| T38SendConverted.SentAsSaid | t38modem/t38engine.cxx:1336-1435 | in every run, raw bits sent as frames: the fields of the burst are what the codec said, in order, with fcs-ok or fcs-bad after each frame by its check |
| T38SendConverted.CodecFollowed | t38modem/t38engine.cxx:1336-1404 | in every run, raw bits sent as frames: a frame ends exactly when the codec has no more bytes and says so, the thread waits exactly when it says nothing, and the queue and the count are left as it says |
| T38SendConverted.FrameFollowed | t38modem/t38engine.cxx:1414-1435 | in every run, after the end of such a frame, the burst ends exactly if the codec says that there is no other |
| T38SendKinds.StartIff | t38modem/t38engine.cxx:777-831 | in every run a burst is accepted exactly from an idle modem, and of data exactly with a number of the table |
| T38SendKinds.SentAsAsked | t38modem/t38engine.cxx:802-823 | in every run a packet is of the burst asked for last: modulation and indicator by its number, frames if that is V.21 or error correction was agreed on, else raw data; frames asked for where raw data is to go are not sent |
| T38SendKinds.PacketsSized | t38modem/t38engine.cxx:1329-1336 | in every run a packet of data that goes as it came has at most 54 bytes and 30 ms of the bit rate |
| T38SendKinds.PacketsFull | t38modem/t38engine.cxx:1329-1336 | and it has as many of the queue's first bytes as it may |
| T38SendKinds.ClosedStays | t38modem/t38engine.cxx:833-878 | in every run nothing joins a frame that a stop or a reset has closed |
| T38SendKinds.CngIff | t38modem/t38engine.cxx:766-775 | in every run CNG goes out exactly when the thread looks with no burst to send, CNG was the last wish, and no reset withdrew it |
| T38SendKinds.LooksOnce | t38modem/t38engine.cxx:1108-1192 | in every run the thread looks at the switch once between two delays; it comes to wait for the modem there exactly with no burst to send and no CNG wished |
| T38SendKinds.ResetFrees | t38modem/t38engine.cxx:739-758 | in every run a reset frees a modem that does not send, and leaves a sending one where it is with its frame closed |
| T38SendKinds.DoneFrees | t38modem/t38engine.cxx:1437-1497 | in every run the thread lets go of the modem exactly when it acknowledges its stop or ends its tone or silence: to go on if it said that more frames come, else idle |
| T38SendKinds.WaitEnds | t38modem/t38engine.cxx:1545-1567 | in every run the thread waits only with nothing to send; a signal makes it look at once, a timeout after a pause |
| T38SendPauses.GoesOn | t38modem/t38engine.cxx:1554-1582 | in every run the thread goes on after a pause exactly when the bytes taken since the data, or the wait for the modem, began, with four for each end of frame, are due at the bit rate and 30 ms have passed since; at once after a silence, and after a wait of which nothing was sent |
| T38ModStreams.ModStream.constructor | t38modem/t38engine.cxx:338-340 | a new stream has no buffer |
| T38ModStreams.ModStream.PushBuf | t38modem/t38engine.cxx:352-356 | a new buffer is the newest, and the one that `lastBuf` points to |
| T38ModStreams.ModStream.DeleteFirstBuf | t38modem/t38engine.cxx:358-368 | the first buffer is gone, and `lastBuf` is null if it pointed there |
| T38ModStreams.ModStream.PopBuf | t38modem/t38engine.cxx:370-385 | the oldest queued buffer becomes the first one |
| T38ModStreams.ModStream.PutData | t38modem/t38engine.cxx:427-434 | the bytes join the buffer at `lastBuf`, and -1 if there is none |
| T38ModStreams.ModStream.SetDiag | t38modem/t38engine.cxx:436-442 | the diagnostic is added to the buffer at `lastBuf` |
| T38ModStreams.ModStream.PutEof | t38modem/t38engine.cxx:444-451 | the buffer at `lastBuf` is closed and `lastBuf` null; the other buffers are untouched |
| T38ModStreams.ModStream.GetData | t38modem/t38engine.cxx:387-425 | bytes come off the first buffer, for data read as it came |
| T38ModStreams.ModStream.TakeBufs | t38modem/t38engine.cxx:453-463 | all buffers of the other stream, in their order, behind one's own |
| T38ModStreams.ModStream.Move | t38modem/t38engine.cxx:453-466 | the buffers change hands in arrival order, `lastBuf` with them, and the other stream is empty |
| T38Receivers.T38Receiver.PushBuf | t38modem/t38engine.cxx:352-356 | the new buffer of the stream at hand has an address no buffer had |
| T38Receivers.T38Receiver.PutField | t38modem/t38engine.cxx:1793-1845 | one field: data, bad-fcs mark, end of frame with a new buffer, end of signal, in this order, to the stream at hand |
| T38Receivers.T38Receiver.HandleFields | t38modem/t38engine.cxx:1786-1860 | the loop over the fields, up to the callback that ends the wait for silence |
| T38Receivers.T38Receiver.Aim | t38modem/t38engine.cxx:1769-1784 | the stream at hand is the one that is open, if any |
| T38Receivers.T38Receiver.HandleData | t38modem/t38engine.cxx:1767-1871 | data of another modulation closes the open stream as out of order, and goes nowhere |
| T38Receivers.T38Receiver.OfferSaved | t38modem/t38engine.cxx:1737-1752 | a modem that waits gets the saved stream, or a buffer that says the signal differs |
| T38Receivers.T38Receiver.HandleInd | t38modem/t38engine.cxx:1638-1667 | a repeated indicator, and a no-signal before any data, change nothing; any other breaks off an open stream |
| T38Receivers.T38Receiver.HandleInd2 | t38modem/t38engine.cxx:1669-1763 | the rest of an indicator: the saved stream is dropped, and a training indicator begins a new one |
| T38Receivers.T38Receiver.HandlePacket | t38modem/t38engine.cxx:1617-1884 | a packet, up to the callback after which something is still to do |
| T38Receivers.T38Receiver.Resume | t38modem/t38engine.cxx:1617-1884 | what is still to do after it, on streams that the modem may have changed in between |
| T38Receivers.T38Receiver.HandlePacketLost | t38modem/t38engine.cxx:1591-1615 | an open V.21 stream is marked bad, and nothing else; `T38RecvMarks.LossStays` says what that means for its frame |
| T38Receivers.T38Receiver.LineGone | t38modem/t38engine.cxx:672-697 | an open stream is closed with no-carrier, out of order if it had data |
| T38Receivers.T38Receiver.LineGoneRest | t38modem/t38engine.cxx:699-705 | and a wait for silence ends |
| T38Receivers.T38Receiver.RecvWait | t38modem/t38engine.cxx:880-973 | accepted if and only if idle with a known type and modulation; done if and only if there is something to read or nothing to wait for |
| T38Receivers.T38Receiver.RecvStart | t38modem/t38engine.cxx:975-1005 | the next buffer is being read if and only if there is one; a modem told that there is always gets it |
| T38Receivers.T38Receiver.Recv | t38modem/t38engine.cxx:1007-1035 | bytes of the buffer being read, -1 at its end |
| T38Receivers.T38Receiver.RecvDiag | t38modem/t38engine.cxx:1037-1050 | the diagnostic of the buffer being read |
| T38Receivers.T38Receiver.RecvStop | t38modem/t38engine.cxx:1052-1071 | the buffer being read is dropped |
| T38Receivers.T38Receiver.Reset | t38modem/t38engine.cxx:739-757 | the same on a reset |
| T38Receivers.T38Receiver.TurnToSend | t38modem/t38engine.cxx:777-800 | turning to send drops what was received |
| T38RecvSafety.ApplyOk | t38modem/t38engine.cxx:427-451 | putting data, marking and closing keep arrival order, and EOF on all but the newest buffer |
| T38RecvSafety.DeleteOk | t38modem/t38engine.cxx:358-368 | deleting a buffer keeps them |
| T38RecvSafety.MoveOk | t38modem/t38engine.cxx:453-466 | `Move` into a stream with no buffers keeps them and the order |
| T38RecvSafety.TakeOk | t38modem/t38engine.cxx:926-968 | `RecvWait` keeps them, and one stream open at most |
| T38RecvSafety.FieldsOk | t38modem/t38engine.cxx:1786-1860 | so does the loop over the fields |
| T38RecvSafety.ReceiveBuffers | t38modem/t38engine.cxx:1617-1884 | in every interleaving of packets, lost packets, callbacks and calls: at most one stream is open, its open buffer is its newest, every older one has EOF, and a modem that is told of data can start to read it |
| T38RecvMarks.OneStream | t38modem/t38engine.cxx:453-466 | in every run no buffer is in both streams |
| T38RecvMarks.LossStays | t38modem/t38engine.cxx:1604-1612 | in every run, a loss that comes while a buffer of a V.21 stream is being filled leaves that buffer with bad-fcs for as long as it lives |
| T38RecvMarks.LossElse | t38modem/t38engine.cxx:1604-1612 | a loss changes nothing else, and with no V.21 stream open nothing at all |
| T38RecvMarks.CutStays | t38modem/t38engine.cxx:1638-1667 | in every run, a buffer whose signal is cut short by another indicator, by data of another modulation or by the end of the line has no-carrier for as long as it lives, and out-of-order unless the line ended before any data |
| T38RecvMarks.NotCut | t38modem/t38engine.cxx:1638-1650 | its own indicator again, or a no-signal before any data, changes nothing |
| T38RecvMarks.DataCounted | t38modem/t38engine.cxx:1716-1800 | bytes of data are counted from the training on |
| T38RecvAsked.WaitIff | t38modem/t38engine.cxx:880-973 | in every run a wait for data is accepted exactly from an idle modem with a number of the table, and is done at once exactly if there is something to read; a wait for silence exactly from an idle modem; a refused one changes nothing |
| T38RecvAsked.GivenAsAsked | t38modem/t38engine.cxx:926-952 | in every run the stream that the modem has is of its last request: the modulation of its number, the data wanted as asked for, coming in frames from V.21 and where error correction was agreed on, else raw |
| T38RecvAsked.StopFrees | t38modem/t38engine.cxx:1052-1071 | in every run a stop or a reset makes a receiving modem idle and drops the buffer being read; a sending one stays where it is |
| T38RecvAsked.SilenceEnds | t38modem/t38engine.cxx:1674-1860 | in every run a wait for silence lasts exactly until an indicator or an end of signal comes, or the line is gone |
| T38RecvAsked.GivenIff | t38modem/t38engine.cxx:1007-1035 | in every run a reading modem is given the first bytes of its buffer, as many as it asks for and there are; -1 exactly at the end of a closed one |
| T38RecvAsked.NotGiven | t38modem/t38engine.cxx:1014-1017 | in every run another modem is given nothing, and changes nothing by asking |
| T38RecvAsked.NothingToGive | t38modem/t38engine.cxx:387-424 | nor is anything given once the last buffer was left, or of raw data that is wanted as frames |
| T38RecvAsked.ConvertedIs | t38modem/t38engine.cxx:387-425 | frames read as raw bits are read one after the other; past the last one the data ends only if the signal has ended |
| T38RecvAsked.IndTold | t38modem/t38engine.cxx:1638-1763 | in every run a modem that is reading is told of the indicator that cuts its stream short before anything else is done; then, or else at once, the saved stream is dropped and a training begins a new one |
| T38RecvAsked.LineGoneDrops | t38modem/t38engine.cxx:672-697 | in every run, when the line is gone, no carrier is heard, nothing is saved and nothing open |
| T38RecvAsked.TurnDrops | t38modem/t38engine.cxx:777-800 | in every run only an idle modem turns to sending; what it has not read is gone, and what is saved unless it sends a silence |
| T38Session.AlwaysLineOk | t38modem/t38engine.cxx:1786-1860 | of a well-formed stream every burst but the one on the line is over, every page but its last is closed, and the last one says no-carrier exactly when it is closed |
| T38SessionLine.FieldFor | t38modem/t38engine.cxx:1769-1784 | in a call, a field goes to the stream being read if and only if the modem reads the burst on the line, to the saved one while that burst can be asked for, else nowhere |
| T38SessionLine.HearsSynced | t38modem/t38engine.cxx:1617-1884 | any packet of a well-formed stream, in any state of the modem, keeps this: what was read of a burst and what the buffers hold make up what has come of it |
| T38SessionModem.DoesSynced | t38modem/t38engine.cxx:880-1071 | so does any call of the modem |
| T38SessionModem.AlwaysSynced | t38modem/t38engine.cxx:880-1884 | at every moment of every call: what was read of the burst taken last and what the buffers hold are its pages so far; the burst on the line is saved exactly while it can be asked for; a modem told of data has something to read |
| T38SessionReads.Reads | t38modem/t38engine.cxx:975-1035 | in every call the bursts taken are ever later ones; of each the pages read are its first ones, exact, in order and unmerged; a modem that never gave one up has read the whole of each but the one in progress |
| T38SessionReads.FreeUntilNoSignal | t38modem/t38engine.cxx:1669-1690 | a burst can be asked for exactly while no indicator has come since its training, unless it is taken or the modem turned to sending |
| T38SessionReads.CallCloser | t38modem/t38engine.cxx:880-1035 | when a burst is over, a modem that has it has a next call that leaves less to read, until all of it is read |
| T38SessionReads.Finish | t38modem/t38engine.cxx:880-1035 | so the modem comes to the end of it by its own calls, with as many pages as the burst has |
| T38SessionReads.ReadIffTaken | t38modem/t38engine.cxx:880-1035 | of a burst past its no-signal the whole can still be had if and only if it was read, or was taken last with none of its pages given up |
| T38SessionLoss.BadIffHurt | t38modem/t38engine.cxx:1604-1612 | a page of a burst is bad if and only if, while it was the open one, the other engine said that its check was bad, or packets were lost of V.21 |
| T38SessionLoss.ReadBadIffHurt | t38modem/t38engine.cxx:1037-1050 | and so, in every call, is a page that the modem has read to its end |
| T38SessionSilence.CarrierTold | t38modem/t38engine.cxx:1669-1860 | in every call the engine remembers a carrier exactly while a burst is on the line, and a modem waits for silence only then |
| T38SessionSilence.SilenceIff | t38modem/t38engine.cxx:899-914 | in every call an idle modem that asks for silence waits exactly if a burst is on the line that cannot be asked for any more and its last request was for data; else it is done at once |
| T38EndToEnd.HeardPayloads | t38modem/t38engine.cxx:1786-1860 | each burst of a well-formed stream is heard as the pages of its payload: its frames and an empty page with no-carrier, or its image with no-carrier |
| T38EndToEnd.EndToEnd | t38modem/t38engine.cxx:777-1884 | for every run of a sender with direct sends and no reset inside a frame, all of its packets, and every behaviour of a reading modem: the transmissions read are ever later ones, what is read of one is what was asked for as that one, page by page, and a modem that never gave one up has read every one it took whole |
| T38EndToEnd.AskedReadIffTaken | t38modem/t38engine.cxx:777-1884 | transmission `k` past its no-signal: the reading modem can have exactly its frames or image in the end if and only if it has them, or took it last in time and gave none of its pages up |
| DleDatas.InitBitRevTable | t38modem/dle.cxx:77-89 | entry `i` of the table is `i` with its bits reversed |
| DleDatas.DleData.FindDle | t38modem/dle.cxx:126 | the first DLE from a place on, or none |
| DleDatas.DleData.StoreRun | t38modem/dle.cxx:139-153 | a run goes to the queue block by block, reversed or not, as the code does it: reversed, every block starts over |
| DleDatas.DleData.PutDleData | t38modem/dle.cxx:98-159 | everything up to DLE ETX is taken out of its shielding and stored, then EOF; the count says how much was used up; after EOF -1 |
| DleDatas.DleData.GetBlock | t38modem/dle.cxx:169-193 | one block: what is handed out and what is ahead are together what was ahead |
| DleDatas.DleData.GetDleData | t38modem/dle.cxx:161-194 | never more than `count` bytes, none lost or repeated whatever the sizes, and DLE ETX once at the end |
| DleCode.RevBits | t38modem/dle.cxx:77-89 | reversing a byte reverses its bits |
| DleCode.DecodeAdd | t38modem/dle.cxx:98-159 | the data may come in pieces, cut anywhere |
| DleCode.DecodeEncode | t38modem/dle.cxx:98-194 | decoding undoes encoding, ends at the closing DLE ETX and leaves what follows |
| DleCode.ScanDecodes | t38modem/dle.cxx:106-156 | in calls of at most 1024 bytes, or with no reversal, the scan is the escape automaton |
| DleCode.ExactWithinBlock | t38modem/dle.cxx:139-153 | calls of `n` bytes store what was sent, whatever it is, if and only if there is no reversal or `n` is at most 1024 |
| DleCode.RoundTrip | t38modem/dle.cxx:98-194 | any data, coded with or without reversal and fed in short calls split anywhere, is stored as it was and ended; what follows is left |
| BertTesters.BertTester.constructor | spandsp-0.0.6/src/bert.c:348-497 | each of the four patterns starts with its register, tap, inversion and resync time, looking for sync; `BertLinks.Generate` says what that sends |
| BertTesters.BertTester.GetBit | spandsp-0.0.6/src/bert.c:81-133 | the bits of the generator, inverted if the pattern is, and after the limit the end of data |
| BertTesters.BertTester.PutBit | spandsp-0.0.6/src/bert.c:228-298 | one bit, in numbers and masks, is one step of the bit-level receiver |
| BertTesters.ShiftedIs | spandsp-0.0.6/src/bert.c:96 | the shift, xor and mask of the register are one step of the feedback register |
| BertCode.BehindN | spandsp-0.0.6/src/bert.c:94-114 | every generator register has one that is `shift` steps behind it |
| BertCode.AllWiped | spandsp-0.0.6/src/bert.c:228-298 | a difference of registers is wiped out in as many turns as they have bits |
| BertSync.EveryBitForetold | spandsp-0.0.6/src/bert.c:229-250 | from any register, looking for sync on a line without errors: after `shift2` + 1 bits every bit is foretold |
| BertSync.SyncIsFound | spandsp-0.0.6/src/bert.c:229-250 | and sync is declared within `shift2` + 1 + `resync_time` bits, in step with the generator |
| BertSync.PeriodCounted | spandsp-0.0.6/src/bert.c:251-296 | within a measuring period, whatever the line does, exactly its flipped bits are counted as bad, and sync is given up at the end of it if and only if they reach the set part |
| BertSync.ErrorsCounted | spandsp-0.0.6/src/bert.c:251-297 | over any time with no resync `bad_bits` grows by exactly the number of flipped bits, and the receiver stays in step |
| BertSync.SyncIsEarned | spandsp-0.0.6/src/bert.c:229-250 | on any line sync is declared only after the resync time less one bits, one after the other, that were all foretold |
| BertSync.GivenUpIff | spandsp-0.0.6/src/bert.c:282-296 | at the end of a period sync is given up if and only if 100 times the bad bits and one more exceed the length of the period times the percentage |
| BertLinks.Generate | spandsp-0.0.6/src/bert.c:81-133 | the bits that a new tester sends: 23, 15, 11 or 9 equal ones, zeros for O.151, and then, inversion undone, b[n+23] = b[n] xor b[n+5], and 15 with 1, 11 with 2, 9 with 4 |
| BertLinks.FindSync | spandsp-0.0.6/src/bert.c:81-250 | a tester fed with the bits of another of its pattern, whatever its register, comes into sync within the register's length and the resync time |
| BertLinks.Sync | spandsp-0.0.6/src/bert.c:348-497 | that is within 79, 55, 43 or 37 bits for the four patterns |
| ModemEngineBodies.ModemEngineBody.OnHook | t38modem/pmodeme.cxx:1298-1321 | an off-hook line is on-hook from here on and its engines are being detached; then the call is cleared |
| ModemEngineBodies.ModemEngineBody.ClearCall | t38modem/pmodeme.cxx:1323-1366 | a call is being released, and its token, if any, goes out and is forgotten |
| ModemEngineBodies.ModemEngineBody.ClearCallReturns | t38modem/pmodeme.cxx:1369-1373 | the last release to return, on-hook, clears the call |
| ModemEngineBodies.ModemEngineBody.DialStep | t38modem/pmodeme.cxx:4051-4063 | the endpoint is called if and only if the line was cleared |
| ModemEngineBodies.ModemEngineBody.DialReturns | t38modem/pmodeme.cxx:4065-4074 | a confirmed token is stored; otherwise the line goes on-hook |
| ModemEngineBodies.ModemEngineBody.Answer | t38modem/pmodeme.cxx:2143-2165 | the endpoint is called if and only if a call was ringing |
| ModemEngineBodies.ModemEngineBody.AnswerReturns | t38modem/pmodeme.cxx:2167-2176 | without a confirmation the line goes on-hook |
| ModemEngineBodies.ModemEngineBody.Call | t38modem/pmodeme.cxx:1383-1405 | confirmed if and only if cleared and on-hook; the token is stored |
| ModemEngineBodies.ModemEngineBody.Alerting | t38modem/pmodeme.cxx:1407-1441 | accepted if and only if dialing, off-hook, and of this call; confirmed exactly to a modem that stops waiting to play the ringing; with another call's token nothing changes |
| ModemEngineBodies.ModemEngineBody.EstablishedCall | t38modem/pmodeme.cxx:1443-1471 | accepted if and only if dialing, alerted or answering, off-hook, and of this call; confirmed exactly to a modem that stops waiting for it; with another call's token nothing changes |
| ModemEngineBodies.ModemEngineBody.ClearCallRequest | t38modem/pmodeme.cxx:1473-1500 | the token is forgotten and the call released, or the next number dialed, and that is confirmed; a refused request changes nothing; with another call's token nothing changes |
| CallControl.OnlyArrows | t38modem/pmodeme.cxx:637-660 | in every run the call state moves along arrows of the table only, each starting where the last one ended |
| CallControl.NoCallWhileReleasing | t38modem/pmodeme.cxx:1323-1373 | while a clearcall callback is out the line is being released, and the only change that can happen is to cleared, by its return |
| CallControl.OnHookIsFree | t38modem/pmodeme.cxx:1298-1373 | on-hook with no release or `OnHook` under way, the line is cleared or ringing |
| CallControl.TokenSentOnce | t38modem/pmodeme.cxx:1357-1367 | every stored token goes out in at most one clearcall |
| CallControl.ReleaseSends | t38modem/pmodeme.cxx:1323-1373 | whenever the line itself begins to release a call the token goes out at once and is forgotten; with none the call is cleared at once |
| CallControl.TokenLostIff | t38modem/pmodeme.cxx:4065-4067 | but for a clearcall request a stored token stays or goes out, unless a confirmed dial callback or a new call overwrites it |
| CallControl.CalmKeeps | t38modem/pmodeme.cxx:1479-1487 | which never happens unless a clearcall request said to dial the next number while the dial callback was out |
| CallControl.TokenOverwritten | t38modem/pmodeme.cxx:4051-4074 | a run in which it does, and the first call is never cleared |
| CallControl.OtherCall | t38modem/pmodeme.cxx:1407-1500 | in every run an alerting, established or clearcall request with a token other than the stored one changes nothing |
| CallControl.AlertingIff | t38modem/pmodeme.cxx:1407-1441 | with the stored token, or none stored, alerting leads to alerted exactly when dialing off-hook, else changes nothing |
| CallControl.EstablishedIff | t38modem/pmodeme.cxx:1443-1471 | established leads to established exactly when dialing, alerted or answering off-hook, else changes nothing |
| CallControl.ClearIff | t38modem/pmodeme.cxx:1473-1500 | clearcall ends a call that is not being released already, and drops its token: the next number is dialed if asked while the first is waited for, else the call is being released while off-hook and cleared once on-hook |
| CallControl.CallIff | t38modem/pmodeme.cxx:1383-1405 | a new call rings exactly on a cleared on-hook line, else changes nothing |
| CallControl.Dials | t38modem/pmodeme.cxx:4051-4063 | dialing calls the endpoint exactly on a cleared line, else the line goes on-hook |
| CallControl.DialAnswered | t38modem/pmodeme.cxx:4065-4074 | a confirmed token is stored and the line stays off-hook; otherwise it goes on-hook |
| CallControl.Answers | t38modem/pmodeme.cxx:2143-2165 | answering calls the endpoint exactly when a call rings, else the line goes on-hook |
| CallControl.AnswerAnswered | t38modem/pmodeme.cxx:2167-2176 | a confirmed answer leaves the line off-hook waiting for the connection, with its token; otherwise it goes on-hook |
| CallControl.GoesOnHook | t38modem/pmodeme.cxx:1298-1321 | an off-hook line that goes on-hook is at once back to commands, its engines being detached, with its call and token still there |
| CallControl.HangUp | t38modem/pmodeme.cxx:1323-1373 | once its engines are detached an on-hook line comes to be cleared, its token having gone out |
| LockOrder.AllDisciplined | t38modem/enginebase.cxx:405-433 | every operation of the engines, the audio streams and the modem acquires upwards only, but for the one try-lock, and leaves no lock held, with any number of callbacks |
| LockOrder.TryPart | t38modem/pmodeme.cxx:1543-1622 | attaching and detaching try the callback lock under the modem's lock, and give up what they took if it is taken |
| LockOrder.CallbackPart | t38modem/enginebase.cxx:421-433 | a callback runs with the engine's lock released |
| LockOrder.MutualExclusion | t38modem/enginebase.cxx:405-433 | in every run no two threads hold the same lock |
| LockOrder.NoneBetween | t38modem/enginebase.cxx:405-433 | in every run a thread between two operations holds no lock, and may begin any |
| LockOrder.NoCircularWait | t38modem/enginebase.cxx:405-433 | in every run of any number of threads no chain of waiting threads comes back to its start |
| LockOrder.SomeoneCanGo | t38modem/enginebase.cxx:405-433 | and while any thread has steps to take, one of them can take a step, which leaves it fewer |
| Rfc2198Sims.Sim.Put | spandsp-0.0.6/spandsp-sim/rfc2198_sim.c:75-109 | the packet carries the message and those before it, as many as the depth, out of the ring of 32 |
| Rfc2198Sims.Sim.Get | spandsp-0.0.6/spandsp-sim/rfc2198_sim.c:112-177 | what is recovered goes first, oldest first; a new packet gives the oldest message missed that it carries, and queues the rest |
| Rfc2198.AddedCoverage | spandsp-0.0.6/spandsp-sim/rfc2198_sim.c:149-170 | a packet adds exactly the messages it carries that no arrived packet did |
| Rfc2198.DeliversCoverage | spandsp-0.0.6/spandsp-sim/rfc2198_sim.c:112-177 | over any in-order channel exactly the messages that some arrived packet carries are delivered, in order, each once, with its own data |
| Rfc2198.CompleteIffGapsBelow | spandsp-0.0.6/spandsp-sim/rfc2198_sim.c:112-177 | messages 0 to n are all delivered once packet n has arrived if and only if never as many packets as the depth were lost in a row |
| G1050.Queue.Put | spandsp-0.0.6/spandsp-sim/g1050.c:1211-1266 | a lost packet changes nothing; another is linked in behind all that arrive no later |
| G1050.Queue.Search | spandsp-0.0.6/spandsp-sim/g1050.c:1243-1247 | the search from the end stops at the place the order gives it |
| G1050.Queue.Splice | spandsp-0.0.6/spandsp-sim/g1050.c:1248-1262 | the four pointers make one well-formed list of the old elements and the new one |
| G1050.Queue.Get | spandsp-0.0.6/spandsp-sim/g1050.c:1269-1314 | the packet in front, if and only if its time has come, leaves the list |
| G1050.InsertKeepsOrder | spandsp-0.0.6/spandsp-sim/g1050.c:1235-1263 | the list stays sorted by arrival, stable on ties |
| G1050.PlaceParts | spandsp-0.0.6/spandsp-sim/g1050.c:1243-1257 | all before the new packet arrive no later, all behind it later |
| G1050.PutIffKept | spandsp-0.0.6/spandsp-sim/g1050.c:1211-1240 | in every run the packets put to the queue are, in order and as they are, those with an arrival time that is not negative |
| G1050.DeliveredOnce | spandsp-0.0.6/spandsp-sim/g1050.c:1211-1314 | in every run the packets put and not lost are those delivered and those queued, each once, and none is delivered before its time |
| G1050.EarliestFirst | spandsp-0.0.6/spandsp-sim/g1050.c:1269-1314 | the packet delivered is always the earliest queued, of several the first put; none is delivered only if none has come |
| BitStreams.BitStream.Put | spandsp-0.0.6/src/bitstream.c:44-75 | octets sent and bits waiting are together the bits that waited and the value's, in either order; under eight wait, and the 32-bit guard never drops a value |
| BitStreams.BitStream.Take | spandsp-0.0.6/src/bitstream.c:46-65 | the value joins the waiting bits |
| BitStreams.BitStream.Spill | spandsp-0.0.6/src/bitstream.c:53-72 | every whole octet goes out, in order, and nothing else of the buffer changes |
| BitStreams.BitStream.Flush | spandsp-0.0.6/src/bitstream.c:77-90 | the waiting bits go out, filled up with zeros, and none is left |
| BitStreams.BitStream.Get | spandsp-0.0.6/src/bitstream.c:92-118 | the number of the next bits of the stream, and exactly those are gone |
| BitPacking.NumberLaid | spandsp-0.0.6/src/bitstream.c:92-118 | a value laid in so many bits is read as that value modulo the power of two |
| BitStreams.LowAdd | spandsp-0.0.6/src/bitstream.c:49-53 | low bit first, the or puts the value above what waits |
| BitStreams.HighAdd | spandsp-0.0.6/src/bitstream.c:61-66 | high bit first, the shift drops only bits that were sent |
| BitPacking.RoundTrip | spandsp-0.0.6/src/bitstream.c:92-118 | values laid one after the other are read back, whatever follows them |
| BitPacking.PutFlushGet | spandsp-0.0.6/src/bitstream.c:44-118 | any puts, the flush, and gets of the same widths: each value comes back modulo 2 to its width, in either order |
| AdsiPorts.AdsiRx.PutBit | spandsp-0.0.6/src/adsi.c:181-300 | one bit, with the octet and the buffer of 256, is one step of the bit-level receiver |
| AdsiPorts.AdsiRx.Store | spandsp-0.0.6/src/adsi.c:238-292 | a character is put to the message, which is reported if and only if it is complete with the right sum; `Adsi.OnlyRightReported` says so of every line |
| AdsiPorts.AdsiTx.PutMessage | spandsp-0.0.6/src/adsi.c:556-642 | refused while one is being sent, or too long; otherwise the line ahead is that of the message with its length put right and its sum |
| AdsiPorts.AdsiTx.GetBit | spandsp-0.0.6/src/adsi.c:89-161 | the bits of the line ahead, one by one, and then the end of data |
| Adsi.PreamblePass | spandsp-0.0.6/src/adsi.c:209-299 | the alternating preamble is taken for characters of which no message comes |
| Adsi.CharPass | spandsp-0.0.6/src/adsi.c:209-299 | a character comes in as it was sent |
| Adsi.CharBroken | spandsp-0.0.6/src/adsi.c:293-299 | a character with no stop bit counts as a framing error and is not put to the message |
| Adsi.MessagePass | spandsp-0.0.6/src/adsi.c:240-290 | the characters of a message are stored one by one, and the last one completes it |
| Adsi.ReportsOne | spandsp-0.0.6/src/adsi.c:89-300 | the line of any message of 2 to 255 octets, with the default preamble and at most eleven stop bits, makes the receiver report exactly that message with its length put right |
| Adsi.LongGaps | spandsp-0.0.6/src/adsi.c:211-222 | with twelve stop bits or more no message is ever reported |
| Adsi.ReportedIffShortGaps | spandsp-0.0.6/src/adsi.c:211-222 | so a message is reported if and only if there are at most eleven |
| Adsi.LinePass | spandsp-0.0.6/src/adsi.c:209-299 | any octets that say their own number, sent with the default preamble and short gaps, are reported if and only if their sum is right |
| Adsi.ChangedOctetKept | spandsp-0.0.6/src/adsi.c:280-288 | a message that comes with one octet changed, other than its length, is not reported |
| Adsi.OnlyRightReported | spandsp-0.0.6/src/adsi.c:238-292 | for any receiver and any line, each report came in character by character with an octet behind it that makes the sum a multiple of 256, and its second octet is its length less 2 |
| AsyncPorts.AsyncRx.PutBit | spandsp-0.0.6/src/async.c:123-201 | one bit, with the octet and the parity bit, is one step of the bit-level receiver; the usual status values start over |
| AsyncPorts.AsyncTx.GetBit | spandsp-0.0.6/src/async.c:249-292 | the bits of the line ahead, one by one |
| Async.HeadPass | spandsp-0.0.6/src/async.c:143-170 | the data and parity bits of a character bring the receiver to its stop position with no error |
| Async.NextBit | spandsp-0.0.6/src/async.c:170-200 | any bit after that delivers it |
| Async.RoundTrip | spandsp-0.0.6/src/async.c:123-201 | any octets, with 1 to 8 data bits and any parity, come out in order modulo 2 to the data bits with no error: with at least one stop bit left of each, or, under V.14, any number, provided some bit follows the last |
| AsyncErrors.ErrorsCounted | spandsp-0.0.6/src/async.c:143-200 | of any characters, some with a wrong parity bit and some without a stop bit, those with a stop bit are delivered in order, and exactly as many errors of each kind are counted |

## Left out

- HDLC.GetData (`t38modem/hdlc.cxx:417-428`), which only chooses between the two directions; each is modelled as a method of its own.
- T38Senders.T38Sender.FetchConverted: raw bits sent as frames (and EndConverted) take what the codec hands out as an input; the codec is modelled in `Hdlc`, but not inside the engine, so delivery and progress are stated for frames sent as frames and raw data sent as raw data.
- T38ModStreams.ModStream.GetData: reading frames as raw bits is not modelled on the object, for the same reason; on values (`T38Recv.GetConverted`) the codec's answers are an input, over which `T38RecvSafety.ReceiveBuffers` quantifies, and `T38RecvAsked.ConvertedIs` says how the frames follow each other. The same holds for T38Receivers.T38Receiver.Recv.
- T38Senders.T38Sender.PreparePacketStep: a change of owner of the engine and the timeouts that make `PreparePacket` return early are not modelled; a step that is not taken stands for them.
- T38Receivers.T38Receiver.HandlePacket: the engine being closed or taken over inside a callback, which ends the handling of the packet, is not modelled apart from never resuming.
- T38SessionReads.Reads: a call in which what is left after losses is no well-formed stream, or the line goes down, and a modem that asks for frames as raw bits, are not part of the theorems on whole calls; `T38RecvSafety.ReceiveBuffers` and `T38RecvMarks` cover them.
- The ASN.1 form of the packets, the redundancy of packets on the network, tones as user input, and the T.30 tracer.
- Tones and audio (`tone_gen.cxx`, `t30tone.cxx`, the audio engine but for its locks).
- DataStreams.DataStream.Clean: memory is not given back; a deleted chunk is one that nothing refers to.
- BertTesters.BertTester.PutBit: the error-rate decades, the reports, and the patterns with a limit on zeros or of other classes are not modelled.
- ModemEngineBodies.ModemEngineBody.OnHook: the detaching itself, timers, tones and the state of the AT command machine are not modelled; where call control reads that state, it is an input.
- LockOrder.AllDisciplined: each operation is the sequence of locks it takes and gives back; conditions and data are not modelled, and the number of callbacks is free.
- Rfc2198Sims.Sim.Put: the byte layout of a packet is not modelled (a packet is a list of messages), nor depths above the 32 slots of the ring, which the code does not meet either.
- G1050.Queue.Put: the delay model is not modelled; the arrival time is an input, a number without rounding.
- G1050.Queue.Get: the sequence number and times that are reported for a packet that has not come yet are not modelled.
- BitStreams.BitStream.Get: reading past the end of the buffer is not modelled; the caller is to have enough octets left, as the code assumes.
- AdsiPorts.AdsiTx.PutMessage: the Japanese, DTMF and TDD standards are not modelled.
- AsyncPorts.AsyncRx.PutBit: the status value that is handed on to the user is not modelled, only what it does to the receiver.
- AT commands, drivers, process start-up, G.711, and the fields of caller-ID messages: shallow, or with no logic of their own.
