/** Packets, modulations and states of the T.38 engine. */
module T38Types {
  import opened BitSeq
  import opened EngineTypes

  datatype Option<+T> = None | Some(value: T)

  /** What a data packet says it was modulated with. */
  datatype Modulation =
    V21 | V27At2400 | V27At4800 | V29At7200 | V17At7200 | V29At9600 | V17At9600 | V17At12000 | V17At14400

  datatype Indicator = NoSignal | CngTone | CedTone | Training(mod: Modulation, short: bool)

  datatype Field =
    | HdlcData(data: seq<Byte>)
    | HdlcFcsOk
    | HdlcFcsBad
    | HdlcSigEnd
    | NonEcmData(data: seq<Byte>)
    | NonEcmSigEnd

  /** An IFP packet as this engine sends it: an indicator, or one data field. */
  datatype Packet = Ind(ind: Indicator) | Data(mod: Modulation, field: Field)

  /** A row of the table of modulations (`mods`): its number in AT commands, training time in ms, and bit rate. */
  datatype ModRow = ModRow(val: nat, ind: Indicator, lenInd: nat, mod: Modulation, br: nat)

  const MODS: seq<ModRow> := [
    ModRow(3, Training(V21, false), 900, V21, 300),
    ModRow(24, Training(V27At2400, false), 1100, V27At2400, 2400),
    ModRow(48, Training(V27At4800, false), 900, V27At4800, 4800),
    ModRow(72, Training(V29At7200, false), 300, V29At7200, 7200),
    ModRow(73, Training(V17At7200, false), 1500, V17At7200, 7200),
    ModRow(74, Training(V17At7200, true), 300, V17At7200, 7200),
    ModRow(96, Training(V29At9600, false), 300, V29At9600, 9600),
    ModRow(97, Training(V17At9600, false), 1500, V17At9600, 9600),
    ModRow(98, Training(V17At9600, true), 300, V17At9600, 9600),
    ModRow(121, Training(V17At12000, false), 1500, V17At12000, 12000),
    ModRow(122, Training(V17At12000, true), 300, V17At12000, 12000),
    ModRow(145, Training(V17At14400, false), 1500, V17At14400, 14400),
    ModRow(146, Training(V17At14400, true), 300, V17At14400, 14400)
  ]

  /** The row of `MODS` numbered `val`, from row `i` on. */
  function FindFrom(val: int, i: nat): (r: Option<ModRow>)
    requires i <= |MODS|
    ensures r.Some? ==> r.value in MODS && r.value.val == val
    decreases |MODS| - i
  {
    if i == |MODS| then None
    else if MODS[i].val == val then Some(MODS[i])
    else FindFrom(val, i + 1)
  }

  function GetModRow(val: int): (r: Option<ModRow>)
    ensures r.Some? ==> r.value in MODS && r.value.val == val
  {
    FindFrom(val, 0)
  }

  /** Every row has a training indicator of its own modulation, and a positive rate up to 14400 bit/s. */
  lemma {:induction false} RowOk(r: ModRow)
    requires r in MODS
    ensures IsTraining(r.ind) && r.ind.mod == r.mod && 300 <= r.br <= 14400 && r.lenInd > 0
  {
  }

  /** The row of `MODS` with indicator `ind`, from row `i` on. */
  function FindInd(ind: Indicator, i: nat): (r: Option<ModRow>)
    requires i <= |MODS|
    ensures r.Some? ==> r.value in MODS && r.value.ind == ind
    decreases |MODS| - i
  {
    if i == |MODS| then None else if MODS[i].ind == ind then Some(MODS[i]) else FindInd(ind, i + 1)
  }

  /** The trainings there are: only V.17 has a short one. */
  predicate IsTraining(ind: Indicator) {
    ind.Training? && (ind.short ==> ind.mod == V17At7200 || ind.mod == V17At9600 || ind.mod == V17At12000 || ind.mod == V17At14400)
  }

  /** The table has a row for exactly those. */
  lemma {:induction false} FoundByInd(ind: Indicator)
    ensures FindInd(ind, 0).Some? <==> IsTraining(ind)
    ensures FindInd(ind, 0).Some? ==> FindInd(ind, 0).value.mod == ind.mod
  {
    FindInMods(ind, 0);
    hide FindInd;
    if IsTraining(ind) {
      var _ := IndexOf(ind.mod, ind.short);
    }
    if FindInd(ind, 0).Some? {
      RowOk(FindInd(ind, 0).value);
    }
  }

  lemma IndexOf(mod: Modulation, short: bool) returns (k: nat)
    requires IsTraining(Training(mod, short))
    ensures k < |MODS| && MODS[k].ind == Training(mod, short)
  {
    match mod {
      case V21 => k := 0;
      case V27At2400 => k := 1;
      case V27At4800 => k := 2;
      case V29At7200 => k := 3;
      case V17At7200 => k := if short then 5 else 4;
      case V29At9600 => k := 6;
      case V17At9600 => k := if short then 8 else 7;
      case V17At12000 => k := if short then 10 else 9;
      case V17At14400 => k := if short then 12 else 11;
    }
  }

  lemma {:induction false} FindInMods(ind: Indicator, i: nat)
    requires i <= |MODS|
    ensures FindInd(ind, i).Some? <==> exists k :: i <= k < |MODS| && MODS[k].ind == ind
    decreases |MODS| - i
  {
    if i < |MODS| { FindInMods(ind, i + 1); }
  }
}
