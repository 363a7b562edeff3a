/** The types every modem engine shares (`EngineBase`). */
module EngineTypes {

  /** The single bits of a diagnostic word; a word is the set of bits that are set. */
  datatype DiagFlag = NoCarrier | OutOfOrder | DiffSig | BadFcs | BadUse

  type Diag = set<DiagFlag>

  /** The word has a bit of `diagErrorMask`: any bit but `NoCarrier`. */
  predicate IsError(diag: Diag) {
    exists f :: f in diag && f != NoCarrier
  }

  datatype DataType = DtNone | DtRing | DtBusy | DtCed | DtCng | DtSilence | DtHdlc | DtRaw
}
