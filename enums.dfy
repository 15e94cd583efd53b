/** The enumerations and the two shared lookup tables of the memory format.
    Each enumeration is an integer code in the record; `XOf` decodes a code
    (failing, as the original's enum constructor does, on a code with no
    variant) and `XCode` gives the code of a variant.

    Two generations of the decoder exist.  `Current` is the enumeration set of
    src/enums.py, used by src/channel.py and src/main.py; `Legacy` is the set
    carried by the older self-contained src/parse.py.  They differ only in
    which step and offset-polarity codes they accept (and in variant names). */
module Enums {
  import opened Wrappers

  datatype Generation = Current | Legacy

  /* ----- one- and two-bit fields: every code has a variant ----- */

  datatype ClockShift = A | B

  function ClockShiftCode(c: ClockShift): (code: int)
    ensures 0 <= code < 2
  {
    match c
    case A => 0
    case B => 1
  }

  function ClockShiftOf(code: int): (c: ClockShift)
    requires 0 <= code < 2
    ensures ClockShiftCode(c) == code
  {
    if code == 0 then A else B
  }

  datatype Bandw = Wide | Narrow

  function BandwCode(b: Bandw): (code: int)
    ensures 0 <= code < 2
  {
    match b
    case Wide => 0
    case Narrow => 1
  }

  function BandwOf(code: int): (b: Bandw)
    requires 0 <= code < 2
    ensures BandwCode(b) == code
  {
    if code == 0 then Wide else Narrow
  }

  /** Transmit power.  The older generation names the low levels Low1..Low3. */
  datatype TxPwr = L1 | L2 | L3 | High

  function TxPwrCode(p: TxPwr): (code: int)
    ensures 0 <= code < 4
  {
    match p
    case L1 => 0
    case L2 => 1
    case L3 => 2
    case High => 3
  }

  function TxPwrOf(code: int): (p: TxPwr)
    requires 0 <= code < 4
    ensures TxPwrCode(p) == code
  {
    [L1, L2, L3, High][code]
  }

  /** Operating mode: FM, auto mode select, digital narrow, digital wide. */
  datatype Mode = FM | AMS | DN | VW

  function ModeCode(m: Mode): (code: int)
    ensures 0 <= code < 4
  {
    match m
    case FM => 0
    case AMS => 1
    case DN => 2
    case VW => 3
  }

  function ModeOf(code: int): (m: Mode)
    requires 0 <= code < 4
    ensures ModeCode(m) == code
  {
    [FM, AMS, DN, VW][code]
  }

  /* ----- four-bit fields with gaps in their code sets ----- */

  /** Tone mode; codes 7, 8 and 12..15 have no variant. */
  datatype ToneMode = Off | Tone | ToneSql | Dcs | RevTone | PrFreq | Pager | Dc | ToneDcs | DcsTone

  predicate IsToneModeCode(code: int) {
    0 <= code <= 6 || 9 <= code <= 11
  }

  function ToneModeCode(m: ToneMode): (code: int)
    ensures IsToneModeCode(code)
  {
    match m
    case Off => 0
    case Tone => 1
    case ToneSql => 2
    case Dcs => 3
    case RevTone => 4
    case PrFreq => 5
    case Pager => 6
    case Dc => 9
    case ToneDcs => 10
    case DcsTone => 11
  }

  function ToneModeOf(code: int): (r: Option<ToneMode>)
    ensures r.Some? <==> IsToneModeCode(code)
    ensures r.Some? ==> ToneModeCode(r.value) == code
  {
    if 0 <= code <= 6 then Some([Off, Tone, ToneSql, Dcs, RevTone, PrFreq, Pager][code])
    else if code == 9 then Some(Dc)
    else if code == 10 then Some(ToneDcs)
    else if code == 11 then Some(DcsTone)
    else None
  }

  /** DCS polarity (receive / transmit: normal, inverted or both); the codes are
      the even values 0..10. */
  datatype DcsPolarity = RxNormalTxNormal | RxInvertTxNormal | RxBothTxNormal
                       | RxNormalTxInvert | RxInvertTxInvert | RxBothTxInvert

  predicate IsDcsPolarityCode(code: int) {
    0 <= code <= 10 && code % 2 == 0
  }

  function DcsPolarityCode(p: DcsPolarity): (code: int)
    ensures IsDcsPolarityCode(code)
  {
    match p
    case RxNormalTxNormal => 0
    case RxInvertTxNormal => 2
    case RxBothTxNormal => 4
    case RxNormalTxInvert => 6
    case RxInvertTxInvert => 8
    case RxBothTxInvert => 10
  }

  function DcsPolarityOf(code: int): (r: Option<DcsPolarity>)
    ensures r.Some? <==> IsDcsPolarityCode(code)
    ensures r.Some? ==> DcsPolarityCode(r.value) == code
  {
    if code == 0 then Some(RxNormalTxNormal)
    else if code == 2 then Some(RxInvertTxNormal)
    else if code == 4 then Some(RxBothTxNormal)
    else if code == 6 then Some(RxNormalTxInvert)
    else if code == 8 then Some(RxInvertTxInvert)
    else if code == 10 then Some(RxBothTxInvert)
    else None
  }

  /** Channel step in kHz, or automatic. */
  datatype Step = Auto | Khz5 | Khz7_5 | Khz10 | Khz12_5 | Khz15 | Khz20 | Khz25 | Khz50 | Khz100

  /** The current generation knows codes 0..9; the older one has no 5 kHz or
      7.5 kHz step, so it rejects codes 1 and 2. */
  predicate IsStepCode(gen: Generation, code: int) {
    match gen
    case Current => 0 <= code <= 9
    case Legacy => code == 0 || 3 <= code <= 9
  }

  function StepCode(s: Step): (code: int)
    ensures 0 <= code <= 9
  {
    match s
    case Auto => 0
    case Khz5 => 1
    case Khz7_5 => 2
    case Khz10 => 3
    case Khz12_5 => 4
    case Khz15 => 5
    case Khz20 => 6
    case Khz25 => 7
    case Khz50 => 8
    case Khz100 => 9
  }

  function StepOf(gen: Generation, code: int): (r: Option<Step>)
    ensures r.Some? <==> IsStepCode(gen, code)
    ensures r.Some? ==> StepCode(r.value) == code
  {
    if code < 0 || 9 < code || (gen == Legacy && (code == 1 || code == 2)) then None
    else Some([Auto, Khz5, Khz7_5, Khz10, Khz12_5, Khz15, Khz20, Khz25, Khz50, Khz100][code])
  }

  /** Repeater offset direction.  Code 3 is plus-or-minus (the older generation
      calls it UNKNOWN); code 4, seen on airband channels, is known only to the
      older generation. */
  datatype OffsetPol = OffsetOff | Minus | Plus | PlusMinus | Airband

  predicate IsOffsetPolCode(gen: Generation, code: int) {
    match gen
    case Current => 0 <= code <= 3
    case Legacy => 0 <= code <= 4
  }

  function OffsetPolCode(p: OffsetPol): (code: int)
    ensures 0 <= code <= 4
  {
    match p
    case OffsetOff => 0
    case Minus => 1
    case Plus => 2
    case PlusMinus => 3
    case Airband => 4
  }

  function OffsetPolOf(gen: Generation, code: int): (r: Option<OffsetPol>)
    ensures r.Some? <==> IsOffsetPolCode(gen, code)
    ensures r.Some? ==> OffsetPolCode(r.value) == code
  {
    var limit := if gen == Current then 3 else 4;
    if code < 0 || limit < code then None
    else Some([OffsetOff, Minus, Plus, PlusMinus, Airband][code])
  }

  /** Decoding a variant's own code gives the variant back, in every generation
      that knows the code. */
  lemma EnumCodesRoundTrip(gen: Generation, m: ToneMode, p: DcsPolarity, s: Step, o: OffsetPol)
    ensures ToneModeOf(ToneModeCode(m)) == Some(m)
    ensures DcsPolarityOf(DcsPolarityCode(p)) == Some(p)
    ensures IsStepCode(gen, StepCode(s)) ==> StepOf(gen, StepCode(s)) == Some(s)
    ensures IsOffsetPolCode(gen, OffsetPolCode(o)) ==> OffsetPolOf(gen, OffsetPolCode(o)) == Some(o)
  {
  }

  /** The older generation accepts a subset of the current step codes and a
      superset of the current offset-polarity codes; where both accept a code
      they decode it to the same variant. */
  lemma GenerationsAgree(code: int)
    ensures IsStepCode(Legacy, code) ==> StepOf(Legacy, code) == StepOf(Current, code)
    ensures IsOffsetPolCode(Current, code) ==> OffsetPolOf(Current, code) == OffsetPolOf(Legacy, code)
    ensures StepOf(Legacy, 1) == None && StepOf(Current, 1) == Some(Khz5)
    ensures StepOf(Legacy, 2) == None && StepOf(Current, 2) == Some(Khz7_5)
    ensures OffsetPolOf(Current, 4) == None && OffsetPolOf(Legacy, 4) == Some(Airband)
  {
  }

  /* ----- the CTCSS tone and DCS code tables ----- */

  // CTCSS tones in tenths of a hertz (67.0 Hz .. 254.1 Hz), ten to a row.
  const ToneRow0: seq<int> := [670, 693, 719, 744, 770, 797, 825, 854, 885, 915]
  const ToneRow1: seq<int> := [948, 974, 1000, 1035, 1072, 1109, 1148, 1188, 1230, 1273]
  const ToneRow2: seq<int> := [1318, 1365, 1413, 1462, 1514, 1567, 1598, 1622, 1655, 1679]
  const ToneRow3: seq<int> := [1713, 1738, 1773, 1799, 1835, 1862, 1899, 1928, 1966, 1995]
  const ToneRow4: seq<int> := [2035, 2065, 2107, 2181, 2257, 2291, 2336, 2418, 2503, 2541]

  const Tones: seq<int> := ToneRow0 + ToneRow1 + ToneRow2 + ToneRow3 + ToneRow4

  // DCS codes (023 .. 754), ten to a row.
  const DcsRow0: seq<int> := [23, 25, 26, 31, 32, 36, 43, 47, 51, 53]
  const DcsRow1: seq<int> := [54, 65, 71, 72, 73, 74, 114, 115, 116, 122]
  const DcsRow2: seq<int> := [125, 131, 132, 134, 143, 145, 152, 155, 156, 162]
  const DcsRow3: seq<int> := [165, 172, 174, 205, 212, 223, 225, 226, 243, 244]
  const DcsRow4: seq<int> := [245, 246, 251, 252, 255, 261, 263, 265, 266, 271]
  const DcsRow5: seq<int> := [274, 306, 311, 315, 325, 331, 332, 343, 346, 351]
  const DcsRow6: seq<int> := [356, 364, 365, 371, 411, 412, 413, 423, 431, 432]
  const DcsRow7: seq<int> := [445, 446, 452, 454, 455, 462, 464, 465, 466, 503]
  const DcsRow8: seq<int> := [506, 516, 523, 526, 532, 546, 565, 606, 612, 624]
  const DcsRow9: seq<int> := [627, 631, 632, 654, 662, 664, 703, 712, 723, 731]
  const DcsRow10: seq<int> := [732, 734, 743, 754]

  const DcsLow: seq<int> := DcsRow0 + DcsRow1 + DcsRow2 + DcsRow3
  const DcsMid: seq<int> := DcsRow4 + DcsRow5 + DcsRow6 + DcsRow7
  const DcsHigh: seq<int> := DcsRow8 + DcsRow9 + DcsRow10
  const DcsCodes: seq<int> := DcsLow + DcsMid + DcsHigh

  predicate StrictlyAscending(s: seq<int>) {
    forall i, j :: 0 <= i < j < |s| ==> s[i] < s[j]
  }

  /** Adjacent-pair check from position k on; the verifier can evaluate it on a
      short constant row. */
  predicate AscendingFrom(s: seq<int>, k: nat)
    decreases |s| - k
  {
    k + 1 >= |s| || (s[k] < s[k + 1] && AscendingFrom(s, k + 1))
  }

  lemma {:induction false} AscendingFromSound(s: seq<int>, k: nat)
    requires AscendingFrom(s, k)
    ensures forall i, j :: k <= i < j < |s| ==> s[i] < s[j]
    decreases |s| - k
  {
    if k + 1 < |s| {
      AscendingFromSound(s, k + 1);
    }
  }

  lemma {:induction false} AscendingConcat(a: seq<int>, b: seq<int>)
    requires StrictlyAscending(a) && StrictlyAscending(b)
    requires a == [] || b == [] || a[|a| - 1] < b[0]
    ensures StrictlyAscending(a + b)
  {
    var ab := a + b;
    forall i, j | 0 <= i < j < |ab| ensures ab[i] < ab[j] {
      if i < |a| && |a| <= j {
        assert ab[i] <= a[|a| - 1] < b[0] <= ab[j];
      }
    }
  }

  lemma AscendingRow(row: seq<int>)
    requires AscendingFrom(row, 0)
    ensures StrictlyAscending(row)
  {
    AscendingFromSound(row, 0);
  }

  // One lemma per row keeps each unrolling of AscendingFrom small.
  lemma ToneRow0Ascending() ensures StrictlyAscending(ToneRow0) { AscendingRow(ToneRow0); }
  lemma ToneRow1Ascending() ensures StrictlyAscending(ToneRow1) { AscendingRow(ToneRow1); }
  lemma ToneRow2Ascending() ensures StrictlyAscending(ToneRow2) { AscendingRow(ToneRow2); }
  lemma ToneRow3Ascending() ensures StrictlyAscending(ToneRow3) { AscendingRow(ToneRow3); }
  lemma ToneRow4Ascending() ensures StrictlyAscending(ToneRow4) { AscendingRow(ToneRow4); }

  /** The tone table has 50 entries in strictly ascending order, so each tone
      has exactly one index. */
  lemma TonesAscending()
    ensures |Tones| == 50
    ensures StrictlyAscending(Tones)
  {
    ToneRow0Ascending(); ToneRow1Ascending(); ToneRow2Ascending(); ToneRow3Ascending(); ToneRow4Ascending();
    var s := ToneRow0;
    AscendingConcat(s, ToneRow1);
    s := s + ToneRow1;
    AscendingConcat(s, ToneRow2);
    s := s + ToneRow2;
    AscendingConcat(s, ToneRow3);
    s := s + ToneRow3;
    AscendingConcat(s, ToneRow4);
    s := s + ToneRow4;
    assert s == Tones;
  }

  lemma DcsRow0Ascending() ensures StrictlyAscending(DcsRow0) { AscendingRow(DcsRow0); }
  lemma DcsRow1Ascending() ensures StrictlyAscending(DcsRow1) { AscendingRow(DcsRow1); }
  lemma DcsRow2Ascending() ensures StrictlyAscending(DcsRow2) { AscendingRow(DcsRow2); }
  lemma DcsRow3Ascending() ensures StrictlyAscending(DcsRow3) { AscendingRow(DcsRow3); }
  lemma DcsRow4Ascending() ensures StrictlyAscending(DcsRow4) { AscendingRow(DcsRow4); }
  lemma DcsRow5Ascending() ensures StrictlyAscending(DcsRow5) { AscendingRow(DcsRow5); }
  lemma DcsRow6Ascending() ensures StrictlyAscending(DcsRow6) { AscendingRow(DcsRow6); }
  lemma DcsRow7Ascending() ensures StrictlyAscending(DcsRow7) { AscendingRow(DcsRow7); }
  lemma DcsRow8Ascending() ensures StrictlyAscending(DcsRow8) { AscendingRow(DcsRow8); }
  lemma DcsRow9Ascending() ensures StrictlyAscending(DcsRow9) { AscendingRow(DcsRow9); }
  lemma DcsRow10Ascending() ensures StrictlyAscending(DcsRow10) { AscendingRow(DcsRow10); }

  /** Codes 023 .. 244, the first four rows. */
  lemma DcsLowAscending()
    ensures |DcsLow| == 40 && DcsLow[39] == 244
    ensures StrictlyAscending(DcsLow)
  {
    DcsRow0Ascending(); DcsRow1Ascending(); DcsRow2Ascending(); DcsRow3Ascending();
    var s := DcsRow0;
    AscendingConcat(s, DcsRow1);
    s := s + DcsRow1;
    AscendingConcat(s, DcsRow2);
    s := s + DcsRow2;
    AscendingConcat(s, DcsRow3);
    s := s + DcsRow3;
    assert s == DcsLow;
  }

  /** Codes 245 .. 503, the next four rows. */
  lemma DcsMidAscending()
    ensures |DcsMid| == 40 && DcsMid[0] == 245 && DcsMid[39] == 503
    ensures StrictlyAscending(DcsMid)
  {
    DcsRow4Ascending(); DcsRow5Ascending(); DcsRow6Ascending(); DcsRow7Ascending();
    var s := DcsRow4;
    AscendingConcat(s, DcsRow5);
    s := s + DcsRow5;
    AscendingConcat(s, DcsRow6);
    s := s + DcsRow6;
    AscendingConcat(s, DcsRow7);
    s := s + DcsRow7;
    assert s == DcsMid;
  }

  /** Codes 506 .. 754, the last three rows. */
  lemma DcsHighAscending()
    ensures |DcsHigh| == 24 && DcsHigh[0] == 506
    ensures StrictlyAscending(DcsHigh)
  {
    DcsRow8Ascending(); DcsRow9Ascending(); DcsRow10Ascending();
    var s := DcsRow8;
    AscendingConcat(s, DcsRow9);
    s := s + DcsRow9;
    AscendingConcat(s, DcsRow10);
    s := s + DcsRow10;
    assert s == DcsHigh;
  }

  /** The DCS table has 104 entries in strictly ascending order. */
  lemma DcsCodesAscending()
    ensures |DcsCodes| == 104
    ensures StrictlyAscending(DcsCodes)
  {
    DcsLowAscending();
    DcsMidAscending();
    DcsHighAscending();
    AscendingConcat(DcsLow, DcsMid);
    AscendingConcat(DcsLow + DcsMid, DcsHigh);
  }

  /** Table lookup by index, as the decoder does it; an index past the end is an
      error. */
  function TableAt(table: seq<int>, idx: int): (r: Option<int>)
    ensures r.Some? <==> 0 <= idx < |table|
    ensures r.Some? ==> r.value in table
  {
    if 0 <= idx < |table| then Some(table[idx]) else None
  }

  /** Reverse lookup: the first index holding v, or None when v is not in the
      table (the value an encoder needs). */
  function IndexOf(table: seq<int>, v: int): (r: Option<nat>)
    ensures r.None? <==> v !in table
    ensures r.Some? ==> r.value < |table| && table[r.value] == v
    ensures r.Some? ==> forall j :: 0 <= j < r.value ==> table[j] != v
  {
    if table == [] then None
    else if table[0] == v then Some(0)
    else match IndexOf(table[1..], v)
      case None => None
      case Some(j) => Some(j + 1)
  }

  /** In a strictly ascending table, looking up an entry and searching for its
      value give back the index. */
  lemma IndexOfAt(table: seq<int>, idx: int)
    requires StrictlyAscending(table)
    requires 0 <= idx < |table|
    ensures IndexOf(table, table[idx]) == Some(idx)
    ensures TableAt(table, idx).Some? && IndexOf(table, TableAt(table, idx).value) == Some(idx)
  {
  }

  /** Each tone and each DCS code has a unique index. */
  lemma TableIndicesUnique(i: int, j: int)
    ensures 0 <= i < |Tones| && 0 <= j < |Tones| && Tones[i] == Tones[j] ==> i == j
    ensures 0 <= i < |DcsCodes| && 0 <= j < |DcsCodes| && DcsCodes[i] == DcsCodes[j] ==> i == j
  {
    TonesAscending();
    DcsCodesAscending();
  }
}
