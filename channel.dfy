/** Channel decoding (src/channel.py; the same decoder is repeated in src/main.py
    and, with the older enumeration set, in src/parse.py).

    A channel is decoded from its 32-byte record, its flag byte from the
    parallel flag table, its 0-based slot index and the decoded banks.  Shifts
    and masks on a byte are written as division and remainder by powers of two
    (`b >> 4` is `b / 16`, `b & 0xf` is `b % 16`).  Frequencies are integer
    thousandths of a MHz; tones are tenths of a hertz. */
module ChannelCodec {
  import opened Wrappers
  import opened Enums
  import opened Structs
  import opened BankCodec

  /* ----- the flag byte ----- */

  datatype SlotFlags = SlotFlags(empty: bool, enabled: bool, skip: bool)

  /** Bit 0 set means the slot is written, bit 1 that it is enabled (not
      removed), bit 2 that scanning skips it.  The flags are the low three
      bits: writing them back gives `f % 8`. */
  function FlagsOf(f: byte): (s: SlotFlags)
    ensures FlagByte(s) == f % 8
  {
    LowBits(f / 8, f % 8);
    SlotFlags(f % 2 != 1, f / 2 % 2 == 1, f / 4 % 2 == 1)
  }

  /** The flag byte that carries the given flags and no other bit. */
  function FlagByte(s: SlotFlags): (f: byte)
    ensures f < 8
  {
    (if s.empty then 0 else 1) + (if s.enabled then 2 else 0) + (if s.skip then 4 else 0)
  }

  /** Each flag is one bit: the three flags round-trip through the byte. */
  lemma FlagsRoundTrip(s: SlotFlags)
    ensures FlagsOf(FlagByte(s)) == s
  {
  }

  /** Bits 3..7 of the flag byte are ignored: the byte decodes as its low three
      bits do, and those bits are what re-encoding the flags gives. */
  lemma FlagsHighBitsIgnored(f: byte)
    ensures FlagsOf(f) == FlagsOf(f % 8)
    ensures FlagByte(FlagsOf(f)) == f % 8
  {
    LowBits(f / 8, f % 8);
  }

  /** Division by 2 and by 4 is determined by any decomposition with a
      remainder in range. */
  lemma Halve(x: int, m: int, e: int)
    requires x == 2 * m + e && 0 <= e < 2
    ensures x / 2 == m && x % 2 == e
  {
  }

  lemma Quarter(x: int, m: int, e: int)
    requires x == 4 * m + e && 0 <= e < 4
    ensures x / 4 == m && x % 4 == e
  {
  }

  lemma LowBits(q: int, r: int)
    requires 0 <= q && 0 <= r < 8
    ensures (q * 8 + r) % 2 == r % 2 && (q * 8 + r) / 2 % 2 == r / 2 % 2 && (q * 8 + r) / 4 % 2 == r / 4 % 2
  {
    var x := q * 8 + r;
    Halve(x, 4 * q + r / 2, r % 2);
    Halve(4 * q + r / 2, 2 * q + r / 2 / 2, r / 2 % 2);
    Quarter(x, 2 * q + r / 4, r % 4);
    Halve(2 * q + r / 4, q, r / 4);
  }

  /* ----- frequencies: three bytes of packed decimal digits ----- */

  /** Six nibbles, high nibble first, weighted 100 MHz down to 1 kHz; the
      result is in thousandths of a MHz.  Nibbles A..F are not rejected. */
  function FreqOf(b: seq<byte>): (r: nat)
    requires |b| == 3
    ensures r <= 15 * 111111
  {
    var b0, b1, b2 := b[0] as int, b[1] as int, b[2] as int;
    b0 / 16 * 100000 + b0 % 16 * 10000 + b1 / 16 * 1000 + b1 % 16 * 100 + b2 / 16 * 10 + b2 % 16
  }

  /** Every nibble is a decimal digit. */
  predicate IsBcd(b: seq<byte>) {
    forall i :: 0 <= i < |b| ==> b[i] / 16 <= 9 && b[i] % 16 <= 9
  }

  /** The byte whose high nibble is `hi` and low nibble `lo`. */
  function Pack(hi: int, lo: int): (b: byte)
    requires 0 <= hi < 16 && 0 <= lo < 16
    ensures b / 16 == hi && b % 16 == lo
  {
    hi * 16 + lo
  }

  /** Packs the six decimal digits of n, two to a byte, high digit first. */
  function FreqBytes(n: nat): (b: seq<byte>)
    requires n <= 999999
    ensures |b| == 3
  {
    var q1 := n / 10;
    var q2 := q1 / 10;
    var q3 := q2 / 10;
    var q4 := q3 / 10;
    var q5 := q4 / 10;
    [Pack(q5, q4 % 10), Pack(q3 % 10, q2 % 10), Pack(q1 % 10, n % 10)]
  }

  /** Packing gives packed-decimal bytes that decode to the value packed. */
  lemma FreqEncodeDecode(n: nat)
    requires n <= 999999
    ensures IsBcd(FreqBytes(n))
    ensures FreqOf(FreqBytes(n)) == n
  {
  }

  lemma PackNibbles(x: byte)
    ensures Pack(x / 16, x % 16) == x
  {
  }

  lemma DivModTen(x: int, d: int)
    requires 0 <= x && 0 <= d < 10
    ensures (x * 10 + d) / 10 == x && (x * 10 + d) % 10 == d
  {
  }

  /** Packing the number whose decimal digits are d0..d5 gives the digits
      back, two to a byte. */
  lemma {:induction false} FreqBytesOfDigits(d0: int, d1: int, d2: int, d3: int, d4: int, d5: int)
    requires 0 <= d0 <= 9 && 0 <= d1 <= 9 && 0 <= d2 <= 9 && 0 <= d3 <= 9 && 0 <= d4 <= 9 && 0 <= d5 <= 9
    ensures FreqBytes(d0 * 100000 + d1 * 10000 + d2 * 1000 + d3 * 100 + d4 * 10 + d5)
         == [Pack(d0, d1), Pack(d2, d3), Pack(d4, d5)]
  {
    var x4 := d0 * 10 + d1;
    var x3 := x4 * 10 + d2;
    var x2 := x3 * 10 + d3;
    var x1 := x2 * 10 + d4;
    var n := x1 * 10 + d5;
    DivModTen(x1, d5);
    DivModTen(x2, d4);
    DivModTen(x3, d3);
    DivModTen(x4, d2);
    DivModTen(d0, d1);
    assert n / 10 == x1 && x1 / 10 == x2 && x2 / 10 == x3 && x3 / 10 == x4 && x4 / 10 == d0;
    assert FreqBytes(n) == [Pack(d0, d1), Pack(d2, d3), Pack(d4, d5)];
    assert n == d0 * 100000 + d1 * 10000 + d2 * 1000 + d3 * 100 + d4 * 10 + d5;
  }

  /** On packed-decimal bytes the decoded value is at most 999.999 MHz, and
      packing it again gives the same bytes. */
  lemma {:induction false} FreqDecodeEncode(b: seq<byte>)
    requires |b| == 3 && IsBcd(b)
    ensures FreqOf(b) <= 999999
    ensures FreqBytes(FreqOf(b)) == b
  {
    var b0, b1, b2 := b[0] as int, b[1] as int, b[2] as int;
    assert b0 / 16 <= 9 && b0 % 16 <= 9 && b1 / 16 <= 9 && b1 % 16 <= 9 && b2 / 16 <= 9 && b2 % 16 <= 9;
    FreqBytesOfDigits(b0 / 16, b0 % 16, b1 / 16, b1 % 16, b2 / 16, b2 % 16);
    PackNibbles(b[0]);
    PackNibbles(b[1]);
    PackNibbles(b[2]);
  }

  /** Decoding is injective on packed-decimal bytes. */
  lemma FreqInjective(a: seq<byte>, b: seq<byte>)
    requires |a| == 3 && |b| == 3 && IsBcd(a) && IsBcd(b)
    requires FreqOf(a) == FreqOf(b)
    ensures a == b
  {
    FreqDecodeEncode(a);
    FreqDecodeEncode(b);
  }

  /** Without the packed-decimal restriction the decoder is neither bounded by
      999.999 MHz nor injective: nibble A weighs as much as a carry. */
  lemma HexNibblesAccepted()
    ensures FreqOf([0xA0, 0x00, 0x00]) == 1000000
    ensures FreqOf([0x0A, 0x00, 0x00]) == FreqOf([0x10, 0x00, 0x00]) == 100000
  {
  }

  /* ----- text: stripping and case ----- */

  /** Drops trailing elements satisfying `drop` (Python's rstrip). */
  function RStrip<T>(s: seq<T>, drop: T -> bool): seq<T> {
    if s == [] || !drop(s[|s| - 1]) then s
    else RStrip(s[..|s| - 1], drop)
  }

  /** The result of `RStrip` is a prefix, everything it removed satisfies
      `drop`, and its last element does not. */
  lemma {:induction false} RStripShape<T>(s: seq<T>, drop: T -> bool)
    ensures var r := RStrip(s, drop);
      && |r| <= |s| && r == s[..|r|]
      && (forall i :: |r| <= i < |s| ==> drop(s[i]))
      && (r == [] || !drop(r[|r| - 1]))
  {
    if s != [] && drop(s[|s| - 1]) {
      RStripShape(s[..|s| - 1], drop);
    }
  }

  /** Drops leading elements satisfying `drop` (Python's lstrip). */
  function LStrip<T>(s: seq<T>, drop: T -> bool): seq<T> {
    if s == [] || !drop(s[0]) then s
    else LStrip(s[1..], drop)
  }

  /** The characters Python's `str.isspace` accepts. */
  predicate IsSpace(c: char) {
    var n := c as int;
    || 0x09 <= n <= 0x0D || 0x1C <= n <= 0x20 || n == 0x85 || n == 0xA0 || n == 0x1680
    || 0x2000 <= n <= 0x200A || n == 0x2028 || n == 0x2029 || n == 0x202F || n == 0x205F || n == 0x3000
  }

  /** The result of `LStrip` is a suffix, everything it removed satisfies
      `drop`, and its first element does not. */
  lemma {:induction false} LStripShape<T>(s: seq<T>, drop: T -> bool)
    ensures var r := LStrip(s, drop);
      && |r| <= |s| && r == s[|s| - |r|..]
      && (forall i :: 0 <= i < |s| - |r| ==> drop(s[i]))
      && (r == [] || !drop(r[0]))
  {
    if s != [] && drop(s[0]) {
      var t := s[1..];
      LStripShape(t, drop);
      var r := LStrip(t, drop);
      assert t[|t| - |r|..] == s[|s| - |r|..];
    }
  }

  /** Python's `str.strip()` with no argument: the result is the slice of `s`
      left after removing whitespace at both ends, so it neither starts nor
      ends with whitespace, and text without whitespace is kept whole. */
  function Strip(s: string): (r: string)
    ensures var k := |s| - |LStrip(s, IsSpace)|;
      && 0 <= k && k + |r| <= |s| && r == s[k..k + |r|]
      && (forall i :: 0 <= i < k ==> IsSpace(s[i]))
      && (forall i :: k + |r| <= i < |s| ==> IsSpace(s[i]))
    ensures r == [] || (!IsSpace(r[0]) && !IsSpace(r[|r| - 1]))
  {
    var l := LStrip(s, IsSpace);
    LStripShape(s, IsSpace);
    RStripShape(l, IsSpace);
    RStrip(l, IsSpace)
  }

  /** Upper case on ASCII letters. */
  function Upper(s: string): (r: string)
    ensures |r| == |s|
  {
    seq(|s|, i requires 0 <= i < |s| => if 'a' <= s[i] <= 'z' then (s[i] as int - 32) as char else s[i])
  }

  /* ----- the name ----- */

  /** The name: the 16 bytes as characters, trailing NULs stripped, then
      trailing 0xFF fill stripped.  It is a prefix of the raw bytes, every byte
      after it is NUL or 0xFF, and it does not end in 0xFF. */
  function NameOf(raw: seq<byte>): (name: string)
    requires |raw| == 16
    ensures |name| <= 16
    ensures forall i :: 0 <= i < |name| ==> name[i] as int == raw[i]
    ensures forall i :: |name| <= i < 16 ==> raw[i] == 0 || raw[i] == 0xFF
    ensures name == [] || name[|name| - 1] as int != 0xFF
    ensures forall i, j :: |name| <= i < j < 16 && raw[i] == 0 ==> raw[j] == 0
    ensures (forall i :: |name| <= i < 16 ==> raw[i] == 0) ==> name == [] || name[|name| - 1] as int != 0
  {
    var noNul := RStrip(raw, b => b == 0);
    var bytes := RStrip(noNul, b => b == 0xFF);
    RStripShape(raw, b => b == 0);
    RStripShape(noNul, b => b == 0xFF);
    seq(|bytes|, i requires 0 <= i < |bytes| => bytes[i] as char)
  }

  /** A name as the firmware stores it: one byte per character, padded with
      0xFF fill to 16 bytes. */
  function NameBytes(name: string): (b: seq<byte>)
    requires |name| <= 16 && forall i :: 0 <= i < |name| ==> name[i] as int < 256
    ensures |b| == 16
  {
    seq(16, i requires 0 <= i < 16 => if i < |name| then name[i] as int else 0xFF)
  }

  /** Storing a name and reading it back gives the name, provided it does not
      end in a 0xFF character, and does not end in NUL when it fills all 16
      bytes (those characters would be taken for fill). */
  lemma NameRoundTrip(name: string)
    requires |name| <= 16 && forall i :: 0 <= i < |name| ==> name[i] as int < 256
    requires name == [] || name[|name| - 1] as int != 0xFF
    requires |name| == 16 ==> name[15] as int != 0
    ensures NameOf(NameBytes(name)) == name
  {
    var raw := NameBytes(name);
    var noNul := RStrip(raw, b => b == 0);
    RStripShape(raw, b => b == 0);
    assert raw[15] != 0;
    assert noNul == raw;
    var bytes := RStrip(noNul, b => b == 0xFF);
    RStripShape(noNul, b => b == 0xFF);
    assert name != [] ==> raw[|name| - 1] != 0xFF;
    assert forall i :: |name| <= i < 16 ==> raw[i] == 0xFF;
    assert |bytes| == |name|;
  }

  /* ----- the state cell of a CSV row ----- */

  /** "R" for a removed channel, "S" for an enabled channel skipped in scans,
      a space otherwise. */
  function ChannelState(enabled: bool, skip: bool): (cell: string)
    ensures |cell| == 1
    ensures cell == "R" <==> !enabled
    ensures cell == "S" <==> enabled && skip
    ensures cell == " " <==> enabled && !skip
  {
    if !enabled then "R" else if skip then "S" else " "
  }

  datatype CsvState = CsvState(enabled: bool, skip: bool)

  /** Reading the state cell: enabled unless "R", skipped exactly when "S". */
  function StateOf(cell: string): (st: CsvState)
    ensures !st.enabled ==> !st.skip
    ensures ChannelState(st.enabled, st.skip) == cell <==> cell == "R" || cell == "S" || cell == " "
    ensures cell != "R" && cell != "S" ==> st == CsvState(true, false)
  {
    CsvState(cell != "R", cell == "S")
  }

  /** Enabled channels keep both flags through the state cell; a removed channel
      loses its skip flag. */
  lemma StateRoundTrip(skip: bool)
    ensures StateOf(ChannelState(true, skip)) == CsvState(true, skip)
    ensures StateOf(ChannelState(false, skip)) == CsvState(false, false)
  {
  }

  /* ----- the bank columns of a CSV row ----- */

  const FirstBankColumn := 12

  /** A bank cell reads TRUE when, stripped and upper-cased, it is "TRUE":
      once surrounding whitespace is removed it is the word true with each
      letter in either case. */
  function IsTrueCell(cell: string): (b: bool)
    ensures b <==> var t := Strip(cell);
      && |t| == 4
      && (t[0] == 'T' || t[0] == 't') && (t[1] == 'R' || t[1] == 'r')
      && (t[2] == 'U' || t[2] == 'u') && (t[3] == 'E' || t[3] == 'e')
  {
    var u := Upper(Strip(cell));
    |u| == 4 && u[0] == 'T' && u[1] == 'R' && u[2] == 'U' && u[3] == 'E'
  }

  /** The bank cells of a row: columns 12..35, cut short with the row (a
      Python slice never fails). */
  function BankCells(cells: seq<string>): (cols: seq<string>)
    ensures |cols| == if |cells| <= FirstBankColumn then 0
                     else if |cells| < FirstBankColumn + BankCount then |cells| - FirstBankColumn
                     else BankCount
    ensures forall k :: 0 <= k < |cols| ==> cols[k] == cells[FirstBankColumn + k]
  {
    var lo := if |cells| < FirstBankColumn then |cells| else FirstBankColumn;
    var hi := if |cells| < FirstBankColumn + BankCount then |cells| else FirstBankColumn + BankCount;
    cells[lo..hi]
  }

  /** The positions, counted from `k`, at which `bs` holds, ascending. */
  function Positions(bs: seq<bool>, k: int): (r: seq<int>)
    ensures forall x :: x in r <==> k <= x < k + |bs| && bs[x - k]
    ensures forall i, j :: 0 <= i < j < |r| ==> r[i] < r[j]
    ensures forall i :: 0 <= i < |r| ==> k <= r[i]
    decreases |bs|
  {
    if bs == [] then []
    else
      var rest := Positions(bs[1..], k + 1);
      if bs[0] then [k] + rest else rest
  }

  /** `_parse_csv`'s bank list: the ascending bank numbers k < 24 whose
      column 12 + k reads TRUE; columns past the end of a short row count as
      absent. */
  function BankColumns(cells: seq<string>): (banks: seq<int>)
    ensures forall k :: k in banks <==>
      0 <= k < BankCount && FirstBankColumn + k < |cells| && IsTrueCell(cells[FirstBankColumn + k])
    ensures forall i, j :: 0 <= i < j < |banks| ==> banks[i] < banks[j]
  {
    Positions(CellTruths(BankCells(cells)), 0)
  }

  /** Which cells read TRUE. */
  function CellTruths(cols: seq<string>): (bs: seq<bool>)
    ensures |bs| == |cols|
    ensures forall k :: 0 <= k < |cols| ==> bs[k] == IsTrueCell(cols[k])
  {
    if cols == [] then [] else [IsTrueCell(cols[0])] + CellTruths(cols[1..])
  }

  /** How the writer reads a bank list: one entry per element, true when the
      element is truthy (for a number, non-zero). */
  function TruthyFlags(banks: seq<int>): (flags: seq<bool>)
    ensures |flags| == |banks|
    ensures forall k :: 0 <= k < |banks| ==> (flags[k] <==> banks[k] != 0)
  {
    seq(|banks|, k requires 0 <= k < |banks| => banks[k] != 0)
  }

  /** The cell the writer emits for a bank flag. */
  function FlagCell(member: bool): (cell: string)
    ensures IsTrueCell(cell) <==> member
  {
    if member then " TRUE" else "FALSE"
  }

  /** A row that ends after bank column 2, whose bank columns 0 and 2 read
      TRUE and column 1 does not: the bank list read from it holds bank
      numbers, and the writer, which expects per-bank flags, takes it for "not
      in bank 0, in bank 1". */
  lemma BankColumnsAreNotFlags(cells: seq<string>)
    requires |cells| == FirstBankColumn + 3
    requires IsTrueCell(cells[12]) && !IsTrueCell(cells[13]) && IsTrueCell(cells[14])
    ensures BankColumns(cells) == [0, 2]
    ensures TruthyFlags(BankColumns(cells)) == [false, true]
  {
    var bs := CellTruths(BankCells(cells));
    assert bs == [true, false, true];
    assert Positions([true, false, true], 0) == [0, 2];
  }

  /** The bank columns as one flag per bank, the form the `.dat` decoder and
      the writer use: entry k is true when column 12 + k reads TRUE. */
  function BankFlags(cells: seq<string>): (flags: seq<bool>)
    ensures |flags| == BankCount
    ensures forall k :: 0 <= k < BankCount ==> (flags[k] <==> k in BankColumns(cells))
  {
    seq(BankCount, k requires 0 <= k < BankCount =>
      FirstBankColumn + k < |cells| && IsTrueCell(cells[FirstBankColumn + k]))
  }

  /** Writing 24 bank flags as cells and reading them back gives the flags. */
  lemma BankFlagsRoundTrip(prefix: seq<string>, flags: seq<bool>)
    requires |prefix| == FirstBankColumn && |flags| == BankCount
    ensures BankFlags(prefix + seq(BankCount, k requires 0 <= k < BankCount => FlagCell(flags[k]))) == flags
  {
    var cells := prefix + seq(BankCount, k requires 0 <= k < BankCount => FlagCell(flags[k]));
    var read := BankFlags(cells);
    forall k | 0 <= k < BankCount ensures read[k] == flags[k] {
      assert cells[FirstBankColumn + k] == FlagCell(flags[k]);
    }
  }

  /* ----- the record's enumerated fields ----- */

  datatype DecodeError =
    | UnknownStep(code: int)
    | ToneIndexOutOfRange(index: int)
    | DcsIndexOutOfRange(index: int)
    | UnknownDcsPolarity(code: int)
    | UnknownToneMode(code: int)
    | UnknownOffsetPol(code: int)

  /** The six fields a written slot takes from its record and an empty slot
      takes from defaults. */
  datatype EnumFields = EnumFields(
    step: Step, tone: int, dcs: int, dcsPol: DcsPolarity, toneMode: ToneMode, offsetPol: OffsetPol)

  /** The defaults of an empty slot: automatic step, the first tone and DCS
      code, polarity 0, tone mode 0 and offset polarity 0. */
  function EmptyDefaults(): (d: EnumFields)
    ensures StepCode(d.step) == 0 && DcsPolarityCode(d.dcsPol) == 0
    ensures ToneModeCode(d.toneMode) == 0 && OffsetPolCode(d.offsetPol) == 0
  {
    EnumFields(Auto, 670, 23, RxNormalTxNormal, Off, OffsetOff)
  }

  /** The default tone and DCS code are the first entries of their tables
      (67.0 Hz and code 023). */
  lemma DefaultsAreFirstEntries()
    ensures EmptyDefaults().tone == Tones[0] == 670
    ensures EmptyDefaults().dcs == DcsCodes[0] == 23
  {
  }

  /** The fields of a written slot, decoded in the source's order: step (low
      nibble of the step byte), tone (table index), DCS code (table index), DCS
      polarity (high nibble of the polarity byte), tone mode (low nibble of the
      tx byte), offset polarity (high nibble of the step byte).  The first field
      with no variant or an index past its table is the error. */
  function DecodeEnumFields(gen: Generation, rec: ChannelRecord): (r: Result<EnumFields, DecodeError>)
    ensures r.Success? <==>
      && IsStepCode(gen, rec.step % 16) && rec.tone < 50 && rec.dcs < 104
      && IsDcsPolarityCode(rec.dcsPol / 16) && IsToneModeCode(rec.tx % 16)
      && IsOffsetPolCode(gen, rec.step / 16)
    ensures r.Success? ==>
      && StepCode(r.value.step) == rec.step % 16
      && TableAt(Tones, rec.tone) == Some(r.value.tone) && TableAt(DcsCodes, rec.dcs) == Some(r.value.dcs)
      && DcsPolarityCode(r.value.dcsPol) == rec.dcsPol / 16
      && ToneModeCode(r.value.toneMode) == rec.tx % 16
      && OffsetPolCode(r.value.offsetPol) == rec.step / 16
    ensures !IsStepCode(gen, rec.step % 16) ==> r == Failure(UnknownStep(rec.step % 16))
    ensures IsStepCode(gen, rec.step % 16) && rec.tone >= 50 ==> r == Failure(ToneIndexOutOfRange(rec.tone))
    ensures IsStepCode(gen, rec.step % 16) && rec.tone < 50 && rec.dcs >= 104 ==>
      r == Failure(DcsIndexOutOfRange(rec.dcs))
    ensures (IsStepCode(gen, rec.step % 16) && rec.tone < 50 && rec.dcs < 104
             && !IsDcsPolarityCode(rec.dcsPol / 16)) ==>
      r == Failure(UnknownDcsPolarity(rec.dcsPol / 16))
    ensures (IsStepCode(gen, rec.step % 16) && rec.tone < 50 && rec.dcs < 104
             && IsDcsPolarityCode(rec.dcsPol / 16) && !IsToneModeCode(rec.tx % 16)) ==>
      r == Failure(UnknownToneMode(rec.tx % 16))
    ensures (IsStepCode(gen, rec.step % 16) && rec.tone < 50 && rec.dcs < 104
             && IsDcsPolarityCode(rec.dcsPol / 16) && IsToneModeCode(rec.tx % 16)
             && !IsOffsetPolCode(gen, rec.step / 16)) ==>
      r == Failure(UnknownOffsetPol(rec.step / 16))
  {
    var step :- StepOf(gen, rec.step % 16).ToResult(UnknownStep(rec.step % 16));
    var tone :- TableAt(Tones, rec.tone).ToResult(ToneIndexOutOfRange(rec.tone));
    var dcs :- TableAt(DcsCodes, rec.dcs).ToResult(DcsIndexOutOfRange(rec.dcs));
    var dcsPol :- DcsPolarityOf(rec.dcsPol / 16).ToResult(UnknownDcsPolarity(rec.dcsPol / 16));
    var toneMode :- ToneModeOf(rec.tx % 16).ToResult(UnknownToneMode(rec.tx % 16));
    var offsetPol :- OffsetPolOf(gen, rec.step / 16).ToResult(UnknownOffsetPol(rec.step / 16));
    Success(EnumFields(step, tone, dcs, dcsPol, toneMode, offsetPol))
  }

  /* ----- the decoded channel ----- */

  /** The settings `_parse_dat` reads from single bits and nibbles, all of
      which decode for every byte value: power (tx bits 7-6), mode (tx bits
      5-4), bell (misc_options bit 0), attenuator (misc_options bit 5), clock
      shift (optionsA bit 4), bandwidth (optionsA bit 5) and S-meter level
      (low nibble of s_meter). */
  datatype Settings = Settings(
    txpwr: TxPwr, mode: Mode, bell: int, attn: int, clockShift: ClockShift, bandw: Bandw, sMeter: int)

  function SettingsOf(rec: ChannelRecord): (s: Settings)
    ensures TxPwrCode(s.txpwr) == rec.tx / 64 && ModeCode(s.mode) == rec.tx / 16 % 4
    ensures ClockShiftCode(s.clockShift) == rec.optionsA / 16 % 2 && BandwCode(s.bandw) == rec.optionsA / 32 % 2
    ensures s.bell == rec.miscOptions % 2 && s.attn == rec.miscOptions / 32 % 2 && s.sMeter == rec.sMeter % 16
  {
    Settings(TxPwrOf(rec.tx / 64), ModeOf(rec.tx / 16 % 4), rec.miscOptions % 2, rec.miscOptions / 32 % 2,
             ClockShiftOf(rec.optionsA / 16 % 2), BandwOf(rec.optionsA / 32 % 2), rec.sMeter % 16)
  }

  datatype ChannelValue = ChannelValue(
    index: int,
    raw: ChannelRecord,
    flags: SlotFlags,
    name: string,
    freq: nat,
    offset: nat,
    settings: Settings,
    banks: seq<bool>,
    fields: EnumFields)

  /** Entry k says whether the 0-based channel index is listed by bank k. */
  function Membership(index0: int, banks: seq<Bank>): (m: seq<bool>)
    ensures |m| == |banks|
  {
    seq(|banks|, k requires 0 <= k < |banks| => index0 in banks[k].channels)
  }

  /** The channel `_parse_dat` builds from slot `index` (0-based) once its
      enumerated fields are known. */
  function Assemble(index: int, rec: ChannelRecord, flags: byte, banks: Option<seq<Bank>>, fields: EnumFields)
    : ChannelValue
    requires WellFormed(rec)
  {
    ChannelValue(
      index + 1, rec, FlagsOf(flags), NameOf(rec.name), FreqOf(rec.freq), FreqOf(rec.offset), SettingsOf(rec),
      if banks.Some? then Membership(index, banks.value) else [],
      fields)
  }

  /** `_parse_dat` as a value: the channel decoded from slot `index` (0-based).
      It fails only for a written slot whose enumerated fields do not decode;
      an empty slot always decodes, with the defaults. */
  function DecodeDat(gen: Generation, index: int, rec: ChannelRecord, flags: byte, banks: Option<seq<Bank>>)
    : (r: Result<ChannelValue, DecodeError>)
    requires WellFormed(rec)
    ensures r.Success? <==> flags % 2 == 0 || DecodeEnumFields(gen, rec).Success?
    ensures r.Failure? ==> r.error == DecodeEnumFields(gen, rec).error
  {
    if flags % 2 != 1 then Success(Assemble(index, rec, flags, banks, EmptyDefaults()))
    else
      match DecodeEnumFields(gen, rec)
      case Failure(e) => Failure(e)
      case Success(fields) => Success(Assemble(index, rec, flags, banks, fields))
  }

  /** What each field of a decoded channel holds: the 1-based index, the flag
      bits, the name, frequency and offset decoders, the bitfields of the tx,
      optionsA, misc_options and s_meter bytes, one membership entry per bank,
      and the enumerated fields (defaults for an empty slot). */
  lemma DecodedFields(gen: Generation, index: int, rec: ChannelRecord, flags: byte, banks: Option<seq<Bank>>)
    requires WellFormed(rec)
    requires DecodeDat(gen, index, rec, flags, banks).Success?
    ensures var c := DecodeDat(gen, index, rec, flags, banks).value;
      && c.index == index + 1 && c.raw == rec
      && (c.flags.empty <==> flags % 2 == 0) && (c.flags.enabled <==> flags / 2 % 2 == 1)
      && (c.flags.skip <==> flags / 4 % 2 == 1)
      && c.name == NameOf(rec.name) && c.freq == FreqOf(rec.freq) && c.offset == FreqOf(rec.offset)
      && TxPwrCode(c.settings.txpwr) == rec.tx / 64 && ModeCode(c.settings.mode) == rec.tx / 16 % 4
      && ClockShiftCode(c.settings.clockShift) == rec.optionsA / 16 % 2
      && BandwCode(c.settings.bandw) == rec.optionsA / 32 % 2
      && c.settings.bell == rec.miscOptions % 2 && c.settings.attn == rec.miscOptions / 32 % 2
      && c.settings.sMeter == rec.sMeter % 16
      && (banks.None? ==> c.banks == [])
      && (banks.Some? ==>
            |c.banks| == |banks.value| && forall k :: 0 <= k < |banks.value| ==> (c.banks[k] <==> index in banks.value[k].channels))
      && (c.flags.empty ==> c.fields == EmptyDefaults())
      && (!c.flags.empty ==> Success(c.fields) == DecodeEnumFields(gen, rec))
  {
  }

  /** The attributes of a decoded slot that do not depend on its empty bit. */
  lemma DecodedSlot(gen: Generation, index: int, rec: ChannelRecord, flags: byte, banks: Option<seq<Bank>>)
    requires WellFormed(rec)
    requires DecodeDat(gen, index, rec, flags, banks).Success?
    ensures var c := DecodeDat(gen, index, rec, flags, banks).value;
      && c.index == index + 1 && c.raw == rec && c.flags == FlagsOf(flags)
      && c.banks == if banks.Some? then Membership(index, banks.value) else []
  {
  }

  /** The empty-slot rule: whatever the record holds, an empty slot decodes,
      and two empty slots whose records differ only in the enumerated fields
      decode to channels that differ only in the raw record. */
  lemma EmptySlotIgnoresEnumBytes(gen: Generation, index: int, a: ChannelRecord, b: ChannelRecord,
                                  flags: byte, banks: Option<seq<Bank>>)
    requires WellFormed(a) && WellFormed(b) && flags % 2 == 0
    requires a == b.(step := a.step, tone := a.tone, dcs := a.dcs, dcsPol := a.dcsPol, tx := a.tx)
    requires a.tx / 16 == b.tx / 16
    ensures DecodeDat(gen, index, a, flags, banks).Success?
    ensures DecodeDat(gen, index, a, flags, banks).value
         == DecodeDat(gen, index, b, flags, banks).value.(raw := a)
  {
    assert SettingsOf(a) == SettingsOf(b) by {
      assert a.tx / 64 == b.tx / 64 && a.tx / 16 % 4 == b.tx / 16 % 4;
    }
  }

  /** The append loop of `_parse_dat`: one entry per bank, true when the
      0-based channel index is in that bank's list. */
  method BankMembership(index0: int, all: seq<Bank>) returns (m: seq<bool>)
    ensures |m| == |all|
    ensures forall k :: 0 <= k < |all| ==> (m[k] <==> index0 in all[k].channels)
  {
    m := [];
    var k := 0;
    while k < |all|
      invariant 0 <= k <= |all|
      invariant |m| == k
      invariant forall j :: 0 <= j < k ==> (m[j] <==> index0 in all[j].channels)
    {
      m := m + [index0 in all[k].channels];
      k := k + 1;
    }
  }

  /* ----- the channel object ----- */

  /** The channel object.  `ParseDat` assigns its fields one by one, as
      `_parse_dat` does, and builds the bank list with an append loop. */
  class Channel {
    var index: int
    var raw: ChannelRecord
    var slotFlags: SlotFlags
    var name: string
    var freq: nat
    var offset: nat
    var settings: Settings
    var banks: seq<bool>
    var fields: EnumFields

    /** The object before any data is parsed into it. */
    constructor ()
      ensures banks == [] && name == []
    {
      index, raw := 0, ChannelRecord(0, 0, [0, 0, 0], 0, [0, 0], [], [0, 0, 0], 0, 0, 0, 0, 0);
      slotFlags := SlotFlags(true, false, false);
      name, freq, offset := [], 0, 0;
      settings := Settings(L1, FM, 0, 0, A, Wide, 0);
      banks := [];
      fields := EmptyDefaults();
    }

    function Value(): ChannelValue
      reads this
    {
      ChannelValue(index, raw, slotFlags, name, freq, offset, settings, banks, fields)
    }

    /** Parses slot `slot` (0-based) into this object: the attributes read
        before the empty bit is looked at, then the enumerated fields.  On
        success the object holds exactly the channel `DecodeDat` describes;
        otherwise the error is the one `DecodeDat` reports (the object is then
        left partly assigned, and the source discards it with the exception). */
    method ParseDat(gen: Generation, slot: int, rec: ChannelRecord, flags: byte, bankList: Option<seq<Bank>>)
      returns (err: Option<DecodeError>)
      requires WellFormed(rec)
      modifies this
      ensures err.None? <==> DecodeDat(gen, slot, rec, flags, bankList).Success?
      ensures err.None? ==> Value() == DecodeDat(gen, slot, rec, flags, bankList).value
      ensures err.Some? ==> err.value == DecodeDat(gen, slot, rec, flags, bankList).error
    {
      ParseCommon(slot, rec, flags, bankList);
      err := ParseFields(gen, rec);
    }

    method ParseCommon(slot: int, rec: ChannelRecord, flags: byte, bankList: Option<seq<Bank>>)
      requires WellFormed(rec)
      modifies this`index, this`raw, this`slotFlags, this`name, this`freq, this`offset, this`settings, this`banks
      ensures index == slot + 1 && raw == rec && slotFlags == FlagsOf(flags)
      ensures name == NameOf(rec.name) && freq == FreqOf(rec.freq) && offset == FreqOf(rec.offset)
      ensures settings == SettingsOf(rec)
      ensures banks == if bankList.Some? then Membership(slot, bankList.value) else []
    {
      index := slot + 1;
      raw := rec;
      slotFlags := FlagsOf(flags);
      name := NameOf(rec.name);
      freq := FreqOf(rec.freq);
      settings := SettingsOf(rec);
      offset := FreqOf(rec.offset);
      banks := [];
      if bankList.Some? {
        banks := BankMembership(slot, bankList.value);
      }
    }

    method ParseFields(gen: Generation, rec: ChannelRecord) returns (err: Option<DecodeError>)
      modifies this`fields
      ensures err.None? <==> slotFlags.empty || DecodeEnumFields(gen, rec).Success?
      ensures err.Some? ==> err.value == DecodeEnumFields(gen, rec).error
      ensures err.None? ==> fields == if slotFlags.empty then EmptyDefaults() else DecodeEnumFields(gen, rec).value
    {
      if !slotFlags.empty {
        var decoded := DecodeEnumFields(gen, rec);
        if decoded.Failure? {
          return Some(decoded.error);
        }
        fields := decoded.value;
      } else {
        fields := EmptyDefaults();
      }
      err := None;
    }
  }
}
