/** The fixed byte layout of the memory image: the 32-byte channel record, the
    200-byte bank table of big-endian 16-bit slots, and the regions of the whole
    file in order (banks, flags, padding, records, digital-ID table, padding,
    checksum).  Bytes are integers 0..255; the image is a sequence of them. */
module Structs {

  type byte = x: int | 0 <= x < 256
  type u16 = x: int | 0 <= x < 0x1_0000

  /* ----- the channel record (32 bytes) ----- */

  const RecordSize := 32

  const OptionsAAt := 0
  const StepAt := 1
  const FreqAt := 2        // 3 bytes
  const TxAt := 5
  const UnknownAt := 6     // 2 bytes, never interpreted
  const NameAt := 8        // 16 bytes
  const OffsetAt := 24     // 3 bytes
  const ToneAt := 27
  const DcsAt := 28
  const DcsPolAt := 29
  const SMeterAt := 30
  const MiscOptionsAt := 31

  datatype ChannelRecord = ChannelRecord(
    optionsA: byte,
    step: byte,
    freq: seq<byte>,
    tx: byte,
    unknown: seq<byte>,
    name: seq<byte>,
    offset: seq<byte>,
    tone: byte,
    dcs: byte,
    dcsPol: byte,
    sMeter: byte,
    miscOptions: byte)

  /** The multi-byte fields have their declared widths. */
  predicate WellFormed(r: ChannelRecord) {
    |r.freq| == 3 && |r.unknown| == 2 && |r.name| == 16 && |r.offset| == 3
  }

  /** The record's 32 bytes, fields in declaration order. */
  function RecordBytes(r: ChannelRecord): (b: seq<byte>)
    requires WellFormed(r)
    ensures |b| == RecordSize
  {
    [r.optionsA, r.step] + r.freq + [r.tx] + r.unknown + r.name + r.offset
    + [r.tone, r.dcs, r.dcsPol, r.sMeter, r.miscOptions]
  }

  /** Reading a record: every byte lands in exactly one field, so writing the
      fields back gives the same 32 bytes. */
  function RecordOf(b: seq<byte>): (r: ChannelRecord)
    requires |b| == RecordSize
    ensures WellFormed(r)
    ensures RecordBytes(r) == b
  {
    ChannelRecord(
      b[OptionsAAt], b[StepAt], b[FreqAt..FreqAt + 3], b[TxAt], b[UnknownAt..UnknownAt + 2],
      b[NameAt..NameAt + 16], b[OffsetAt..OffsetAt + 3], b[ToneAt], b[DcsAt], b[DcsPolAt],
      b[SMeterAt], b[MiscOptionsAt])
  }

  lemma RecordRoundTrip(r: ChannelRecord)
    requires WellFormed(r)
    ensures RecordOf(RecordBytes(r)) == r
  {
    var b := RecordBytes(r);
    assert b[FreqAt..FreqAt + 3] == r.freq;
    assert b[UnknownAt..UnknownAt + 2] == r.unknown;
    assert b[NameAt..NameAt + 16] == r.name;
    assert b[OffsetAt..OffsetAt + 3] == r.offset;
  }

  /* ----- the bank table (100 big-endian 16-bit slots) ----- */

  const BankSlotCount := 100
  const BankTableSize := 2 * BankSlotCount

  /** The bytes of a table of 16-bit slots, high byte first. */
  function SlotBytes(slots: seq<u16>): (b: seq<byte>)
    ensures |b| == 2 * |slots|
  {
    seq(2 * |slots|, i requires 0 <= i < 2 * |slots| =>
      if i % 2 == 0 then slots[i / 2] / 256 else slots[i / 2] % 256)
  }

  /** Slot k is byte 2k times 256 plus byte 2k+1 (big-endian). */
  function SlotsOf(b: seq<byte>): (slots: seq<u16>)
    requires |b| % 2 == 0
    ensures |slots| == |b| / 2
    ensures forall k :: 0 <= k < |slots| ==> slots[k] == b[2 * k] as int * 256 + b[2 * k + 1]
  {
    seq(|b| / 2, k requires 0 <= k < |b| / 2 => b[2 * k] as int * 256 + b[2 * k + 1])
  }

  lemma SlotBytesAt(slots: seq<u16>, k: int)
    requires 0 <= k < |slots|
    ensures SlotBytes(slots)[2 * k] == slots[k] / 256
    ensures SlotBytes(slots)[2 * k + 1] == slots[k] % 256
  {
  }

  /** Reading the slots of a table and writing them back gives the same bytes. */
  lemma SlotsRoundTrip(b: seq<byte>)
    requires |b| % 2 == 0
    ensures SlotBytes(SlotsOf(b)) == b
  {
    var slots := SlotsOf(b);
    var back := SlotBytes(slots);
    forall i | 0 <= i < |b| ensures back[i] == b[i] {
      var k := i / 2;
      SlotBytesAt(slots, k);
    }
  }

  /** Writing slots and reading them back gives the same slots, so slot
      decoding is injective. */
  lemma SlotBytesRoundTrip(slots: seq<u16>)
    ensures SlotsOf(SlotBytes(slots)) == slots
  {
    var back := SlotsOf(SlotBytes(slots));
    forall k | 0 <= k < |slots| ensures back[k] == slots[k] {
      SlotBytesAt(slots, k);
    }
  }

  /* ----- the whole file ----- */

  const BankCount := 24
  const ChannelCount := 1100
  const PadM2Size := 244
  const DgidCount := 900
  const DgidSize := 2
  const PadM3Size := 654

  /** The 32-bit checksum field is aligned to a multiple of four bytes. */
  function AlignUp4(n: nat): (r: nat)
    ensures r % 4 == 0 && n <= r < n + 4
  {
    (n + 3) / 4 * 4
  }

  const BanksAt := 0
  const FlagsAt := BanksAt + BankCount * BankTableSize
  const PadM2At := FlagsAt + ChannelCount
  const ChannelsAt := PadM2At + PadM2Size
  const DgidAt := ChannelsAt + ChannelCount * RecordSize
  const PadM3At := DgidAt + DgidCount * DgidSize
  const ChecksumAt := AlignUp4(PadM3At + PadM3Size)
  const ImageSize := ChecksumAt + 4

  /** The regions in order: 24 bank tables at 0..4799, 1100 flags at
      4800..5899, 244 bytes of padding, 1100 records at 6144..41343, 900
      two-byte digital-ID entries, 654 bytes of padding, two alignment bytes,
      and the 4-byte checksum at 43800. */
  lemma Layout()
    ensures FlagsAt == 4800 && PadM2At == 5900 && ChannelsAt == 6144
    ensures DgidAt == 41344 && PadM3At == 43144 && PadM3At + PadM3Size == 43798
    ensures ChecksumAt == 43800 && ImageSize == 43804
  {
  }

  function BankTableAt(k: nat): nat { BanksAt + k * BankTableSize }
  function FlagAt(i: nat): nat { FlagsAt + i }
  function RecordAt(i: nat): nat { ChannelsAt + i * RecordSize }

  /** Bank table k is bytes 200k .. 200k+199. */
  function BankTablesOf(img: seq<byte>): (tables: seq<seq<u16>>)
    requires |img| == ImageSize
    ensures |tables| == BankCount
    ensures forall k :: 0 <= k < BankCount ==> tables[k] == SlotsOf(img[200 * k .. 200 * k + 200])
  {
    seq(BankCount, k requires 0 <= k < BankCount => SlotsOf(img[BankTableAt(k) .. BankTableAt(k) + BankTableSize]))
  }

  /** Flag i is byte 4800+i. */
  function ChannelFlagsOf(img: seq<byte>): (flags: seq<byte>)
    requires |img| == ImageSize
    ensures |flags| == ChannelCount
    ensures forall i :: 0 <= i < ChannelCount ==> flags[i] == img[4800 + i]
  {
    seq(ChannelCount, i requires 0 <= i < ChannelCount => img[FlagAt(i)])
  }

  /** Record i is bytes 6144+32i .. 6144+32i+31. */
  function RecordsOf(img: seq<byte>): (records: seq<ChannelRecord>)
    requires |img| == ImageSize
    ensures |records| == ChannelCount
    ensures forall i :: 0 <= i < ChannelCount ==>
      WellFormed(records[i]) && RecordBytes(records[i]) == img[6144 + 32 * i .. 6144 + 32 * i + 32]
  {
    seq(ChannelCount, i requires 0 <= i < ChannelCount => RecordOf(img[RecordAt(i) .. RecordAt(i) + RecordSize]))
  }

  /** The stored checksum: the big-endian 32-bit value at 43800. */
  function StoredChecksumOf(img: seq<byte>): (c: nat)
    requires |img| == ImageSize
    ensures c == ((img[43800] as int * 256 + img[43801]) * 256 + img[43802]) * 256 + img[43803]
    ensures c < 0x1_0000_0000
  {
    Layout();
    ((img[ChecksumAt] as int * 256 + img[ChecksumAt + 1]) * 256 + img[ChecksumAt + 2]) * 256 + img[ChecksumAt + 3]
  }
}
