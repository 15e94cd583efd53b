# FT3D `MEMORY.dat` decoder — a Dafny model

This project models the decoding half of the FT3D channel-memory editor: how a
`MEMORY.dat` image is read into channels and banks.

- **Layout.** The image has fixed regions:
  - 24 bank tables of 100 big-endian 16-bit slots;
  - 1100 flag bytes;
  - padding;
  - 1100 channel records of 32 bytes;
  - a digital-ID table;
  - more padding;
  - a big-endian 32-bit checksum at offset 43800.
- **Channels.** A channel is decoded from its record, its flag byte, its
  0-based slot number and the decoded banks:
  - the empty, enabled and skip bits;
  - the packed-decimal receive frequency and offset;
  - the name, with trailing fill stripped;
  - power, mode and tone mode, and the other bitfields;
  - step and offset polarity;
  - tone and DCS codes looked up in two constant tables;
  - one membership flag per bank.
- **Empty slots.** An empty slot takes defaults for its enumerated fields
  whatever its record holds.
- **Banks.** A bank keeps its non-`0xFFFF` slots, sorted.
- **Checksum.** The decoder sums bytes and reports a mismatch, but carries on
  decoding.
- **CSV pieces.** The state cell (`R`/`S`/blank) and the bank columns are
  modelled, as are the lines of a CSV file that become channels.

`src/parse.py`, the older copy of the decoder, has its own enumeration sets.
The model treats it as a second configuration, `Generation.Legacy`, of the
same decoder:
- its step decoder rejects codes 1 and 2;
- its offset polarity accepts code 4.

Units and arithmetic:
- Bytes are integers 0..255.
- A shift or mask is a division or remainder by a power of two.
- Frequencies are integer thousandths of a MHz.
- Tones are tenths of a hertz.

Modules:
- `Wrappers`: `Option` and `Result`.
- `Enums`: src/enums.py and the enumeration sets of src/parse.py.
- `Structs`: src/structs.py.
- `BankCodec`: src/bank.py.
- `ChannelCodec`: src/channel.py. It includes the `Channel` class, whose
  `ParseDat` assigns the attributes and builds the bank list with a loop, as
  `_parse_dat` does.
- `ImageDecode`: the `__main__` pipeline of src/main.py and src/parse.py.

Where the code and its documentation disagree, the model follows the code:
- **Checksum span.** The code sums the first 43000 bytes, not every byte
  before the checksum field.
- **Decode errors.** A channel that fails to decode stops the whole channel
  list instead of being collected with the others (`ImageChannelsSucceed`,
  `ImageChannelsFail`).
- **DCS polarity.** It is read from bits 7..4 of its byte, not bits 3..0 as a
  comment in src/structs.py says.

## Model

| member | source | states |
|---|---|---|
| Structs.RecordBytes | src/structs.py:29-41 | a record is exactly 32 bytes |
| Structs.RecordOf | src/structs.py:29-41 | the fields sit at offsets 0, 1, 2-4, 5, 6-7, 8-23, 24-26, 27, 28, 29, 30, 31 and cover the 32 bytes: writing them back gives the same bytes |
| Structs.RecordRoundTrip | src/structs.py:29-41 | reading the bytes of a record gives the record back, so record reading is injective on well-formed records |
| Structs.SlotsOf | src/structs.py:44-45 | slot k of a bank table is byte 2k times 256 plus byte 2k+1 (big-endian) |
| Structs.SlotBytes | src/structs.py:44-45 | the inverse writer: two bytes per slot |
| Structs.SlotsRoundTrip | src/structs.py:44-45 | reading slots and writing them back gives the same bytes |
| Structs.SlotBytesRoundTrip | src/structs.py:44-45 | writing slots and reading them back gives the same slots |
| Structs.AlignUp4 | src/structs.py:60 | the 32-bit checksum field lands on the next multiple of four |
| Structs.Layout | src/structs.py:53-60 | flags at 4800, padding at 5900, records at 6144, digital-ID table at 41344, padding at 43144 up to 43798, checksum at 43800, image size 43804 |
| Structs.BankTablesOf | src/structs.py:54 | 24 tables, table k read from bytes 200k..200k+199 |
| Structs.ChannelFlagsOf | src/structs.py:55 | 1100 flags, flag i is byte 4800+i |
| Structs.RecordsOf | src/structs.py:57 | 1100 records, record i is the 32 bytes from 6144+32i |
| Structs.StoredChecksumOf | src/structs.py:60 | the stored checksum is the big-endian 32-bit value at 43800..43803 |
| Enums.ClockShiftCode | src/enums.py:4-6 | clock shift codes are 0 and 1 |
| Enums.ClockShiftOf | src/enums.py:4-6 | every 1-bit code decodes, to the variant with that code |
| Enums.BandwCode | src/enums.py:9-11 | bandwidth codes are 0 and 1 |
| Enums.BandwOf | src/enums.py:9-11 | every 1-bit code decodes, to the variant with that code |
| Enums.TxPwrCode | src/enums.py:14-18 | power codes are 0..3 |
| Enums.TxPwrOf | src/enums.py:14-18 | every 2-bit code decodes, to the variant with that code |
| Enums.ModeCode | src/enums.py:21-25 | mode codes are 0..3 |
| Enums.ModeOf | src/enums.py:21-25 | every 2-bit code decodes, to the variant with that code |
| Enums.ToneModeCode | src/enums.py:32-42 | every tone mode has a code in {0..6, 9, 10, 11} |
| Enums.ToneModeOf | src/enums.py:32-42 | a code decodes exactly when it is in {0..6, 9, 10, 11}, to the variant with that code |
| Enums.DcsPolarityCode | src/enums.py:45-51 | every DCS polarity has an even code 0..10 |
| Enums.DcsPolarityOf | src/enums.py:45-51 | a code decodes exactly when it is even and 0..10, to the variant with that code |
| Enums.StepCode | src/enums.py:54-64 | step codes are 0..9 |
| Enums.StepOf | src/enums.py:54-64 | a code decodes exactly when the generation knows it (0..9 currently; 0 and 3..9 in the older decoder), to the variant with that code |
| Enums.OffsetPolCode | src/enums.py:67-71 | offset polarity codes are 0..4 |
| Enums.OffsetPolOf | src/enums.py:67-71 | a code decodes exactly when the generation knows it (0..3 currently; 0..4 in the older decoder), to the variant with that code |
| Enums.EnumCodesRoundTrip | src/enums.py:32-71 | decoding a variant's code gives the variant back, in every generation that knows the code |
| Enums.GenerationsAgree | src/parse.py:54-70 | the older step set is the current one without codes 1 and 2; the older offset polarity set adds code 4; shared codes decode alike |
| Enums.TonesAscending | src/enums.py:74-77 | the tone table has 50 entries, strictly ascending |
| Enums.DcsLowAscending | src/enums.py:79-81 | the first 40 DCS codes (023..244) strictly ascend |
| Enums.DcsMidAscending | src/enums.py:81-83 | the next 40 DCS codes (245..503) strictly ascend |
| Enums.DcsHighAscending | src/enums.py:83-84 | the last 24 DCS codes (506..754) strictly ascend |
| Enums.DcsCodesAscending | src/enums.py:79-84 | the DCS table has 104 entries, strictly ascending |
| Enums.TableAt | src/channel.py:41-42 | a table lookup succeeds exactly for an index inside the table |
| Enums.IndexOf | src/enums.py:74-84 | reverse lookup: the first index holding a value, or none exactly when the value is absent |
| Enums.IndexOfAt | src/enums.py:74-84 | in an ascending table, looking up index i and searching for the value give back i |
| Enums.TableIndicesUnique | src/enums.py:74-84 | each tone and each DCS code has a single index |
| BankCodec.Insert | src/bank.py:8 | insertion into a sorted list keeps it sorted and adds exactly the element |
| BankCodec.Sort | src/bank.py:8 | `sorted`: an ascending permutation of its input |
| BankCodec.Occupied | src/bank.py:8 | the filter keeps each non-`0xFFFF` slot as often as it occurs, and nothing else |
| BankCodec.DecodeBank | src/bank.py:6-8 | the index is kept; no table gives no channels; otherwise the channels are sorted, are the non-sentinel slots as a multiset, and never include `0xFFFF` |
| BankCodec.Overflows | src/bank.py:9-10 | an overflowing bank lists more than 100 channels; one that does not fits in its 100-slot table |
| BankCodec.DecodedLength | src/bank.py:9-10 | the list is as long as the count of occupied slots, so a 100-slot table never overflows |
| BankCodec.MemberIffInTable | src/bank.py:8 | a non-sentinel value is a member of the bank exactly when some slot holds it |
| BankCodec.SortedUnique | src/bank.py:8 | two sorted lists with the same elements are equal, so the decoded list is determined by the table |
| ChannelCodec.FlagByte | src/channel.py:20-22 | the inverse writer: one bit per flag, nothing above bit 2 |
| ChannelCodec.FlagsOf | src/channel.py:20-22 | the three flags are the low three bits of the byte: writing them back gives the byte modulo 8 |
| ChannelCodec.FlagsRoundTrip | src/channel.py:20-22 | empty is bit 0 clear, enabled is bit 1, skip is bit 2: the three flags round-trip through the byte |
| ChannelCodec.FlagsHighBitsIgnored | src/channel.py:20-22 | bits 3..7 of the flag byte do not affect the decode |
| ChannelCodec.FreqOf | src/channel.py:86-93 | the frequency is the six nibbles weighted 100 MHz down to 1 kHz, at most 15 x 111.111 MHz |
| ChannelCodec.FreqEncodeDecode | src/channel.py:86-93 | writing any value up to 999.999 MHz as three bytes gives packed-decimal bytes that decode to that value |
| ChannelCodec.FreqDecodeEncode | src/channel.py:86-93 | on packed-decimal bytes the value is at most 999.999 MHz, and writing it gives the bytes back |
| ChannelCodec.FreqInjective | src/channel.py:86-93 | distinct packed-decimal bytes decode to distinct frequencies |
| ChannelCodec.HexNibblesAccepted | src/channel.py:86-93 | nibbles A..F are not rejected: they take the value past 999.999 MHz and break injectivity |
| ChannelCodec.RStripShape | src/channel.py:84 | `rstrip` leaves a prefix, removes only the given character, and leaves none at the end |
| ChannelCodec.NameOf | src/channel.py:83-84 | the name is a prefix of the 16 bytes, at most 16 long; every dropped byte is NUL or 0xFF, and it does not end in 0xFF; NULs are stripped first, so the dropped NULs form one run at the end, and when every dropped byte is NUL the name does not end in NUL (0xFF fill before a trailing NUL stays in the name) |
| ChannelCodec.NameBytes | src/channel.py:83-84 | the inverse writer: 16 bytes, padded with 0xFF |
| ChannelCodec.NameRoundTrip | src/channel.py:83-84 | a name written and read back is unchanged, unless it ends in 0xFF or is 16 long and ends in NUL |
| ChannelCodec.ChannelState | src/channel.py:95-101 | the state cell is "R" exactly when not enabled, "S" exactly when enabled and skipped, and a space exactly when enabled and not skipped |
| ChannelCodec.StateOf | src/channel.py:59-60 | "R" reads removed and not skipped, "S" enabled and skipped, and every other cell, the blank one included, enabled and not skipped; writing the read flags back gives the cell exactly when it is "R", "S" or a space |
| ChannelCodec.StateRoundTrip | src/channel.py:59-60 | reading the state cell back gives enabled and skip for an enabled channel; a removed channel loses skip |
| ChannelCodec.Strip | src/channel.py:76 | `strip()` leaves a slice of the cell after removing only whitespace at both ends, and the slice neither starts nor ends with whitespace |
| ChannelCodec.IsTrueCell | src/channel.py:76 | a cell reads TRUE exactly when, with surrounding whitespace removed, it is the four letters T, R, U, E, each in either case |
| ChannelCodec.Upper | src/channel.py:76 | upper-casing ASCII letters keeps the length |
| ChannelCodec.BankCells | src/channel.py:76 | the bank cells are columns 12..35, cut short by a short row |
| ChannelCodec.BankColumns | src/channel.py:76 | the bank list is the ascending bank numbers k < 24 whose column 12+k reads TRUE once stripped and upper-cased |
| ChannelCodec.TruthyFlags | src/channel.py:117 | the writer takes list element k as bank k's flag, true when the element is non-zero |
| ChannelCodec.FlagCell | src/channel.py:117 | the writer's cell reads TRUE exactly for a member |
| ChannelCodec.BankColumnsAreNotFlags | src/channel.py:76 | a row with banks 0 and 2 marked gives the list [0, 2], which the writer reads as "bank 1 only" |
| ChannelCodec.BankFlags | src/main.py:69 | one flag per bank: flag k holds exactly when bank k is in the list the columns give |
| ChannelCodec.BankFlagsRoundTrip | src/channel.py:117 | writing 24 bank flags as cells and reading them back gives the flags |
| ChannelCodec.EmptyDefaults | src/channel.py:46-52 | an empty slot's step, DCS polarity, tone mode and offset polarity all have code 0 |
| ChannelCodec.DefaultsAreFirstEntries | src/channel.py:48-49 | the default tone and DCS code are the first entries of their tables |
| ChannelCodec.DecodeEnumFields | src/channel.py:39-45 | a written slot's fields decode exactly when step, tone index, DCS index, DCS polarity, tone mode and offset polarity are all valid; each field carries its code or table entry; the first invalid field in source order is the error |
| ChannelCodec.SettingsOf | src/channel.py:25-31 | power is tx bits 7-6, mode tx bits 5-4, clock shift optionsA bit 4, bandwidth bit 5, bell misc bit 0, attenuator misc bit 5, S-meter the low nibble |
| ChannelCodec.Membership | src/channel.py:33-37 | one membership entry per bank |
| ChannelCodec.DecodeDat | src/channel.py:15-52 | a slot decodes exactly when it is empty or its enumerated fields decode; a failure carries that field's error |
| ChannelCodec.DecodedSlot | src/channel.py:17-37 | a decoded slot keeps its record, carries index + 1, its flag bits and its bank membership |
| ChannelCodec.DecodedFields | src/channel.py:17-52 | every attribute of a decoded channel: index + 1, the flag bits, name, frequency, offset, bitfields, membership in both directions, defaults when empty and decoded fields otherwise |
| ChannelCodec.EmptySlotIgnoresEnumBytes | src/channel.py:46-52 | an empty slot always decodes, and its channel does not depend on the bytes of its enumerated fields |
| ChannelCodec.BankMembership | src/channel.py:33-37 | the append loop gives one entry per bank, true exactly when the 0-based index is in that bank |
| ChannelCodec.Channel.ParseCommon | src/channel.py:17-37 | the attributes set before the empty bit is tested, each from its decoder |
| ChannelCodec.Channel.ParseFields | src/channel.py:39-52 | the enumerated fields: defaults when empty, decoded otherwise, or the decode error |
| ChannelCodec.Channel.ParseDat | src/channel.py:15-52 | the object afterwards holds exactly the channel `DecodeDat` describes, or the error it reports |
| ImageDecode.Sum | src/main.py:175 | a byte sum is at most 255 per byte |
| ImageDecode.SumConcat | src/main.py:175 | summing is additive over concatenation |
| ImageDecode.ChecksumMatches | src/main.py:176 | the checksums agree exactly when the field holds the four big-endian bytes of the computed sum |
| ImageDecode.ChecksumBytesOf | src/structs.py:60 | reading four big-endian bytes and writing the value back gives the bytes |
| ImageDecode.ComputedChecksum | src/main.py:175 | the sum of the first 43000 bytes is at most 10965000, so it never wraps 32 bits |
| ImageDecode.ChecksumSeesByte | src/main.py:175 | a change to one byte before 43000 changes the sum by exactly that change; a byte from 43000 on is not covered |
| ImageDecode.ChecksumBytes | src/structs.py:60 | the inverse writer: four big-endian bytes holding the value |
| ImageDecode.SealedImageValidates | src/main.py:175-177 | writing the computed checksum into the checksum field gives an image with no mismatch |
| ImageDecode.ChecksumDoesNotGateDecode | src/main.py:176-184 | whatever the checksum field holds, the computed sum, the banks and the channels are the same |
| ImageDecode.DecodeBanks | src/main.py:181 | bank k comes from table k with index k, sorted, its slots minus the sentinel |
| ImageDecode.BankFromTable | src/main.py:181 | bank k of an image has index k, is sorted, never overflows, and holds the occupied slots of table k |
| ImageDecode.Collect | src/main.py:184 | the comprehension succeeds exactly when every element does; element i is the value of element i; otherwise the result is the first failure |
| ImageDecode.DecodeImage | src/main.py:175-184 | the stored and computed checksums are equal exactly when they match, there are 24 banks, and on success 1100 channels; ImageChannelsSucceed and ImageChannelsFail state when the channels decode, SlotOfImage and ChannelFromSlot what each one holds |
| ImageDecode.SlotValue | src/main.py:184 | in a decoded list of slots, entry i is the decode of slot i |
| ImageDecode.SlotsSucceed | src/main.py:184 | decoding a list of slots succeeds exactly when every slot decodes |
| ImageDecode.SlotsFail | src/main.py:184 | a failed list of slots carries the error of the first slot that fails, every earlier slot having decoded |
| ImageDecode.ImageChannelsSucceed | src/main.py:184 | an image's channel list decodes exactly when each of its 1100 slots decodes with its flag byte and the image's banks |
| ImageDecode.ImageChannelsFail | src/main.py:184 | when an image's channel list fails, its error is that of the first slot that fails to decode |
| ImageDecode.SlotOfImage | src/main.py:184 | channel i of a decoded image is the decode of record i with flag byte i and the image's banks |
| ImageDecode.ChannelFromSlot | src/main.py:184 | channel i comes from the record at 6144+32i and the flag at 4800+i, with index i+1 in 1..1100 |
| ImageDecode.MembershipMatchesTables | src/main.py:31-33 | channel i is in bank k exactly when i is a slot of table k |
| ImageDecode.Emitted | src/main.py:199 | the listed channels are exactly the written and enabled ones |
| ImageDecode.Split | src/main.py:189 | `split` gives at least one piece, and no piece holds the separator |
| ImageDecode.JoinSplit | src/main.py:189 | joining the pieces with the separator gives the text back |
| ImageDecode.CommaLines | src/main.py:189 | the kept lines are exactly those with a comma, each kept as often as it occurs |
| ImageDecode.CommaLinesConcat | src/main.py:189 | the kept lines keep their order: filtering a concatenation filters each part in turn |
| ImageDecode.CsvRows | src/main.py:189 | the lines of a CSV file that become channels are exactly those holding a comma, each as often as it occurs in the file |

## Left out

- Argument parsing, file reading and the `ctypes` cast of the file buffer are
  not modelled. The image is a sequence of exactly 43804 bytes; a shorter or
  longer file is not modelled.
- The scan that prints non-blank bytes of the second padding region, and all
  other `print` calls, are left out. The overflow message of src/bank.py is
  the predicate `BankCodec.Overflows`. A checksum mismatch is the predicate
  `ImageDecode.ChecksumMatches` being false.
- `csv()` and `__str__` (src/channel.py:103-141) are presentation. Only the
  bank cells and the state cell they write are modelled.
- Python floats are not modelled. Frequencies are integer thousandths of a
  MHz and tones are integer tenths of a hertz.
- The CSV parse of src/channel.py is modelled only for the state cell and the
  bank columns. Index, name, frequency, offset, mode and the tone fields are
  left out: float parsing, and paths that depend on object identity (`is`) or
  on members that do not exist (`OffsetPol.NONE`, `ToneMode["NONE"]`). The
  state cell is modelled with the equality the code evidently intends.
- The CSV bank parse of src/main.py and src/parse.py takes every cell from
  column 12 onward, so a row with fewer than 24 bank columns gives a shorter
  list. `BankFlags` stops at the 24 banks and fills the missing columns of a
  short row with false.
- ChannelCodec.Upper: upper-cases only the ASCII letters and keeps the length.
  Python's `str.upper` maps every cased letter and can lengthen a string
  ("ß" becomes "SS"). No other character upper-cases into a letter of "TRUE",
  so `IsTrueCell` gives the same answer as `x.strip().upper() == "TRUE"`.
- ChannelCodec.NameOf: reads all 16 name bytes. A `c_char * 16` field read by
  `ctypes` stops at the first NUL, which the model does not capture.
- The digital-ID table, the padding regions and the two unknown record bytes
  are not interpreted. The record keeps its unknown bytes as raw bytes.
- ChannelCodec.Channel: attributes are grouped into three records.
  - `slotFlags` holds empty, enabled and skip.
  - `settings` holds power, mode, bell, attenuator, clock shift, bandwidth and
    S-meter.
  - `fields` holds step, tone, DCS, DCS polarity, tone mode and offset
    polarity.
- ChannelCodec.Channel.ParseDat: when decoding fails, the source raises and
  drops the half-filled object. The model returns the error and does not state
  what the object then holds.
- ChannelCodec.Channel: the constructor called with no data (it only prints)
  is not modelled; the model's constructor gives an object before parsing.
- BankCodec.DecodeBank: the `struct=None` branch of src/bank.py is modelled.
  The copies in src/main.py and src/parse.py have no such branch and no
  overflow message; `ImageDecode.DecodeBanks` always passes a table.
- ImageDecode.DecodeImage: the image pipeline decodes channels with the value
  function `DecodeDat`, not by creating `Channel` objects. `Channel.ParseDat`
  is proved to produce exactly that value.
- ImageDecode.ComputedChecksum: sums bytes 0..42999, as the code does. Every
  byte before the checksum field would be bytes 0..43799; the difference is
  stated by `ChecksumSeesByte`.
- ImageDecode.Collect: a slot that fails to decode ends the channel list with
  that slot's error. The remaining slots are not decoded or collected, as in
  the code.
- Variant names: src/parse.py names some variants differently (power
  `Low1`..`Low3`, tone mode `NONE`, `TN`, ..., polarity `RxN_TxN`, ...). The
  model keeps one set of names; the codes, which are what the decoder reads,
  are the ones of each file.
- The encoder and the CSV-to-image direction do not exist in these files. The
  inverse writers (`FlagByte`, `FreqBytes`, `NameBytes`, `SlotBytes`,
  `ChecksumBytes`, `IndexOf`) serve only to state round trips.

## Findings

| source | as written | input that shows it | evidently intended | confidence | as-written member | corrected member |
|---|---|---|---|---|---|---|
| src/channel.py:76 | `_parse_csv` stores in `banks` the numbers of the banks whose column reads TRUE | a row whose bank columns 0 and 2 read TRUE and column 1 does not gives `[0, 2]`; `csv()` (line 117) then writes one cell per element: FALSE for 0, TRUE for 2, so bank 1 only | one flag per bank, the form `_parse_dat` builds (lines 33-37), `csv()` writes, and the CSV parsers of src/main.py:69 and src/parse.py:206 produce | not executed | ChannelCodec.BankColumnsAreNotFlags | ChannelCodec.BankFlagsRoundTrip |
