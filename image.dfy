/** The whole-image decode of `__main__` (src/main.py, and the same pipeline in
    src/parse.py with the older enumeration set): the byte-sum checksum, the
    banks decoded table by table, the channels decoded slot by slot against
    those banks, the filter that picks the channels to list, and the line
    filter of the CSV path. */
module ImageDecode {
  import opened Wrappers
  import opened Enums
  import opened Structs
  import opened BankCodec
  import opened ChannelCodec

  /* ----- the checksum ----- */

  /** The computed checksum covers the first 43000 bytes of the file. */
  const ChecksumSpan := 43000

  /** The sum of the bytes; each byte adds at most 255. */
  function Sum(s: seq<byte>): (r: nat)
    ensures r <= 255 * |s|
  {
    if s == [] then 0 else Sum(s[..|s| - 1]) + s[|s| - 1]
  }

  /** Summing is additive over concatenation. */
  lemma {:induction false} SumConcat(a: seq<byte>, b: seq<byte>)
    ensures Sum(a + b) == Sum(a) + Sum(b)
    decreases |b|
  {
    if b == [] {
      assert a + b == a;
    } else {
      var n := |b| - 1;
      assert (a + b)[..|a + b| - 1] == a + b[..n];
      SumConcat(a, b[..n]);
    }
  }

  /** The checksum the decoder computes.  Its largest value, 43000 * 255, is
      far below 2^32, so the sum never wraps in the 32-bit field. */
  function ComputedChecksum(img: seq<byte>): (c: nat)
    requires |img| == ImageSize
    ensures c <= 10_965_000 < 0x1_0000_0000
  {
    Layout();
    Sum(img[..ChecksumSpan])
  }

  /** Changing one byte before offset 43000 moves the computed checksum by
      exactly the change in that byte, so every single-byte change there is
      detected; a byte from 43000 on (the tail of the digital-ID table, the
      padding and the checksum field) is not covered at all. */
  lemma ChecksumSeesByte(img: seq<byte>, i: int, v: byte)
    requires |img| == ImageSize && 0 <= i < |img|
    ensures i < ChecksumSpan ==> ComputedChecksum(img[i := v]) == ComputedChecksum(img) - img[i] + v
    ensures i >= ChecksumSpan ==> ComputedChecksum(img[i := v]) == ComputedChecksum(img)
  {
    Layout();
    var img' := img[i := v];
    if i < ChecksumSpan {
      assert img[..ChecksumSpan] == img[..i] + [img[i]] + img[i + 1..ChecksumSpan];
      assert img'[..ChecksumSpan] == img[..i] + [v] + img[i + 1..ChecksumSpan];
      SumConcat(img[..i] + [img[i]], img[i + 1..ChecksumSpan]);
      SumConcat(img[..i], [img[i]]);
      SumConcat(img[..i] + [v], img[i + 1..ChecksumSpan]);
      SumConcat(img[..i], [v]);
      assert Sum([img[i]]) == img[i] && Sum([v]) == v by {
        assert [img[i]][..0] == [] && [v][..0] == [];
      }
    } else {
      assert img'[..ChecksumSpan] == img[..ChecksumSpan];
    }
  }

  /** The stored checksum agrees with the computed one, which happens exactly
      when the field holds the four big-endian bytes of the computed sum. */
  function ChecksumMatches(img: seq<byte>): (m: bool)
    requires |img| == ImageSize
    ensures m <==> img[ChecksumAt..] == ChecksumBytes(ComputedChecksum(img))
  {
    Layout();
    ChecksumBytesOf(img[ChecksumAt], img[ChecksumAt + 1], img[ChecksumAt + 2], img[ChecksumAt + 3]);
    assert img[ChecksumAt..] == [img[ChecksumAt], img[ChecksumAt + 1], img[ChecksumAt + 2], img[ChecksumAt + 3]];
    StoredChecksumOf(img) == ComputedChecksum(img)
  }

  /** A division by 256 is fixed by any decomposition with a byte remainder. */
  lemma Div256(x: int, q: int, r: int)
    requires x == 256 * q + r && 0 <= r < 256
    ensures x / 256 == q && x % 256 == r
  {
  }

  /** Reading four big-endian bytes and writing the value back gives the bytes. */
  lemma ChecksumBytesOf(b0: byte, b1: byte, b2: byte, b3: byte)
    ensures ((b0 as int * 256 + b1) * 256 + b2) * 256 + b3 < 0x1_0000_0000
    ensures ChecksumBytes(((b0 as int * 256 + b1) * 256 + b2) * 256 + b3) == [b0, b1, b2, b3]
  {
    var q2 := b0 as int * 256 + b1;
    var q1 := q2 * 256 + b2;
    var c := q1 * 256 + b3;
    assert q2 < 0x1_0000;
    assert q1 < 0x100_0000;
    Div256(c, q1, b3);
    Div256(q1, q2, b2);
    Div256(q2, b0, b1);
    Div256(b0, 0, b0);
  }

  /** A 32-bit value as the four big-endian bytes of the checksum field. */
  function ChecksumBytes(c: nat): (b: seq<byte>)
    requires c < 0x1_0000_0000
    ensures |b| == 4
    ensures ((b[0] as int * 256 + b[1]) * 256 + b[2]) * 256 + b[3] == c
  {
    var q1 := c / 256;
    var q2 := q1 / 256;
    var q3 := q2 / 256;
    [q3, q2 % 256, q1 % 256, c % 256]
  }

  /** The image with its checksum field replaced. */
  function WithChecksum(img: seq<byte>, b: seq<byte>): (img': seq<byte>)
    requires |img| == ImageSize && |b| == 4
    ensures |img'| == ImageSize
  {
    Layout();
    img[..ChecksumAt] + b
  }

  /** Writing the computed checksum into the checksum field gives an image
      that validates: the field lies outside the summed span. */
  lemma SealedImageValidates(img: seq<byte>)
    requires |img| == ImageSize
    ensures ChecksumMatches(WithChecksum(img, ChecksumBytes(ComputedChecksum(img))))
  {
    Layout();
    var c := ComputedChecksum(img);
    var sealed := WithChecksum(img, ChecksumBytes(c));
    assert sealed[..ChecksumSpan] == img[..ChecksumSpan];
    assert sealed[ChecksumAt..] == ChecksumBytes(c);
  }

  /* ----- banks and channels ----- */

  /** The banks, table k decoded as bank k. */
  function DecodeBanks(tables: seq<seq<u16>>): (banks: seq<Bank>)
    ensures |banks| == |tables|
    ensures forall k :: 0 <= k < |tables| ==>
      && banks[k].index == k && Sorted(banks[k].channels) && Sentinel !in banks[k].channels
      && multiset(banks[k].channels) == multiset(tables[k])[Sentinel := 0]
  {
    seq(|tables|, k requires 0 <= k < |tables| => DecodeBank(k, Some(tables[k])))
  }

  /** Slot i decoded as the channel comprehension decodes it: record i, flag
      i, the 0-based index i and all the banks. */
  function SlotResults(gen: Generation, records: seq<ChannelRecord>, flags: seq<byte>, banks: seq<Bank>)
    : (rs: seq<Result<ChannelValue, DecodeError>>)
    requires |records| <= |flags|
    requires forall i :: 0 <= i < |records| ==> WellFormed(records[i])
    ensures |rs| == |records|
  {
    seq(|records|, i requires 0 <= i < |records| => DecodeDat(gen, i, records[i], flags[i], Some(banks)))
  }

  /** Element i is the first failure, with error e. */
  predicate FirstFailure<T, E(==)>(rs: seq<Result<T, E>>, i: int, e: E)
    requires 0 <= i < |rs|
  {
    rs[i].Failure? && rs[i].error == e && forall j :: 0 <= j < i ==> rs[j].Success?
  }

  /** A list comprehension whose elements may raise: evaluated in order, it
      stops at the first element that fails, and that failure is the result;
      otherwise element i of the list is the value of element i. */
  function Collect<T, E(==)>(rs: seq<Result<T, E>>): (r: Result<seq<T>, E>)
    ensures r.Success? <==> forall i :: 0 <= i < |rs| ==> rs[i].Success?
    ensures r.Success? ==> |r.value| == |rs| && forall i :: 0 <= i < |rs| ==> r.value[i] == rs[i].value
    ensures r.Failure? ==> exists i :: 0 <= i < |rs| && FirstFailure(rs, i, r.error)
    decreases |rs|
  {
    if rs == [] then Success([])
    else
      var n := |rs| - 1;
      match Collect(rs[..n])
      case Failure(e) =>
        assert forall i :: 0 <= i < n && FirstFailure(rs[..n], i, e) ==> FirstFailure(rs, i, e);
        Failure(e)
      case Success(front) =>
        match rs[n]
        case Failure(e) =>
          assert FirstFailure(rs, n, e);
          Failure(e)
        case Success(c) => Success(front + [c])
  }

  /** What `__main__` holds after reading a `.dat` image: the stored and the
      computed checksum (a mismatch is only reported), the banks, and the
      channels or the error that stopped them. */
  datatype DecodedImage = DecodedImage(
    stored: nat,
    computed: nat,
    banks: seq<Bank>,
    channels: Result<seq<ChannelValue>, DecodeError>)

  /** The banks of the image, table k decoded as bank k. */
  function ImageBanks(img: seq<byte>): seq<Bank>
    requires |img| == ImageSize
  {
    DecodeBanks(BankTablesOf(img))
  }

  /** The whole decode of `__main__`: the checksums, the 24 banks, and the
      1100 channels, which decode exactly when every slot does. */
  function DecodeImage(gen: Generation, img: seq<byte>): (d: DecodedImage)
    requires |img| == ImageSize
    ensures d.stored == d.computed <==> ChecksumMatches(img)
    ensures |d.banks| == BankCount
    ensures d.channels.Success? ==> |d.channels.value| == ChannelCount
  {
    DecodedImage(StoredChecksumOf(img), ComputedChecksum(img), ImageBanks(img),
                 Collect(SlotResults(gen, RecordsOf(img), ChannelFlagsOf(img), ImageBanks(img))))
  }

  /** Decoding a list of slots succeeds exactly when every slot decodes. */
  lemma SlotsSucceed(gen: Generation, records: seq<ChannelRecord>, flags: seq<byte>, banks: seq<Bank>)
    requires |records| <= |flags|
    requires forall i :: 0 <= i < |records| ==> WellFormed(records[i])
    ensures Collect(SlotResults(gen, records, flags, banks)).Success? <==>
      forall i :: 0 <= i < |records| ==> DecodeDat(gen, i, records[i], flags[i], Some(banks)).Success?
  {
    var rs := SlotResults(gen, records, flags, banks);
    assert forall i :: 0 <= i < |records| ==> rs[i] == DecodeDat(gen, i, records[i], flags[i], Some(banks));
  }

  /** When decoding a list of slots fails, the error is that of the first slot
      that fails. */
  lemma SlotsFail(gen: Generation, records: seq<ChannelRecord>, flags: seq<byte>, banks: seq<Bank>)
    requires |records| <= |flags|
    requires forall i :: 0 <= i < |records| ==> WellFormed(records[i])
    requires Collect(SlotResults(gen, records, flags, banks)).Failure?
    ensures exists i :: (
      && 0 <= i < |records|
      && DecodeDat(gen, i, records[i], flags[i], Some(banks))
         == Failure(Collect(SlotResults(gen, records, flags, banks)).error)
      && forall j :: 0 <= j < i ==> DecodeDat(gen, j, records[j], flags[j], Some(banks)).Success?)
  {
    var rs := SlotResults(gen, records, flags, banks);
    var e := Collect(rs).error;
    var i :| 0 <= i < |rs| && FirstFailure(rs, i, e);
    assert rs[i] == DecodeDat(gen, i, records[i], flags[i], Some(banks));
    assert forall j :: 0 <= j < i ==> rs[j] == DecodeDat(gen, j, records[j], flags[j], Some(banks));
  }

  /** In a decoded list of slots, entry i is the decode of slot i. */
  lemma SlotValue(gen: Generation, records: seq<ChannelRecord>, flags: seq<byte>, banks: seq<Bank>, i: int)
    requires |records| <= |flags|
    requires forall i :: 0 <= i < |records| ==> WellFormed(records[i])
    requires Collect(SlotResults(gen, records, flags, banks)).Success? && 0 <= i < |records|
    ensures Success(Collect(SlotResults(gen, records, flags, banks)).value[i])
         == DecodeDat(gen, i, records[i], flags[i], Some(banks))
  {
    var rs := SlotResults(gen, records, flags, banks);
    assert rs[i] == DecodeDat(gen, i, records[i], flags[i], Some(banks));
  }

  /** The channel list of an image decodes exactly when every slot decodes. */
  lemma ImageChannelsSucceed(gen: Generation, img: seq<byte>)
    requires |img| == ImageSize
    ensures DecodeImage(gen, img).channels.Success? <==> forall i :: 0 <= i < ChannelCount ==>
      DecodeDat(gen, i, RecordsOf(img)[i], ChannelFlagsOf(img)[i], Some(ImageBanks(img))).Success?
  {
    SlotsSucceed(gen, RecordsOf(img), ChannelFlagsOf(img), ImageBanks(img));
  }

  /** When the channel list fails, its error is that of the first slot that
      fails to decode. */
  lemma ImageChannelsFail(gen: Generation, img: seq<byte>)
    requires |img| == ImageSize
    requires DecodeImage(gen, img).channels.Failure?
    ensures exists i :: (
      && 0 <= i < ChannelCount
      && DecodeDat(gen, i, RecordsOf(img)[i], ChannelFlagsOf(img)[i], Some(ImageBanks(img)))
         == Failure(DecodeImage(gen, img).channels.error)
      && forall j :: 0 <= j < i ==>
           DecodeDat(gen, j, RecordsOf(img)[j], ChannelFlagsOf(img)[j], Some(ImageBanks(img))).Success?)
  {
    SlotsFail(gen, RecordsOf(img), ChannelFlagsOf(img), ImageBanks(img));
  }

  /** Bank k of the image is decoded from the 100 big-endian slots at bytes
      200k .. 200k+199 and keeps index k; it never overflows. */
  lemma BankFromTable(img: seq<byte>, k: int)
    requires |img| == ImageSize && 0 <= k < BankCount
    ensures var b := ImageBanks(img)[k];
      && b.index == k && Sorted(b.channels) && |b.channels| <= MaxChannels
      && multiset(b.channels) == multiset(BankTablesOf(img)[k])[Sentinel := 0]
  {
    var table := BankTablesOf(img)[k];
    DecodedLength(k, table);
  }

  /** Channel i of a decoded image is the decode of slot i. */
  lemma SlotOfImage(gen: Generation, img: seq<byte>, i: int)
    requires |img| == ImageSize && 0 <= i < ChannelCount
    requires DecodeImage(gen, img).channels.Success?
    ensures Success(DecodeImage(gen, img).channels.value[i])
         == DecodeDat(gen, i, RecordsOf(img)[i], ChannelFlagsOf(img)[i], Some(ImageBanks(img)))
  {
    SlotValue(gen, RecordsOf(img), ChannelFlagsOf(img), ImageBanks(img), i);
  }

  /** Channel i of a decoded image comes from the record at 6144+32i and the
      flag at 4800+i, has index i+1, so the indices run 1..1100, and carries
      one membership entry per bank. */
  lemma ChannelFromSlot(gen: Generation, img: seq<byte>, i: int)
    requires |img| == ImageSize && 0 <= i < ChannelCount
    requires DecodeImage(gen, img).channels.Success?
    ensures var c := DecodeImage(gen, img).channels.value[i];
      && c.index == i + 1 && 1 <= c.index <= ChannelCount
      && WellFormed(c.raw) && RecordBytes(c.raw) == img[6144 + 32 * i .. 6144 + 32 * i + 32]
      && c.flags == FlagsOf(img[4800 + i])
      && c.banks == Membership(i, ImageBanks(img))
  {
    SlotOfImage(gen, img, i);
    var records, flags := RecordsOf(img), ChannelFlagsOf(img);
    DecodedSlot(gen, i, records[i], flags[i], Some(ImageBanks(img)));
  }

  /** The cross-reference: channel i is marked as a member of bank k exactly
      when its 0-based index i is one of the slots of table k. */
  lemma MembershipMatchesTables(gen: Generation, img: seq<byte>, i: int, k: int)
    requires |img| == ImageSize && 0 <= i < ChannelCount && 0 <= k < BankCount
    requires DecodeImage(gen, img).channels.Success?
    ensures var c := DecodeImage(gen, img).channels.value[i];
      |c.banks| == BankCount && (c.banks[k] <==> i in BankTablesOf(img)[k])
  {
    ChannelFromSlot(gen, img, i);
    MemberIffInTable(k, BankTablesOf(img)[k], i);
  }

  /** A checksum mismatch is only reported: whatever the checksum field holds,
      the computed checksum, the banks and the channels are the same. */
  lemma ChecksumDoesNotGateDecode(gen: Generation, img: seq<byte>, b: seq<byte>)
    requires |img| == ImageSize && |b| == 4
    ensures DecodeImage(gen, WithChecksum(img, b)).computed == DecodeImage(gen, img).computed
    ensures DecodeImage(gen, WithChecksum(img, b)).banks == DecodeImage(gen, img).banks
    ensures DecodeImage(gen, WithChecksum(img, b)).channels == DecodeImage(gen, img).channels
  {
    Layout();
    var img' := WithChecksum(img, b);
    assert img'[..ChecksumAt] == img[..ChecksumAt];
    assert img'[..ChecksumSpan] == img[..ChecksumSpan];
    assert forall j :: 0 <= j < ChecksumAt ==> img'[j] == img[j];
    assert BankTablesOf(img') == BankTablesOf(img) by {
      forall k | 0 <= k < BankCount
        ensures BankTablesOf(img')[k] == BankTablesOf(img)[k]
      {
        assert img'[200 * k .. 200 * k + 200] == img[200 * k .. 200 * k + 200];
      }
    }
    assert ChannelFlagsOf(img') == ChannelFlagsOf(img);
    assert RecordsOf(img') == RecordsOf(img) by {
      forall i | 0 <= i < ChannelCount
        ensures RecordsOf(img')[i] == RecordsOf(img)[i]
      {
        assert img'[6144 + 32 * i .. 6144 + 32 * i + 32] == img[6144 + 32 * i .. 6144 + 32 * i + 32];
        RecordRoundTrip(RecordsOf(img')[i]);
        RecordRoundTrip(RecordsOf(img)[i]);
      }
    }
  }

  /* ----- what is listed ----- */

  /** The channels the listing prints: written and enabled ones, in order. */
  function Emitted(channels: seq<ChannelValue>): (out: seq<ChannelValue>)
    ensures |out| <= |channels|
    ensures forall c :: c in out <==> c in channels && !c.flags.empty && c.flags.enabled
  {
    if channels == [] then []
    else
      var n := |channels| - 1;
      var c := channels[n];
      assert channels == channels[..n] + [c];
      Emitted(channels[..n]) + (if !c.flags.empty && c.flags.enabled then [c] else [])
  }

  /* ----- the CSV input path ----- */

  /** `text.split(sep)`: the pieces between separators, including the empty
      ones at either end, so there is always at least one. */
  function Split(s: string, sep: char): (parts: seq<string>)
    ensures |parts| >= 1
    ensures forall p :: p in parts ==> sep !in p
    decreases |s|
  {
    if s == [] then [[]]
    else
      var rest := Split(s[1..], sep);
      if s[0] == sep then [[]] + rest
      else [[s[0]] + rest[0]] + rest[1..]
  }

  /** The pieces put back together with the separator between them. */
  function Join(parts: seq<string>, sep: char): string
    requires |parts| >= 1
    decreases |parts|
  {
    if |parts| == 1 then parts[0] else parts[0] + [sep] + Join(parts[1..], sep)
  }

  /** Splitting loses nothing: joining the pieces gives the text back. */
  lemma {:induction false} JoinSplit(s: string, sep: char)
    ensures Join(Split(s, sep), sep) == s
    decreases |s|
  {
    if s != [] {
      var rest := Split(s[1..], sep);
      JoinSplit(s[1..], sep);
      if s[0] == sep {
        assert ([[]] + rest)[1..] == rest;
      } else {
        var parts := [[s[0]] + rest[0]] + rest[1..];
        if |rest| > 1 {
          assert parts[1..] == rest[1..];
          assert Join(rest, sep) == rest[0] + [sep] + Join(rest[1..], sep);
        }
      }
    }
  }

  /** The lines of a CSV file that become channels: those with a comma. */
  function CsvRows(text: string): (rows: seq<string>)
    ensures forall l :: l in rows <==> l in Split(text, '\n') && ',' in l
    ensures forall l :: multiset(rows)[l] == if ',' in l then multiset(Split(text, '\n'))[l] else 0
  {
    CommaLines(Split(text, '\n'))
  }

  function CommaLines(lines: seq<string>): (rows: seq<string>)
    ensures |rows| <= |lines|
    ensures forall l :: l in rows <==> l in lines && ',' in l
    ensures forall l {:trigger multiset(rows)[l]} :: multiset(rows)[l] == if ',' in l then multiset(lines)[l] else 0
  {
    if lines == [] then []
    else
      var n := |lines| - 1;
      assert lines == lines[..n] + [lines[n]];
      CommaLines(lines[..n]) + (if ',' in lines[n] then [lines[n]] else [])
  }

  lemma AppendAssoc<T>(x: seq<T>, y: seq<T>, z: seq<T>)
    ensures (x + y) + z == x + (y + z)
  {
  }

  /** The kept lines keep their order: filtering a concatenation filters each
      part. */
  lemma {:induction false} CommaLinesConcat(a: seq<string>, b: seq<string>)
    ensures CommaLines(a + b) == CommaLines(a) + CommaLines(b)
    decreases |b|
  {
    if b == [] {
      assert a + b == a;
    } else {
      var n := |b| - 1;
      var last := if ',' in b[n] then [b[n]] else [];
      assert CommaLines(a + b) == CommaLines(a + b[..n]) + last by {
        var ab := a + b;
        assert ab[..|ab| - 1] == a + b[..n] && ab[|ab| - 1] == b[n];
      }
      assert CommaLines(b) == CommaLines(b[..n]) + last;
      CommaLinesConcat(a, b[..n]);
      AppendAssoc(CommaLines(a), CommaLines(b[..n]), last);
    }
  }
}
