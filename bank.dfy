/** Bank decoding (src/bank.py): a bank is one of 24 groups; its table holds 100
    channel slots, 0xFFFF marking a free slot.  The decoder keeps the other
    slots, sorted ascending, as 0-based channel indices. */
module BankCodec {
  import opened Wrappers
  import opened Structs

  const Sentinel := 0xFFFF
  const MaxChannels := 100

  datatype Bank = Bank(index: int, channels: seq<int>)

  predicate Sorted(s: seq<int>) {
    forall i, j :: 0 <= i < j < |s| ==> s[i] <= s[j]
  }

  /** Inserts x into a sorted sequence. */
  function Insert(x: int, s: seq<int>): (r: seq<int>)
    requires Sorted(s)
    ensures Sorted(r)
    ensures multiset(r) == multiset(s) + multiset{x}
    ensures |r| == |s| + 1 && (r[0] == x || (s != [] && r[0] == s[0]))
    decreases |s|
  {
    if s == [] || x <= s[0] then [x] + s
    else
      assert s == [s[0]] + s[1..];
      [s[0]] + Insert(x, s[1..])
  }

  /** Python's `sorted` on integers: an ascending permutation of the input. */
  function Sort(s: seq<int>): (r: seq<int>)
    ensures Sorted(r)
    ensures multiset(r) == multiset(s)
  {
    if s == [] then []
    else
      assert s == [s[0]] + s[1..];
      Insert(s[0], Sort(s[1..]))
  }

  /** The slots that are not the free-slot sentinel, in table order. */
  function Occupied(slots: seq<int>): (r: seq<int>)
    ensures multiset(r) == multiset(slots)[Sentinel := 0]
  {
    if slots == [] then []
    else
      assert slots == [slots[0]] + slots[1..];
      (if slots[0] != Sentinel then [slots[0]] else []) + Occupied(slots[1..])
  }

  /** Bank construction.  With a table, the channels are exactly the
      non-sentinel slots, each as often as it occurs, in ascending order; with
      none, the list is empty.  The index is kept as given. */
  function DecodeBank(index: int, table: Option<seq<u16>>): (b: Bank)
    ensures b.index == index
    ensures table.None? ==> b.channels == []
    ensures table.Some? ==> Sorted(b.channels)
    ensures table.Some? ==> multiset(b.channels) == multiset(table.value)[Sentinel := 0]
    ensures Sentinel !in b.channels
  {
    var channels := if table.Some? then Sort(Occupied(table.value)) else [];
    assert Sentinel in channels ==> Sentinel in multiset(channels);
    Bank(index, channels)
  }

  /** The condition under which the constructor prints its "too many channels"
      error; construction succeeds either way. */
  function Overflows(b: Bank): (o: bool)
    ensures o ==> |b.channels| >= MaxChannels + 1
    ensures !o ==> |b.channels| <= BankSlotCount
  {
    |b.channels| > MaxChannels
  }

  /** The decoded list is as long as the number of occupied slots, so a
      100-slot table never overflows. */
  lemma DecodedLength(index: int, slots: seq<u16>)
    ensures |DecodeBank(index, Some(slots)).channels| == |slots| - multiset(slots)[Sentinel]
    ensures |slots| == BankSlotCount ==> !Overflows(DecodeBank(index, Some(slots)))
  {
    var m := multiset(slots);
    assert |m| == |m[Sentinel := 0]| + m[Sentinel] by {
      assert m == m[Sentinel := 0] + multiset{}[Sentinel := m[Sentinel]];
    }
  }

  /** A value other than the sentinel is a member of the decoded bank exactly
      when some slot of the table holds it. */
  lemma MemberIffInTable(index: int, slots: seq<u16>, x: int)
    requires x != Sentinel
    ensures x in DecodeBank(index, Some(slots)).channels <==> x in slots
  {
    var channels := DecodeBank(index, Some(slots)).channels;
    assert x in channels <==> x in multiset(channels);
    assert x in slots <==> x in multiset(slots);
  }

  lemma MinOf(a: seq<int>, x: int)
    requires Sorted(a) && x in a
    ensures a[0] <= x
  {
  }

  /** Two sorted sequences with the same elements are equal: the decoded list
      is the one sorted arrangement of the occupied slots. */
  lemma {:induction false} SortedUnique(a: seq<int>, b: seq<int>)
    requires Sorted(a) && Sorted(b)
    requires multiset(a) == multiset(b)
    ensures a == b
    decreases |a|
  {
    assert |a| == |b| by {
      assert |multiset(a)| == |a| && |multiset(b)| == |b|;
    }
    if a != [] {
      assert a[0] in multiset(b) && b[0] in multiset(a);
      MinOf(a, b[0]);
      MinOf(b, a[0]);
      assert a == [a[0]] + a[1..] && b == [b[0]] + b[1..];
      assert a[0] == b[0];
      assert multiset(a[1..]) == multiset(a) - multiset{a[0]};
      assert multiset(b[1..]) == multiset(b) - multiset{b[0]};
      SortedUnique(a[1..], b[1..]);
    }
  }
}
