/** Arrays of strings in fixed slots of 40 bytes. */
module StringArrays {
  import opened Protocol
  import opened ByteStrings

  const MAX_STRING_SIZE: nat := 40

  // ----- what a string keeps

  /** Position of the first NUL, if there is one. */
  function IndexOfNul(b: Bytes): (r: Option<nat>)
    ensures r.None? ==> 0 !in b
    ensures r.Some? ==> r.value < |b| && b[r.value] == 0 && 0 !in b[..r.value]
    decreases |b|
  {
    if b == [] then None
    else if b[0] == 0 then Some(0)
    else
      match IndexOfNul(b[1..])
      case None => None
      case Some(i) =>
        assert b[..i + 1] == [b[0]] + b[1..][..i];
        Some(i + 1)
  }

  /** `safely_find_eos`: the search runs over the whole rest of the buffer. */
  function EndOfString(b: Bytes): nat {
    match IndexOfNul(b)
    case Some(i) => if i < MAX_STRING_SIZE then i else MAX_STRING_SIZE
    case None => if |b| < MAX_STRING_SIZE then |b| else MAX_STRING_SIZE
  }

  /** The reference: `r` is the longest prefix of `s` of at most 40 bytes without NUL. */
  predicate IsKept(s: Bytes, r: Bytes) {
    && r <= s && |r| <= 40 && 0 !in r
    && (|r| < |s| && |r| < 40 ==> s[|r|] == 0)
  }

  lemma KeptIsUnique(s: Bytes, a: Bytes, b: Bytes)
    requires IsKept(s, a) && IsKept(s, b)
    ensures a == b
  {
    NoLongerThanKept(s, a, b);
    NoLongerThanKept(s, b, a);
  }

  lemma NoLongerThanKept(s: Bytes, kept: Bytes, other: Bytes)
    requires IsKept(s, kept) && other <= s && |other| <= 40
    requires forall i | 0 <= i < |other| :: other[i] != 0
    ensures |other| <= |kept|
  {
    assert forall i | 0 <= i < |other| :: other[i] == s[i];
  }

  function Kept(s: Bytes): (r: Bytes)
    ensures IsKept(s, r)
  {
    s[..EndOfString(s)]
  }

  lemma KeptUnchanged(s: Bytes)
    ensures Kept(s) == s <==> |s| <= MAX_STRING_SIZE && 0 !in s
  {
    if |s| <= MAX_STRING_SIZE && 0 !in s {
      KeptIsUnique(s, Kept(s), s);
    }
  }

  // ----- encoding and decoding

  /** item[:40].ljust(40) */
  function Slot(item: Bytes): (r: Bytes)
    ensures |r| == MAX_STRING_SIZE
  {
    var cut := Clip(item, 0, MAX_STRING_SIZE);
    cut + Zeros(MAX_STRING_SIZE - |cut|)
  }

  function ToBytes(items: seq<Bytes>): Bytes
    decreases |items|
  {
    if items == [] then [] else Slot(items[0]) + ToBytes(items[1..])
  }

  function Drop(b: Bytes, n: nat): Bytes {
    if n <= |b| then b[n..] else []
  }

  /** The strings of `count` slots; a buffer that is too short yields empty strings. */
  function Strings(buf: Bytes, count: nat): seq<Bytes>
    decreases count
  {
    if count == 0 then [] else [Kept(buf)] + Strings(Drop(buf, MAX_STRING_SIZE), count - 1)
  }

  function DefaultCount(buf: Bytes): nat {
    if |buf| / MAX_STRING_SIZE > 1 then |buf| / MAX_STRING_SIZE else 1
  }

  method FromBuffer(buf: Bytes, dataCount: Option<nat>) returns (strings: seq<Bytes>)
    ensures strings == Strings(buf, if dataCount.Some? then dataCount.value else DefaultCount(buf))
  {
    var count := if dataCount.Some? then dataCount.value else DefaultCount(buf);
    var left := buf;
    strings := [];
    for i := 0 to count
      invariant strings + Strings(left, count - i) == Strings(buf, count)
    {
      var item := left[..EndOfString(left)];
      assert strings + ([item] + Strings(Drop(left, MAX_STRING_SIZE), count - i - 1))
             == strings + [item] + Strings(Drop(left, MAX_STRING_SIZE), count - i - 1);
      strings := strings + [item];
      left := Drop(left, MAX_STRING_SIZE);
    }
    assert strings + [] == strings;
  }

  // ----- round trips

  /** The search for the end of a string that fills its slot runs into the next slot, but
      does no harm there. */
  lemma SlotKept(item: Bytes, rest: Bytes)
    ensures Kept(Slot(item) + rest) == Kept(item)
  {
    var kept := Kept(item);
    var b := Slot(item) + rest;
    assert IsKept(b, kept) by {
      assert |kept| <= |Clip(item, 0, MAX_STRING_SIZE)|;
      assert forall i | 0 <= i < |kept| :: b[i] == item[i];
      assert kept <= b;
    }
    KeptIsUnique(b, Kept(b), kept);
  }

  function AllKept(items: seq<Bytes>): seq<Bytes> {
    seq(|items|, i requires 0 <= i < |items| => Kept(items[i]))
  }

  /** Each string comes back cut at 40 bytes and at its first NUL. */
  lemma {:induction false} StringsRoundTrip(items: seq<Bytes>)
    ensures Strings(ToBytes(items), |items|) == AllKept(items)
    ensures |ToBytes(items)| == MAX_STRING_SIZE * |items|
    decreases |items|
  {
    if items != [] {
      hide Kept, Slot;
      var rest := ToBytes(items[1..]);
      SlotKept(items[0], rest);
      StringsRoundTrip(items[1..]);
      assert Drop(Slot(items[0]) + rest, MAX_STRING_SIZE) == rest;
      assert AllKept(items) == [Kept(items[0])] + AllKept(items[1..]);
    }
  }

  /** It is the identity exactly on strings of at most 40 bytes without NUL; and the count
      may be left out exactly when there is at least one string. */
  lemma WhenIdentity(items: seq<Bytes>)
    ensures Strings(ToBytes(items), |items|) == items
            <==> forall i | 0 <= i < |items| :: |items[i]| <= MAX_STRING_SIZE && 0 !in items[i]
    ensures DefaultCount(ToBytes(items)) == |items| <==> items != []
  {
    StringsRoundTrip(items);
    forall i | 0 <= i < |items|
      ensures AllKept(items)[i] == items[i] <==> |items[i]| <= MAX_STRING_SIZE && 0 !in items[i]
    {
      KeptUnchanged(items[i]);
    }
    hide Kept, ToBytes, Strings;
  }
}
