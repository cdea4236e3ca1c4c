/** The payload structures of the data types: elements as they are encoded, metadata as the
    sequences of fields that the protocol documents. */
module DataTypes {
  import opened Protocol
  import opened ByteStrings
  import opened Headers
  import opened Messages
  import opened RoundTrips

  // ----- elements

  /** One element of each native type. Floating-point numbers are their IEEE 754 bit
      patterns, single or double. */
  datatype Element =
    | AString(text: Bytes)
    | AnInt(value: Word16)
    | AFloat(bits: Word32)
    | AnEnum(state: Word16)
    | AChar(code: Byte)
    | ALong(number: Word32)
    | ADouble(high: Word32, low: Word32)
  {
    predicate Fits() {
      AString? ==> |text| <= 40
    }

    /** ChannelType */
    function NativeType(): (t: nat)
      ensures t < 7
    {
      match this
      case AString(_) => 0
      case AnInt(_) => 1
      case AFloat(_) => 2
      case AnEnum(_) => 3
      case AChar(_) => 4
      case ALong(_) => 5
      case ADouble(_, _) => 6
    }

    function Encoded(): Bytes
      requires Fits()
    {
      match this
      case AString(text) => text + Zeros(40 - |text|)
      case AnInt(value) => Put16(value)
      case AFloat(bits) => Put32(bits)
      case AnEnum(state) => Put16(state)
      case AChar(code) => [code]
      case ALong(number) => Put32(number)
      case ADouble(high, low) => Put32(high) + Put32(low)
    }
  }

  /** The element size of a data type is that of its native type, with or without metadata. */
  lemma ElementSize(e: Element, dataType: Word16)
    requires e.Fits() && dataType < 35 && dataType % 7 == e.NativeType()
    ensures LayoutOf(dataType).Some? && LayoutOf(dataType).value.element == |e.Encoded()|
  {
    hide MetadataSizes;
  }

  predicate AllOf(es: seq<Element>, nativeType: nat) {
    forall e <- es :: e.Fits() && e.NativeType() == nativeType
  }

  function EncodedAll(es: seq<Element>): Bytes
    requires forall e <- es :: e.Fits()
    decreases |es|
  {
    if es == [] then [] else es[0].Encoded() + EncodedAll(es[1..])
  }

  lemma {:induction false} ElementsSize(es: seq<Element>, dataType: Word16)
    requires dataType < 35 && AllOf(es, dataType % 7)
    ensures LayoutOf(dataType).Some? && |EncodedAll(es)| == |es| * LayoutOf(dataType).value.element
    decreases |es|
  {
    hide LayoutOf, Element.Encoded, Element.Fits, Element.NativeType;
    Known(dataType);
    if es != [] {
      var size := LayoutOf(dataType).value.element;
      assert es[0] in es && forall e <- es[1..] :: e in es;
      ElementSize(es[0], dataType);
      ElementsSize(es[1..], dataType);
      assert |es| * size == size + (|es| - 1) * size;
    }
  }

  lemma Known(dataType: Word16)
    requires dataType < 35
    ensures LayoutOf(dataType).Some?
  {}

  // ----- metadata

  const SHORT: nat := 2
  const LONG: nat := 4
  const STAMP: nat := 4 + 4          // seconds and nanoseconds
  const UNITS: nat := 8
  const TEXT: nat := 40
  const STATES: nat := 16 * 26       // the names of the states of an enumeration

  const ALARM: seq<nat> := [SHORT, SHORT]       // status and severity

  function LimitSize(nativeType: nat): nat {
    if nativeType == 1 then SHORT else if nativeType == 4 then 1 else if nativeType == 6 then 8 else LONG
  }

  /** Four, six or eight limits of the native type, with units and, for floating point, a
      precision in front. */
  function Limits(nativeType: nat, count: nat): seq<nat> {
    ALARM
    + (if nativeType == 2 || nativeType == 6 then [SHORT, SHORT] else [])
    + [UNITS] + seq(count, _ => LimitSize(nativeType))
    + (if nativeType == 4 then [1] else [])
  }

  /** The sizes of the fields of the structure that goes before the elements. */
  function Structure(dataType: nat): seq<nat> {
    var nativeType := dataType % 7;
    if dataType < 7 then []
    else if dataType < 14 || dataType == 21 then
      ALARM + (if nativeType == 4 then [1] else if nativeType == 6 then [LONG] else [])
    else if dataType < 21 || dataType == 28 then
      ALARM + [STAMP]
      + (if nativeType == 1 || nativeType == 3 then [SHORT]
         else if nativeType == 4 then [SHORT, 1]
         else if nativeType == 6 then [LONG]
         else [])
    else if dataType == 24 || dataType == 31 then ALARM + [SHORT, STATES]
    else if dataType < 28 then Limits(nativeType, 6)
    else if dataType < 35 then Limits(nativeType, 8)
    else if dataType < 37 then [SHORT]
    else if dataType == 37 then ALARM + [SHORT, SHORT, TEXT]
    else [TEXT]
  }

  function Sum(sizes: seq<nat>): nat
    decreases |sizes|
  {
    if sizes == [] then 0 else sizes[0] + Sum(sizes[1..])
  }

  lemma {:induction false} SumOfEqual(count: nat, size: nat)
    ensures Sum(seq(count, _ => size)) == count * size
  {
    if count > 0 {
      SumOfEqual(count - 1, size);
      assert seq(count, _ => size)[1..] == seq(count - 1, _ => size);
    }
  }

  lemma {:induction false} SumOfConcat(a: seq<nat>, b: seq<nat>)
    ensures Sum(a + b) == Sum(a) + Sum(b)
    decreases |a|
  {
    if a == [] {
      assert a + b == b;
    } else {
      assert (a + b)[1..] == a[1..] + b;
      SumOfConcat(a[1..], b);
    }
  }

  lemma SumOfFew(a: nat, b: nat, c: nat)
    ensures Sum([]) == 0 && Sum([a]) == a && Sum([a, b]) == a + b && Sum([a, b, c]) == a + b + c
  {
    assert [a][1..] == [] && [a, b][1..] == [b] && [a, b, c][1..] == [b, c] && [b, c][1..] == [c];
    assert Sum([c]) == c && Sum([b, c]) == b + Sum([c]);
  }

  lemma LimitsSize(nativeType: nat, count: nat)
    ensures Sum(Limits(nativeType, count)) ==
            4 + (if nativeType == 2 || nativeType == 6 then 4 else 0) + UNITS + count * LimitSize(nativeType)
            + (if nativeType == 4 then 1 else 0)
  {
    var precision: seq<nat> := if nativeType == 2 || nativeType == 6 then [SHORT, SHORT] else [];
    var limits := seq(count, _ => LimitSize(nativeType));
    var last: seq<nat> := if nativeType == 4 then [1] else [];
    SumOfEqual(count, LimitSize(nativeType));
    SumOfFew(SHORT, SHORT, 0);
    SumOfFew(UNITS, 0, 0);
    SumOfFew(1, 0, 0);
    hide Sum, LimitSize;
    SumOfConcat(ALARM, precision);
    SumOfConcat(ALARM + precision, [UNITS]);
    SumOfConcat(ALARM + precision + [UNITS], limits);
    SumOfConcat(ALARM + precision + [UNITS] + limits, last);
  }

  predicate SizeAgrees(dataType: Word16) {
    LayoutOf(dataType).Some? && LayoutOf(dataType).value.metadata == Sum(Structure(dataType))
  }

  lemma StatusSize(dataType: Word16)
    requires 7 <= dataType < 14 || dataType == 21
    ensures SizeAgrees(dataType)
  {
    var extra := Structure(dataType)[2..];
    assert extra == if dataType == 11 then [1] else if dataType == 13 then [LONG] else [];
    assert Structure(dataType) == ALARM + extra;
    SumOfFew(SHORT, SHORT, 0);
    SumOfFew(1, 0, 0);
    SumOfFew(LONG, 0, 0);
    hide Sum, Structure;
    SumOfConcat(ALARM, extra);
  }

  lemma TimeSize(dataType: Word16)
    requires 14 <= dataType < 21 || dataType == 28
    ensures SizeAgrees(dataType)
  {
    var extra := Structure(dataType)[3..];
    assert extra == if dataType == 15 || dataType == 17 then [SHORT] else if dataType == 18 then [SHORT, 1]
                    else if dataType == 20 then [LONG] else [];
    assert Structure(dataType) == ALARM + [STAMP] + extra;
    SumOfFew(SHORT, SHORT, STAMP);
    SumOfFew(SHORT, 1, 0);
    SumOfFew(LONG, 0, 0);
    hide Sum, Structure;
    SumOfConcat(ALARM + [STAMP], extra);
  }

  lemma LimitedSize(dataType: Word16)
    requires 22 <= dataType < 35 && dataType != 28 && dataType != 24 && dataType != 31
    ensures SizeAgrees(dataType)
  {
    LimitsSize(dataType % 7, if dataType < 28 then 6 else 8);
    hide Sum, Limits;
  }

  lemma OtherSize(dataType: Word16)
    requires dataType < 7 || dataType == 24 || dataType == 31 || 35 <= dataType <= 38
    ensures SizeAgrees(dataType)
  {
    hide Sum;
    SumOfFew(SHORT, SHORT, 0);
    if dataType == 24 || dataType == 31 {
      SumOfFew(SHORT, STATES, 0);
      SumOfConcat(ALARM, [SHORT, STATES]);
    } else if dataType == 37 {
      SumOfFew(SHORT, SHORT, TEXT);
      SumOfConcat(ALARM, [SHORT, SHORT, TEXT]);
      assert Structure(dataType) == ALARM + [SHORT, SHORT, TEXT];
    } else {
      SumOfFew(TEXT, 0, 0);
    }
  }

  /** The metadata of every data type is as long as its fields. */
  lemma MetadataSize(dataType: Word16)
    requires dataType <= 38
    ensures LayoutOf(dataType).Some? && LayoutOf(dataType).value.metadata == Sum(Structure(dataType))
  {
    assert SizeAgrees(dataType) by {
      hide SizeAgrees;
      if 7 <= dataType < 14 || dataType == 21 {
        StatusSize(dataType);
      } else if 14 <= dataType < 21 || dataType == 28 {
        TimeSize(dataType);
      } else if dataType < 7 || dataType == 24 || dataType == 31 || dataType >= 35 {
        OtherSize(dataType);
      } else {
        LimitedSize(dataType);
      }
    }
    hide LayoutOf, Structure, Sum;
  }

  /** Elements of the right native type behind metadata of the right size are a proper value
      for every class that carries one, so that they survive the wire. */
  lemma ElementsAreProper(kind: Kind, dataType: Word16, p1: nat, p2: nat, metadata: Bytes, es: seq<Element>)
    requires HasValue(kind) && dataType < 35 && AllOf(es, dataType % 7) && |metadata| == Sum(Structure(dataType))
    requires |es| < 0x1_0000_0000 && |metadata| + |EncodedAll(es)| + 8 <= 0xffff_ffff
    ensures Proper(kind, Value(dataType, |es|, p1, p2, metadata, EncodedAll(es)))
  {
    ElementsSize(es, dataType);
    MetadataSize(dataType);
    hide LayoutOf, Structure, Sum, AllOf, EncodedAll;
  }
}
