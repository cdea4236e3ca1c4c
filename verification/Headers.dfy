/** The two header layouts of a Channel Access command, and how a reader tells them apart. */
module Headers {
  import opened Protocol
  import opened ByteStrings

  const HEADER_SIZE: nat := 16
  const EXTENDED_HEADER_SIZE: nat := 24
  const MAX_16BIT: nat := 0xffff
  const MARKER1: Word16 := 0xffff
  const MARKER2: Word16 := 0

  datatype HeaderFields = HeaderFields(
    extended: bool, command: Word16, payloadSize: Word32, dataType: Word16, dataCount: Word32,
    parameter1: Word32, parameter2: Word32)
  {
    predicate Fits() {
      extended || (payloadSize <= MAX_16BIT && dataCount <= MAX_16BIT)
    }

    function Size(): nat {
      if extended then EXTENDED_HEADER_SIZE else HEADER_SIZE
    }
  }

  type Header = h: HeaderFields | h.Fits() witness HeaderFields(false, 0, 0, 0, 0, 0, 0)

  function Cut16(n: nat): Word16 { n % 0x1_0000 }

  function Cut32(n: nat): Word32 { n % 0x1_0000_0000 }

  /** MessageHeader(...): the fields of the structure keep the low bits only. */
  function NormalHeader(command: nat, payloadSize: nat, dataType: nat, dataCount: nat, p1: nat, p2: nat): Header {
    HeaderFields(false, Cut16(command), Cut16(payloadSize), Cut16(dataType), Cut16(dataCount), Cut32(p1), Cut32(p2))
  }

  /** The header functions for commands that may be large choose between the layouts. */
  function ChosenHeader(command: nat, payloadSize: nat, dataType: nat, dataCount: nat, p1: nat, p2: nat): Header {
    if payloadSize > MAX_16BIT || dataCount > MAX_16BIT then
      HeaderFields(true, Cut16(command), Cut32(payloadSize), Cut16(dataType), Cut32(dataCount), Cut32(p1), Cut32(p2))
    else
      NormalHeader(command, payloadSize, dataType, dataCount, p1, p2)
  }

  function First16(command: Word16, second: Word16, dataType: Word16, fourth: Word16, p1: Word32, p2: Word32): Bytes {
    Put16(command) + Put16(second) + Put16(dataType) + Put16(fourth) + Put32(p1) + Put32(p2)
  }

  function HeaderBytes(h: Header): Bytes {
    if h.extended then
      First16(h.command, MARKER1, h.dataType, MARKER2, h.parameter1, h.parameter2)
      + Put32(h.payloadSize) + Put32(h.dataCount)
    else
      First16(h.command, h.payloadSize, h.dataType, h.dataCount, h.parameter1, h.parameter2)
  }

  /** MessageHeader.from_buffer */
  function ReadNormal(data: Bytes): Header
    requires |data| >= HEADER_SIZE
  {
    HeaderFields(false, Get16(data[0..2]), Get16(data[2..4]), Get16(data[4..6]), Get16(data[6..8]),
                 Get32(data[8..12]), Get32(data[12..16]))
  }

  /** ExtendedMessageHeader.from_buffer */
  function ReadExtended(data: Bytes): Header
    requires |data| >= EXTENDED_HEADER_SIZE
  {
    HeaderFields(true, Get16(data[0..2]), Get32(data[16..20]), Get16(data[4..6]), Get32(data[20..24]),
                 Get32(data[8..12]), Get32(data[12..16]))
  }

  /** A normal header that looks like the start of an extended one. */
  predicate Ambiguous(h: Header) {
    !h.extended && h.payloadSize == MARKER1 && h.dataCount == MARKER2
  }

  datatype Needs = Needs(header: Option<Header>, missing: nat)

  function NeedsAfterHeader(h: Header, data: Bytes): Needs {
    var total := h.Size() + h.payloadSize;
    Needs(Some(h), if |data| < total then total - |data| else 0)
  }

  function BytesNeededForCommand(data: Bytes): Needs {
    if |data| < HEADER_SIZE then
      Needs(None, HEADER_SIZE - |data|)
    else
      var h := ReadNormal(data);
      if !Ambiguous(h) then
        NeedsAfterHeader(h, data)
      else if |data| < EXTENDED_HEADER_SIZE then
        Needs(None, EXTENDED_HEADER_SIZE - |data|)
      else
        NeedsAfterHeader(ReadExtended(data), data)
  }

  // ----- header bytes and header values

  lemma ReadFirst16(
      command: Word16, second: Word16, dataType: Word16, fourth: Word16, p1: Word32, p2: Word32, rest: Bytes)
    ensures var b := First16(command, second, dataType, fourth, p1, p2);
            && |b| == HEADER_SIZE
            && ReadNormal(b + rest) == HeaderFields(false, command, second, dataType, fourth, p1, p2)
  {
    var b := First16(command, second, dataType, fourth, p1, p2) + rest;
    Word16RoundTrip(command, b); Word16RoundTrip(second, b);
    Word16RoundTrip(dataType, b); Word16RoundTrip(fourth, b);
    Word32RoundTrip(p1, b); Word32RoundTrip(p2, b);
    hide Put16, Put32, Get16, Get32;
    assert b[0..2] == Put16(command) && b[2..4] == Put16(second);
    assert b[4..6] == Put16(dataType) && b[6..8] == Put16(fourth);
    assert b[8..12] == Put32(p1) && b[12..16] == Put32(p2);
  }

  lemma ReadSizes(front: Bytes, payloadSize: Word32, dataCount: Word32, rest: Bytes)
    requires |front| == HEADER_SIZE
    ensures var b := front + Put32(payloadSize) + Put32(dataCount) + rest;
            && |b| == EXTENDED_HEADER_SIZE + |rest|
            && Get32(b[16..20]) == payloadSize && Get32(b[20..24]) == dataCount
            && b == front + (Put32(payloadSize) + Put32(dataCount) + rest)
  {
    var b := front + Put32(payloadSize) + Put32(dataCount) + rest;
    Word32RoundTrip(payloadSize, b);
    Word32RoundTrip(dataCount, b);
    hide Put32, Get32;
    assert b[16..20] == Put32(payloadSize) && b[20..24] == Put32(dataCount);
  }

  /** Where each field is on the wire, most significant byte first. */
  predicate LaidOut(b: Bytes, at: nat, size: nat, field: nat) {
    at + size <= |b| && Number(b[at..at + size]) == field
  }

  /** The layouts, as the protocol documents them. The extended one marks itself by a
      payload size of 0xffff with a data count of 0, and has the true ones at its end. */
  lemma WireLayout(h: Header)
    ensures var b := HeaderBytes(h);
            && |b| == (if h.extended then 24 else 16)
            && LaidOut(b, 0, 2, h.command) && LaidOut(b, 4, 2, h.dataType)
            && LaidOut(b, 8, 4, h.parameter1) && LaidOut(b, 12, 4, h.parameter2)
            && LaidOut(b, 2, 2, if h.extended then 0xffff else h.payloadSize)
            && LaidOut(b, 6, 2, if h.extended then 0 else h.dataCount)
            && (h.extended ==> LaidOut(b, 16, 4, h.payloadSize) && LaidOut(b, 20, 4, h.dataCount))
  {
    var b := HeaderBytes(h);
    var second: Word16, fourth: Word16 :=
      if h.extended then MARKER1 else h.payloadSize, if h.extended then MARKER2 else h.dataCount;
    NumberPut16(h.command); NumberPut16(h.dataType); NumberPut16(second); NumberPut16(fourth);
    NumberPut32(h.parameter1); NumberPut32(h.parameter2); NumberPut32(h.payloadSize); NumberPut32(h.dataCount);
    hide Put16, Put32, Number;
    assert b[0..2] == Put16(h.command) && b[2..4] == Put16(second);
    assert b[4..6] == Put16(h.dataType) && b[6..8] == Put16(fourth);
    assert b[8..12] == Put32(h.parameter1) && b[12..16] == Put32(h.parameter2);
    assert h.extended ==> b[16..20] == Put32(h.payloadSize) && b[20..24] == Put32(h.dataCount);
  }

  /** A reader recovers a header from its bytes, whatever follows, exactly when the
      header does not look like the other layout. */
  lemma HeaderRoundTrip(h: Header, rest: Bytes)
    ensures |HeaderBytes(h)| == h.Size()
    ensures !Ambiguous(h) <==>
              BytesNeededForCommand(HeaderBytes(h) + rest) == NeedsAfterHeader(h, HeaderBytes(h) + rest)
  {
    if h.extended {
      var front := First16(h.command, MARKER1, h.dataType, MARKER2, h.parameter1, h.parameter2);
      var sizes := Put32(h.payloadSize) + Put32(h.dataCount);
      ReadFirst16(h.command, MARKER1, h.dataType, MARKER2, h.parameter1, h.parameter2, sizes + rest);
      ReadSizes(front, h.payloadSize, h.dataCount, rest);
      assert HeaderBytes(h) + rest == front + (sizes + rest);
    } else {
      ReadFirst16(h.command, h.payloadSize, h.dataType, h.dataCount, h.parameter1, h.parameter2, rest);
    }
    hide First16, Put16, Put32, Get16, Get32;
  }

  /** No header that the source builds for a padded payload is ambiguous; without the
      padding there is one. */
  lemma PaddedNeverAmbiguous(command: nat, payloadSize: nat, dataType: nat, dataCount: nat, p1: nat, p2: nat)
    ensures Ambiguous(ChosenHeader(command, payloadSize, dataType, dataCount, p1, p2))
            <==> payloadSize == MAX_16BIT && dataCount == 0
    ensures payloadSize % 8 == 0 ==> !Ambiguous(NormalHeader(command, payloadSize, dataType, dataCount, p1, p2))
  {}
}
