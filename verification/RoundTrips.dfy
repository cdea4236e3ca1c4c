/** Commands that are built, sent and read back are equal to what was built. */
module RoundTrips {
  import opened Protocol
  import opened ByteStrings
  import opened Headers
  import opened Messages
  import opened Stream

  // ----- what the constructors of the command classes build

  /** The arguments of a constructor, one form for each family of classes. Values are
      given as the bytes they convert to. */
  datatype Arguments =
    | Bare(dataType: nat, dataCount: nat, parameter1: nat, parameter2: nat)
    | Value(dataType: nat, dataCount: nat, parameter1: nat, parameter2: nat, metadata: Bytes, data: Bytes)
    | Text(dataType: nat, dataCount: nat, parameter1: nat, parameter2: nat, text: Bytes)
    | Complaint(parameter1: nat, parameter2: nat, request: Header, text: Bytes)
    | Subscription(dataType: nat, dataCount: nat, parameter1: nat, parameter2: nat, mask: Bytes)
    | Address(port: nat, parameter1: nat, parameter2: nat, version: Word16)

  /** Header functions that never choose the extended layout. */
  predicate AlwaysNormal(kind: Kind) {
    || kind.VersionRequest? || kind.VersionResponse? || kind.NotFoundResponse?
    || kind.EchoRequest? || kind.EchoResponse? || kind.Beacon?
    || kind.RepeaterConfirmResponse? || kind.RepeaterRegisterRequest?
    || kind.EventsOffRequest? || kind.EventsOnRequest? || kind.ReadSyncRequest?
    || kind.ClearChannelRequest? || kind.ClearChannelResponse?
    || kind.AccessRightsResponse? || kind.CreateChFailResponse? || kind.ServerDisconnResponse?
  }

  function Build(kind: Kind, args: Arguments): Message {
    var id := WireId(kind);
    match args
    case Bare(dataType, dataCount, p1, p2) =>
      Message(kind, if AlwaysNormal(kind) then NormalHeader(id, 0, dataType, dataCount, p1, p2)
                    else ChosenHeader(id, 0, dataType, dataCount, p1, p2), [])
    case Value(dataType, dataCount, p1, p2, metadata, data) =>
      var pad := PadBuffer(|metadata| + |data|);
      Message(kind, ChosenHeader(id, |metadata| + |data| + |pad|, dataType, dataCount, p1, p2),
              if pad == [] then [metadata, data] else [metadata, data, pad])
    case Text(dataType, dataCount, p1, p2, text) =>
      Message(kind, ChosenHeader(id, PaddedLen(|text|), dataType, dataCount, p1, p2), [[], Padded(text)])
    case Complaint(p1, p2, request, text) =>
      Message(kind, ChosenHeader(id, |HeaderBytes(request)| + PaddedLen(|text|), 0, 0, p1, p2),
              [[], HeaderBytes(request) + Padded(text)])
    case Subscription(dataType, dataCount, p1, p2, mask) =>
      Message(kind, ChosenHeader(id, 16, dataType, dataCount, p1, p2), [mask])
    case Address(port, p1, p2, version) =>
      Message(kind, NormalHeader(id, 8, port, 0, p1, p2), [Padded(Put16(version))])
  }

  /** Arguments of the form that the class takes, within what the header can express, and
      (for a value) of the sizes that data type and count call for. */
  predicate Proper(kind: Kind, args: Arguments) {
    match args
    case Bare(_, _, _, _) => !HasPayload(kind)
    case Value(dataType, dataCount, _, _, metadata, data) =>
      && HasValue(kind) && |metadata| + |data| + 8 <= 0xffff_ffff
      && dataType < 0x1_0000 && dataCount < 0x1_0000_0000 && LayoutOf(dataType).Some?
      && |metadata| == LayoutOf(dataType).value.metadata
      && |data| == dataCount * LayoutOf(dataType).value.element
    case Text(_, _, _, _, text) => HasText(kind) && !kind.ErrorResponse? && |text| + 8 <= 0xffff_ffff
    case Complaint(_, _, _, text) => kind.ErrorResponse? && |text| + 32 <= 0xffff_ffff
    case Subscription(_, _, _, _, mask) => kind.EventAddRequest? && |mask| == 16
    case Address(_, _, _, _) => kind.SearchResponse?
  }

  // ----- messages that can be framed

  /** A padded payload of the announced size, under the id of a class that this role sends. */
  predicate Framed(m: Message, role: Role) {
    && SentBy(m.kind, role) && m.header.command == WireId(m.kind)
    && |Joined(m.buffers)| == m.header.payloadSize && m.header.payloadSize % 8 == 0
    && (m.kind.EventCancelResponse? ==> m.header.payloadSize == 0)
  }

  predicate Sendable(m: Message, role: Role) {
    Framed(m, role) && Survives(Received(m.kind), m.header, Joined(m.buffers))
  }

  predicate AllSendable(ms: seq<Message>, role: Role) {
    forall i | 0 <= i < |ms| :: Sendable(ms[i], role)
  }

  lemma PartsSendable(ms: seq<Message>, role: Role)
    requires ms != [] && AllSendable(ms, role)
    ensures Sendable(ms[0], role) && AllSendable(ms[1..], role)
    ensures Sendable(ms[|ms| - 1], role) && AllSendable(ms[..|ms| - 1], role)
  {
    hide Sendable;
  }

  function SenderOf(kind: Kind): Role {
    if kind.IsRequest() then Client else Server
  }

  lemma IdFits(kind: Kind)
    ensures Cut16(WireId(kind)) == WireId(kind)
    ensures SentBy(kind, SenderOf(kind))
  {}

  lemma ValueJoined(metadata: Bytes, data: Bytes, pad: Bytes)
    requires pad == PadBuffer(|metadata| + |data|)
    ensures Joined(if pad == [] then [metadata, data] else [metadata, data, pad]) == metadata + data + pad
    ensures |metadata + data + pad| % 8 == 0 && |pad| < 8 && pad == Zeros(|pad|)
  {
    JoinedFew(metadata, data, pad);
    PaddingsAgree(metadata + data);
    assert pad == [] ==> metadata + data + pad == metadata + data;
    hide Joined;
  }

  /** A value of the right sizes leaves nothing but its padding behind the elements. */
  lemma ValueSurvives(kind: Kind, header: Header, metadata: Bytes, data: Bytes, pad: Bytes)
    requires HasValue(kind) && LayoutOf(header.dataType).Some? && |pad| < 8 && pad == Zeros(|pad|)
    requires |metadata| == LayoutOf(header.dataType).value.metadata
    requires |data| == header.dataCount * LayoutOf(header.dataType).value.element
    ensures Survives(kind, header, metadata + data + pad)
  {
    hide LayoutOf;
    var payload, used := metadata + data + pad, |metadata| + |data|;
    assert payload[used..] == pad;
  }

  /** Within the range of the fields nothing is cut off. */
  lemma ChosenFields(id: Word16, payloadSize: nat, dataType: nat, dataCount: nat, p1: nat, p2: nat)
    requires payloadSize < 0x1_0000_0000 && dataType < 0x1_0000 && dataCount < 0x1_0000_0000
    ensures var h := ChosenHeader(id, payloadSize, dataType, dataCount, p1, p2);
            h.command == id && h.payloadSize == payloadSize && h.dataType == dataType && h.dataCount == dataCount
  {}

  lemma ValueIsSendable(kind: Kind, args: Arguments)
    requires args.Value? && Proper(kind, args)
    ensures Sendable(Build(kind, args), SenderOf(kind)) && Validated(Build(kind, args))
  {
    hide LayoutOf, Joined, WireId, Survives, Zeros, PaddedLen, ChosenHeader, PadBuffer, SenderOf, SentBy;
    IdFits(kind);
    var m := Build(kind, args);
    var pad := PadBuffer(|args.metadata| + |args.data|);
    ValueJoined(args.metadata, args.data, pad);
    ChosenFields(WireId(kind), |args.metadata| + |args.data| + |pad|, args.dataType, args.dataCount,
                 args.parameter1, args.parameter2);
    ValueSurvives(kind, m.header, args.metadata, args.data, pad);
  }

  lemma OnePiece(kind: Kind, header: Header, payload: Bytes, empty: bool)
    requires HasText(kind) || kind.SearchResponse? || (kind.EventAddRequest? && |payload| == 16)
    requires header.command == WireId(kind) && |payload| == header.payloadSize && |payload| % 8 == 0
    ensures var m := Message(kind, header, if empty then [[], payload] else [payload]);
            Sendable(m, SenderOf(kind)) && Validated(m)
  {
    hide Joined, WireId, LayoutOf;
    IdFits(kind);
    JoinedFew([], payload, []);
    JoinedFew(payload, [], []);
    assert [] + payload == payload;
  }

  lemma ComplaintIsSendable(kind: Kind, args: Arguments)
    requires args.Complaint? && Proper(kind, args)
    ensures Sendable(Build(kind, args), SenderOf(kind)) && Validated(Build(kind, args))
  {
    hide WireId, Sendable, HeaderBytes, Padded, Validated;
    IdFits(kind);
    PaddingsAgree(args.text);
    PaddedSize(args.text);
    HeaderRoundTrip(args.request, []);
    OnePiece(kind, Build(kind, args).header, HeaderBytes(args.request) + Padded(args.text), true);
  }

  lemma TextIsSendable(kind: Kind, args: Arguments)
    requires (args.Text? || args.Subscription? || args.Address?) && Proper(kind, args)
    ensures Sendable(Build(kind, args), SenderOf(kind)) && Validated(Build(kind, args))
  {
    hide WireId, Sendable, HeaderBytes, Padded, Validated;
    IdFits(kind);
    var m := Build(kind, args);
    match args {
      case Address(_, _, _, version) =>
        PaddingsAgree(Put16(version));
        OnePiece(kind, m.header, Padded(Put16(version)), false);
      case Subscription(_, _, _, _, mask) =>
        OnePiece(kind, m.header, mask, false);
      case Text(_, _, _, _, text) =>
        PaddingsAgree(text);
        PaddedSize(text);
        OnePiece(kind, m.header, Padded(text), true);
    }
  }

  lemma PaddedSize(b: Bytes)
    ensures |Padded(b)| == PaddedLen(|b|)
  {}

  /** Whatever the constructors build can be sent. */
  lemma BuiltIsSendable(kind: Kind, args: Arguments)
    requires Proper(kind, args)
    ensures Sendable(Build(kind, args), SenderOf(kind)) && Validated(Build(kind, args))
  {
    if args.Bare? {
      IdFits(kind);
      hide LayoutOf, WireId;
    } else if args.Value? {
      ValueIsSendable(kind, args);
    } else if args.Complaint? {
      ComplaintIsSendable(kind, args);
    } else {
      TextIsSendable(kind, args);
    }
  }

  // ----- there and back

  /** The frame of a command is found again on the stream. */
  lemma FrameFound(m: Message, rest: Bytes)
    requires |Joined(m.buffers)| == m.header.payloadSize && m.header.payloadSize % 8 == 0
    ensures var data := MessageBytes(m) + rest;
            var from, to := m.header.Size(), m.header.Size() + m.header.payloadSize;
            && BytesNeededForCommand(data) == Needs(Some(m.header), 0)
            && MessageBytes(m) == HeaderBytes(m.header) + Joined(m.buffers)
            && |data| >= to && data[from..to] == Joined(m.buffers) && data[to..] == rest
  {
    var payload := Joined(m.buffers);
    EncodedAsIs(m);
    hide Joined, HeaderBytes, BytesNeededForCommand, MessageBytes;
    HeaderRoundTrip(m.header, payload + rest);
    assert MessageBytes(m) + rest == HeaderBytes(m.header) + (payload + rest);
  }

  lemma EncodedAsIs(m: Message)
    requires |Joined(m.buffers)| == m.header.payloadSize && m.header.payloadSize % 8 == 0
    ensures MessageBytes(m) == HeaderBytes(m.header) + Joined(m.buffers) && !Ambiguous(m.header)
  {
    hide Joined, HeaderBytes, Padded;
    PaddingsAgree(Joined(m.buffers));
    assert Trimmed(m) == Joined(m.buffers);
  }

  lemma TextKept(kind: Kind, header: Header, payload: Bytes)
    requires HasText(kind)
    ensures FromWire(kind, header, payload).Ok? && Joined(FromWire(kind, header, payload).value.buffers) == payload
  {
    hide Joined, LayoutOf, FromBuffer;
    JoinedFew([], payload, []);
    assert [] + payload == payload;
  }

  /** One command on a stream: it is read back as an equal command, with the same header,
      exactly when its payload survives. */
  lemma ReadBack(m: Message, role: Role, rest: Bytes)
    requires Framed(m, role)
    ensures var r := ReadFromBytestream(MessageBytes(m) + rest, role);
            (r.Got? && r.rest == rest && MessageBytes(r.command) == MessageBytes(m)) <==> Sendable(m, role)
    ensures var r := ReadFromBytestream(MessageBytes(m) + rest, role);
            r.Got? ==> && r.command.header == m.header && r.command.kind == Received(m.kind)
                       && (HasText(m.kind) ==> Joined(r.command.buffers) == Joined(m.buffers))
  {
    if HasText(m.kind) {
      TextKept(m.kind, m.header, Joined(m.buffers));
    }
    hide BytesNeededForCommand, ClassOf, WireId, FromWire, Survives, Joined, MessageBytes, HeaderBytes;
    FrameFound(m, rest);
    RegistryInvertsIds(m.kind, role);
    FromWireRebuilds(Received(m.kind), m.header, Joined(m.buffers));
  }

  /** A write of an unknown data type can be framed and sent; the receiver raises a KeyError
      while parsing it. */
  lemma UnknownTypeRaises(m: Message, rest: Bytes)
    requires Framed(m, Client) && m.kind.WriteNotifyRequest? && LayoutOf(m.header.dataType).None?
    ensures ReadFromBytestream(MessageBytes(m) + rest, Client) == Raised(UnknownDataType)
  {
    hide BytesNeededForCommand, LayoutOf, Joined, MessageBytes, HeaderBytes;
    FrameFound(m, rest);
    ParserRaises(MessageBytes(m) + rest, Client);
    RegistryInvertsIds(m.kind, Client);
    hide ClassOf, WireId, FromWire;
  }

  lemma PiecesOf(metadata: Bytes, data: Bytes, pad: Bytes)
    ensures var payload := metadata + data + pad;
            && |payload| == |metadata| + |data| + |pad| && payload[..|metadata|] == metadata
            && Clip(payload, |metadata|, |metadata| + |data|) == data
  {}

  /** The pieces of a value that was read back: without the padding. */
  lemma PiecesReadBack(kind: Kind, header: Header, metadata: Bytes, data: Bytes, pad: Bytes)
    requires HasValue(kind) && LayoutOf(header.dataType).Some?
    requires |metadata| == LayoutOf(header.dataType).value.metadata
    requires |data| == header.dataCount * LayoutOf(header.dataType).value.element
    requires pad == PadBuffer(|metadata| + |data|)
    ensures var r := FromWire(kind, header, metadata + data + pad);
            && r.Ok? && r.value.header == header && Joined(r.value.buffers) == metadata + data
            && (metadata + data != [] ==> r.value.buffers == [metadata, data])
  {
    hide LayoutOf, Joined, Clip, PadBuffer;
    PiecesOf(metadata, data, pad);
    JoinedFew(metadata, data, []);
    var payload := metadata + data + pad;
    if payload == [] {
      assert metadata + data == [];
    } else {
      assert FromBuffer(header.dataType, header.dataCount, payload) == Ok([metadata, data]);
    }
  }

  /** What is read back is what the class makes of the payload. */
  lemma FramedIsRead(m: Message, role: Role, rest: Bytes)
    requires Framed(m, role)
    ensures var r, wire := ReadFromBytestream(MessageBytes(m) + rest, role),
                           FromWire(Received(m.kind), m.header, Joined(m.buffers));
            wire.Ok? ==> r == Got(wire.value, rest)
  {
    hide BytesNeededForCommand, ClassOf, WireId, FromWire, Joined, MessageBytes, HeaderBytes;
    FrameFound(m, rest);
    RegistryInvertsIds(m.kind, role);
  }

  lemma ValueBuilt(kind: Kind, args: Arguments)
    requires args.Value?
    ensures var pad := PadBuffer(|args.metadata| + |args.data|);
            Build(kind, args) ==
            Message(kind, ChosenHeader(WireId(kind), |args.metadata| + |args.data| + |pad|, args.dataType,
                                       args.dataCount, args.parameter1, args.parameter2),
                    if pad == [] then [args.metadata, args.data] else [args.metadata, args.data, pad])
  {
    hide PadBuffer, ChosenHeader, WireId;
  }

  /** The payload of a value that was built, and what the other end makes of it. */
  lemma ValueReadBack(kind: Kind, args: Arguments)
    requires args.Value? && Proper(kind, args)
    ensures var m := Build(kind, args);
            var r := FromWire(kind, m.header, Joined(m.buffers));
            && r.Ok? && Joined(r.value.buffers) == args.metadata + args.data
            && (args.metadata + args.data != [] ==> r.value.buffers == [args.metadata, args.data])
            && |args.metadata + args.data| <= r.value.header.payloadSize
  {
    hide LayoutOf, Joined, WireId, PadBuffer, ChosenHeader, FromWire, Build;
    var m := Build(kind, args);
    var pad := PadBuffer(|args.metadata| + |args.data|);
    ValueBuilt(kind, args);
    assert |args.metadata| == LayoutOf(args.dataType).value.metadata;
    assert |args.data| == args.dataCount * LayoutOf(args.dataType).value.element;
    hide Proper;
    ValueJoined(args.metadata, args.data, pad);
    ChosenFields(WireId(kind), |args.metadata| + |args.data| + |pad|, args.dataType, args.dataCount,
                 args.parameter1, args.parameter2);
    PiecesReadBack(kind, m.header, args.metadata, args.data, pad);
  }

  lemma ValueIsFramed(kind: Kind, args: Arguments)
    requires args.Value? && Proper(kind, args)
    ensures var m := Build(kind, args);
            Sendable(m, SenderOf(kind)) && Framed(m, SenderOf(kind)) && m.kind == Received(m.kind) == kind
  {
    ValueIsSendable(kind, args);
    hide Framed, Survives, ChosenHeader, SenderOf, PadBuffer, LayoutOf;
  }

  // ----- what the other end gets to see

  /** Headers keep the arguments within the width of the fields; a data count that needs more
      than 16 bits takes the extended layout, where the class allows it. */
  predicate CarriesArguments(header: Header, kind: Kind, args: Arguments) {
    && header.parameter1 == args.parameter1 % 0x1_0000_0000
    && header.parameter2 == args.parameter2 % 0x1_0000_0000
    && match args
       case Bare(dataType, dataCount, _, _) =>
         && header.dataType == dataType % 0x1_0000
         && header.dataCount == if WireId(kind) in {0, 8, 9, 10, 12, 13, 14, 17, 22, 23, 24, 26, 27}
                                then dataCount % 0x1_0000 else dataCount % 0x1_0000_0000
       case Value(dataType, dataCount, _, _, _, _) => header.dataType == dataType && header.dataCount == dataCount
       case Text(dataType, dataCount, _, _, _) =>
         header.dataType == dataType % 0x1_0000 && header.dataCount == dataCount % 0x1_0000_0000
       case Complaint(_, _, _, _) => header.dataType == 0 && header.dataCount == 0
       case Subscription(dataType, dataCount, _, _, _) =>
         header.dataType == dataType % 0x1_0000 && header.dataCount == dataCount % 0x1_0000_0000
       case Address(port, _, _, _) => header.dataType == port % 0x1_0000 && header.dataCount == 0
  }

  /** `b` is `text` up to zeros that fill it to a multiple of 8. */
  predicate ZeroPadded(b: Bytes, text: Bytes) {
    && |b| % 8 == 0 && |text| <= |b| < |text| + 8 && b[..|text|] == text
    && forall i | |text| <= i < |b| :: b[i] == 0
  }

  predicate CarriesPayload(payload: Bytes, args: Arguments) {
    match args
    case Bare(_, _, _, _) => payload == []
    case Value(_, _, _, _, metadata, data) => payload == metadata + data
    case Text(_, _, _, _, text) => ZeroPadded(payload, text)
    case Complaint(_, _, request, text) =>
      var n := |HeaderBytes(request)|;
      n <= |payload| && payload[..n] == HeaderBytes(request) && ZeroPadded(payload[n..], text)
    case Subscription(_, _, _, _, mask) => payload == mask
    case Address(_, _, _, version) =>
      |payload| == 8 && Number(payload[..2]) == version && payload[2..] == [0, 0, 0, 0, 0, 0]
  }

  lemma ChosenFieldsCut(id: Word16, payloadSize: nat, dataType: nat, dataCount: nat, p1: nat, p2: nat)
    ensures var h := ChosenHeader(id, payloadSize, dataType, dataCount, p1, p2);
            && h.parameter1 == p1 % 0x1_0000_0000 && h.parameter2 == p2 % 0x1_0000_0000
            && h.dataType == dataType % 0x1_0000 && h.dataCount == dataCount % 0x1_0000_0000
  {}

  lemma NormalByIdentifier(kind: Kind)
    ensures AlwaysNormal(kind) <==> WireId(kind) in {0, 8, 9, 10, 12, 13, 14, 17, 22, 23, 24, 26, 27}
  {}

  lemma ArgumentsBuilt(kind: Kind, args: Arguments)
    requires Proper(kind, args)
    ensures CarriesArguments(Build(kind, args).header, kind, args)
  {
    hide ChosenHeader, HasPayload, HasValue, HasText, LayoutOf, Zeros, PaddedLen, HeaderBytes, WireId, Padded,
         PadBuffer;
    var id, p1, p2 := WireId(kind), args.parameter1, args.parameter2;
    match args {
      case Bare(dataType, dataCount, _, _) =>
        NormalByIdentifier(kind);
        ChosenFieldsCut(id, 0, dataType, dataCount, p1, p2);
      case Value(dataType, dataCount, _, _, metadata, data) =>
        ChosenFieldsCut(id, |metadata| + |data| + |PadBuffer(|metadata| + |data|)|, dataType, dataCount, p1, p2);
      case Text(dataType, dataCount, _, _, text) =>
        ChosenFieldsCut(id, PaddedLen(|text|), dataType, dataCount, p1, p2);
      case Complaint(_, _, request, text) =>
        ChosenFieldsCut(id, |HeaderBytes(request)| + PaddedLen(|text|), 0, 0, p1, p2);
      case Subscription(dataType, dataCount, _, _, _) => ChosenFieldsCut(id, 16, dataType, dataCount, p1, p2);
      case Address(_, _, _, _) =>
    }
  }

  /** Whatever the constructors build, sent and read from the stream, has the class it is
      received as and the arguments it was built from. */
  lemma ArgumentsReadBack(kind: Kind, args: Arguments, rest: Bytes)
    requires Proper(kind, args)
    ensures var r := ReadFromBytestream(MessageBytes(Build(kind, args)) + rest, SenderOf(kind));
            && r.Got? && r.rest == rest && r.command.kind == Received(kind)
            && CarriesArguments(r.command.header, kind, args)
  {
    BuiltIsSendable(kind, args);
    ArgumentsBuilt(kind, args);
    var m := Build(kind, args);
    assert m.kind == kind;
    hide Build, CarriesArguments, Proper, SenderOf, Survives, MessageBytes, ReadFromBytestream, Joined, Received;
    ReadBack(m, SenderOf(kind), rest);
  }

  lemma PaddedWithZeros(text: Bytes)
    ensures ZeroPadded(Padded(text), text)
  {
    PaddingsAgree(text);
  }

  lemma VersionPayload(version: Word16)
    ensures var b := Padded(Put16(version));
            |b| == 8 && Number(b[..2]) == version && b[2..] == [0, 0, 0, 0, 0, 0]
  {
    NumberPut16(version);
    assert Padded(Put16(version))[..2] == Put16(version);
    hide Number;
  }

  /** The payload of what was built, read by the receiver. */
  lemma PayloadOfBuilt(kind: Kind, args: Arguments)
    requires Proper(kind, args) && !args.Value?
    ensures var m := Build(kind, args);
            var r := FromWire(Received(kind), m.header, Joined(m.buffers));
            && r.Ok? && CarriesPayload(Joined(r.value.buffers), args)
            && (args.Text? || args.Complaint? ==> |r.value.buffers| == 2 && r.value.buffers[0] == [])
  {
    hide Joined, WireId, LayoutOf, HeaderBytes, ChosenHeader, NormalHeader, ZeroPadded, Padded, FromBuffer;
    var m := Build(kind, args);
    match args {
      case Bare(_, _, _, _) =>
        JoinedFew([], [], []);
      case Text(_, _, _, _, text) =>
        PaddedWithZeros(text);
        JoinedFew([], Padded(text), []);
        assert [] + Padded(text) == Padded(text);
      case Complaint(_, _, request, text) =>
        PaddedWithZeros(text);
        var payload := HeaderBytes(request) + Padded(text);
        JoinedFew([], payload, []);
        assert [] + payload == payload && payload[|HeaderBytes(request)|..] == Padded(text);
      case Subscription(_, _, _, _, mask) =>
        JoinedFew(mask, [], []);
        assert mask[..16] == mask;
      case Address(_, _, _, version) =>
        JoinedFew(Padded(Put16(version)), [], []);
        VersionPayload(version);
    }
  }

  /** And the payload, but for padding, is what the constructor was given: metadata and data
      apart, a text behind an empty piece. */
  lemma PayloadReadBack(kind: Kind, args: Arguments, rest: Bytes)
    requires Proper(kind, args)
    ensures var r := ReadFromBytestream(MessageBytes(Build(kind, args)) + rest, SenderOf(kind));
            && r.Got? && CarriesPayload(Joined(r.command.buffers), args)
            && (args.Value? && args.metadata + args.data != [] ==> r.command.buffers == [args.metadata, args.data])
            && (args.Text? || args.Complaint? ==> |r.command.buffers| == 2 && r.command.buffers[0] == [])
  {
    var m := Build(kind, args);
    assert m.kind == kind && (args.Value? ==> Received(kind) == kind);
    BuiltIsSendable(kind, args);
    hide Build, Proper, Survives, Joined, MessageBytes, ReadFromBytestream, FromWire, SenderOf, SentBy, WireId,
         Received;
    if args.Value? {
      ValueReadBack(kind, args);
    } else {
      PayloadOfBuilt(kind, args);
    }
    FramedIsRead(m, SenderOf(kind), rest);
  }

  /** A value that was parsed and is sent again comes without the padding that its header
      announces, unless it needs none. */
  lemma SentAgain(kind: Kind, args: Arguments, rest: Bytes)
    requires args.Value? && Proper(kind, args)
    ensures var m := Build(kind, args);
            var r := ReadFromBytestream(MessageBytes(m) + rest, SenderOf(kind));
            && r.Got? && MessageBytes(r.command) == MessageBytes(m)
            && (SentBytes(r.command) == MessageBytes(r.command) <==> (|args.metadata| + |args.data|) % 8 == 0)
  {
    var m := Build(kind, args);
    hide *;
    ValueIsFramed(kind, args);
    ReadBack(m, SenderOf(kind), rest);
    ValueReadBack(kind, args);
    FramedIsRead(m, SenderOf(kind), rest);
    SentIsEncoded(FromWire(kind, m.header, Joined(m.buffers)).value);
  }

  /** An input: a write of one 16-bit integer. */
  lemma OneIntegerSentAgain(sid: nat, ioid: nat, value: Word16, rest: Bytes)
    ensures var m := Build(WriteNotifyRequest, Value(1, 1, sid, ioid, [], Put16(value)));
            var r := ReadFromBytestream(MessageBytes(m) + rest, Client);
            r.Got? && MessageBytes(r.command) == MessageBytes(m) && SentBytes(r.command) != MessageBytes(m)
  {
    var args := Value(1, 1, sid, ioid, [], Put16(value));
    assert Proper(WriteNotifyRequest, args) && SenderOf(WriteNotifyRequest) == Client;
    assert |args.metadata| + |args.data| == 2;
    hide *;
    SentAgain(WriteNotifyRequest, args, rest);
  }

  /** bytes(m) of every message, one after the other. */
  function Encoded(ms: seq<Message>): Bytes
    decreases |ms|
  {
    if ms == [] then [] else MessageBytes(ms[0]) + Encoded(ms[1..])
  }

  /** Equal as commands, with the same header, and of the class it is taken for. */
  predicate Same(got: Message, m: Message) {
    && MessageBytes(got) == MessageBytes(m) && got.header == m.header && got.kind == Received(m.kind)
    && (HasText(m.kind) ==> Joined(got.buffers) == Joined(m.buffers))
  }

  /** `d` holds a copy of every message, and nothing is left over. */
  predicate ComesBack(ms: seq<Message>, d: Drained) {
    && d.error.None? && d.rest == [] && d.missing == HEADER_SIZE
    && |d.commands| == |ms| && forall i | 0 <= i < |ms| :: Same(d.commands[i], ms[i])
  }

  lemma OneMoreComesBack(m: Message, got: Message, ms: seq<Message>, d: Drained)
    requires Same(got, m) && ComesBack(ms, d)
    ensures ComesBack([m] + ms, After([got], d))
  {
    hide Same;
  }

  /** A whole list of commands, normal and extended headers mixed, comes back from the
      stream as an equal list. */
  lemma {:induction false} ListReadBack(ms: seq<Message>, role: Role)
    requires AllSendable(ms, role)
    ensures ComesBack(ms, Drain(Encoded(ms), role))
    decreases |ms|
  {
    if ms != [] {
      var first, others := ms[0], ms[1..];
      EncodedFirst(ms);
      assert [first] + others == ms;
      hide ReadFromBytestream, MessageBytes, Sendable, AllSendable, ComesBack, Same, Drain, Encoded, After;
      PartsSendable(ms, role);
      ListReadBack(others, role);
      FirstReadBack(first, role, Encoded(others));
      var r := ReadFromBytestream(Encoded(ms), role);
      OneMoreComesBack(first, r.command, others, Drain(Encoded(others), role));
    }
  }

  lemma EncodedFirst(ms: seq<Message>)
    requires ms != []
    ensures Encoded(ms) == MessageBytes(ms[0]) + Encoded(ms[1..])
  {}

  lemma FirstReadBack(m: Message, role: Role, rest: Bytes)
    requires Sendable(m, role)
    ensures var r := ReadFromBytestream(MessageBytes(m) + rest, role);
            && r.Got? && r.rest == rest && Same(r.command, m)
            && Drain(MessageBytes(m) + rest, role) == After([r.command], Drain(rest, role))
  {
    ReadBack(m, role, rest);
    hide ReadFromBytestream, MessageBytes, Joined, HasText;
  }

  /** What goes through the socket for a list of commands. */
  function Sent(ms: seq<Message>): Bytes
    decreases |ms|
  {
    if ms == [] then [] else SentBytes(ms[0]) + Sent(ms[1..])
  }

  /** The buffers that are sent, joined, are the concatenated encodings. */
  lemma {:induction false} SentIsEncodedList(ms: seq<Message>, role: Role)
    requires AllSendable(ms, role)
    ensures Sent(ms) == Encoded(ms)
    decreases |ms|
  {
    if ms != [] {
      hide MessageBytes, SentBytes, AllSendable;
      PartsSendable(ms, role);
      SentIsEncoded(ms[0]);
      SentIsEncodedList(ms[1..], role);
    }
  }

  /** Sent in one go, cut anywhere, received: an equal list. */
  lemma SentAndReceived(ms: seq<Message>, role: Role, chunks: seq<Bytes>)
    requires AllSendable(ms, role)
    requires Concat(chunks) == Sent(ms)
    ensures ComesBack(ms, Feed([], chunks, role))
  {
    SentIsEncodedList(ms, role);
    ListReadBack(ms, role);
    ChunksDoNotMatter([], chunks, role);
    assert [] + Concat(chunks) == Encoded(ms);
    hide Feed, Drain, AllSendable, MessageBytes, ComesBack;
  }
}
