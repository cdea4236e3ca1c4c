/** Commands as they are built, put on the wire, and read back from it. */
module Messages {
  import opened Protocol
  import opened ByteStrings
  import opened Headers

  /** A Message object: its class, its header and its payload in pieces. */
  datatype Message = Message(kind: Kind, header: Header, buffers: seq<Bytes>)

  datatype WireError =
    | BadCommandId               // RemoteProtocolError: no class has this command id
    | UnknownDataType            // KeyError
    | BufferTooSmall             // ValueError: the payload does not fill the structure

  datatype Result<+T> = Ok(value: T) | Err(error: WireError)

  // ----- the registry of classes

  /** `Commands[role][id]`, where `role` is the role of the sender. */
  function ClassOf(role: Role, id: Word16): Option<Kind> {
    if id == 13 then Some(Beacon)
    else if role.Client? then
      if id == 0 then Some(VersionRequest)
      else if id == 1 then Some(EventAddRequest)
      else if id == 2 then Some(EventCancelRequest)
      else if id == 3 then Some(ReadRequest)
      else if id == 4 then Some(WriteRequest)
      else if id == 6 then Some(SearchRequest)
      else if id == 8 then Some(EventsOffRequest)
      else if id == 9 then Some(EventsOnRequest)
      else if id == 10 then Some(ReadSyncRequest)
      else if id == 12 then Some(ClearChannelRequest)
      else if id == 15 then Some(ReadNotifyRequest)
      else if id == 18 then Some(CreateChanRequest)
      else if id == 19 then Some(WriteNotifyRequest)
      else if id == 20 then Some(ClientNameRequest)
      else if id == 21 then Some(HostNameRequest)
      else if id == 23 then Some(EchoRequest)
      else if id == 24 then Some(RepeaterRegisterRequest)
      else None
    else
      if id == 0 then Some(VersionResponse)
      else if id == 1 then Some(EventAddResponse)
      else if id == 2 then Some(EventCancelResponse)
      else if id == 3 then Some(ReadResponse)
      else if id == 6 then Some(SearchResponse)
      else if id == 11 then Some(ErrorResponse)
      else if id == 12 then Some(ClearChannelResponse)
      else if id == 14 then Some(NotFoundResponse)
      else if id == 15 then Some(ReadNotifyResponse)
      else if id == 17 then Some(RepeaterConfirmResponse)
      else if id == 18 then Some(CreateChanResponse)
      else if id == 19 then Some(WriteNotifyResponse)
      else if id == 22 then Some(AccessRightsResponse)
      else if id == 23 then Some(EchoResponse)
      else if id == 26 then Some(CreateChFailResponse)
      else if id == 27 then Some(ServerDisconnResponse)
      else None
  }

  /** The command id in the header that the class puts on the wire. */
  function WireId(kind: Kind): Word16 {
    match kind
    case VersionRequest => 0 case VersionResponse => 0
    case EventAddRequest => 1 case EventAddResponse => 1
    case EventCancelRequest => 2
    case EventCancelResponse => 1      // although the class is registered under 2
    case ReadRequest => 3 case ReadResponse => 3
    case WriteRequest => 4
    case SearchRequest => 6 case SearchResponse => 6
    case EventsOffRequest => 8 case EventsOnRequest => 9
    case ReadSyncRequest => 10
    case ErrorResponse => 11
    case ClearChannelRequest => 12 case ClearChannelResponse => 12
    case Beacon => 13
    case NotFoundResponse => 14
    case ReadNotifyRequest => 15 case ReadNotifyResponse => 15
    case RepeaterConfirmResponse => 17
    case CreateChanRequest => 18 case CreateChanResponse => 18
    case WriteNotifyRequest => 19 case WriteNotifyResponse => 19
    case ClientNameRequest => 20
    case HostNameRequest => 21
    case AccessRightsResponse => 22
    case EchoRequest => 23 case EchoResponse => 23
    case RepeaterRegisterRequest => 24
    case CreateChFailResponse => 26
    case ServerDisconnResponse => 27
  }

  /** What the receiver takes a command to be. */
  function Received(kind: Kind): Kind {
    if kind.EventCancelResponse? then EventAddResponse else kind
  }

  predicate SentBy(kind: Kind, role: Role) {
    kind.Beacon? || (role.Client? <==> kind.IsRequest())
  }

  /** The ids tell the classes of one direction apart, but for the one conflation. */
  lemma RegistryInvertsIds(kind: Kind, role: Role)
    ensures SentBy(kind, role) ==> ClassOf(role, WireId(kind)) == Some(Received(kind))
    ensures forall id: Word16 | ClassOf(role, id) == Some(kind) ::
              SentBy(kind, role) && (id == WireId(kind) || kind.EventCancelResponse?)
  {}

  /** The identifiers by which the protocol numbers its messages. */
  lemma Identifiers(kind: Kind)
    ensures WireId(kind) == 0 <==> kind.VersionRequest? || kind.VersionResponse?
    ensures WireId(kind) == 1 <==> kind.EventAddRequest? || kind.EventAddResponse? || kind.EventCancelResponse?
    ensures WireId(kind) == 2 <==> kind.EventCancelRequest?
    ensures WireId(kind) == 3 <==> kind.ReadRequest? || kind.ReadResponse?
    ensures WireId(kind) == 4 <==> kind.WriteRequest?
    ensures WireId(kind) == 6 <==> kind.SearchRequest? || kind.SearchResponse?
    ensures WireId(kind) == 8 <==> kind.EventsOffRequest?
    ensures WireId(kind) == 9 <==> kind.EventsOnRequest?
    ensures WireId(kind) == 10 <==> kind.ReadSyncRequest?
    ensures WireId(kind) == 11 <==> kind.ErrorResponse?
    ensures WireId(kind) == 12 <==> kind.ClearChannelRequest? || kind.ClearChannelResponse?
    ensures WireId(kind) == 13 <==> kind.Beacon?
    ensures WireId(kind) == 14 <==> kind.NotFoundResponse?
    ensures WireId(kind) == 15 <==> kind.ReadNotifyRequest? || kind.ReadNotifyResponse?
    ensures WireId(kind) == 17 <==> kind.RepeaterConfirmResponse?
    ensures WireId(kind) == 18 <==> kind.CreateChanRequest? || kind.CreateChanResponse?
    ensures WireId(kind) == 19 <==> kind.WriteNotifyRequest? || kind.WriteNotifyResponse?
    ensures WireId(kind) == 20 <==> kind.ClientNameRequest?
    ensures WireId(kind) == 21 <==> kind.HostNameRequest?
    ensures WireId(kind) == 22 <==> kind.AccessRightsResponse?
    ensures WireId(kind) == 23 <==> kind.EchoRequest? || kind.EchoResponse?
    ensures WireId(kind) == 24 <==> kind.RepeaterRegisterRequest?
    ensures WireId(kind) == 26 <==> kind.CreateChFailResponse?
    ensures WireId(kind) == 27 <==> kind.ServerDisconnResponse?
  {}

  // ----- sizes of the payload structures

  datatype Layout = Layout(metadata: nat, element: nat)

  /** Sizes of DBR_TYPES[data_type] (0 for a type without metadata) and of one element
      of its native type. The four special types are their own native types. */
  function LayoutOf(dataType: Word16): Option<Layout> {
    if dataType <= 34 then
      Some(Layout(MetadataSizes(dataType / 7)[dataType % 7], ElementSizes()[dataType % 7]))
    else if dataType <= 36 then Some(Layout(2, 2))
    else if dataType == 37 then Some(Layout(48, 48))
    else if dataType == 38 then Some(Layout(40, 40))
    else None
  }

  /** STRING, INT, FLOAT, ENUM, CHAR, LONG, DOUBLE */
  function ElementSizes(): (sizes: seq<nat>)
    ensures |sizes| == 7
  {
    [40, 2, 4, 2, 1, 4, 8]
  }

  /** One row each: plain, with status, with time, graphic, control. */
  function MetadataSizes(form: nat): (sizes: seq<nat>)
    requires form < 5
    ensures |sizes| == 7
  {
    if form == 0 then [0, 0, 0, 0, 0, 0, 0]
    else if form == 1 then [4, 4, 4, 4, 5, 4, 8]
    else if form == 2 then [12, 14, 12, 14, 15, 12, 16]
    else if form == 3 then [4, 24, 40, 422, 19, 36, 64]
    else [12, 28, 48, 422, 21, 44, 80]
  }

  // ----- encoding

  function Trimmed(m: Message): Bytes {
    Clip(Joined(m.buffers), 0, m.header.payloadSize)
  }

  /** bytes(message), which is also what equality and hashing look at. */
  function MessageBytes(m: Message): Bytes {
    HeaderBytes(m.header) + Padded(Trimmed(m))
  }

  /** What send() hands to the socket for one command, joined together. */
  function SentBytes(m: Message): Bytes {
    HeaderBytes(m.header) + Joined(m.buffers)
  }

  /** Message.__bytes__ */
  method ToBytes(m: Message) returns (b: Bytes)
    ensures b == MessageBytes(m)
  {
    var raw: Bytes := [];
    for i := 0 to |m.buffers|
      invariant raw == Joined(m.buffers[..i])
    {
      raw := raw + m.buffers[i];
      assert m.buffers[..i + 1][..i] == m.buffers[..i];
    }
    assert m.buffers[..|m.buffers|] == m.buffers;
    var trimmed := Clip(raw, 0, m.header.payloadSize);
    b := HeaderBytes(m.header) + Padded(trimmed);
  }

  /** What validation at construction checks. */
  predicate Validated(m: Message) {
    && m.header.command == WireId(m.kind)
    && if m.kind.EventCancelResponse? then forall buffer <- m.buffers :: buffer == []
       else |Joined(m.buffers)| == m.header.payloadSize
  }

  // ----- decoding

  /** Classes with HAS_PAYLOAD. */
  predicate HasPayload(kind: Kind) {
    HasValue(kind) || HasText(kind) || kind.SearchResponse? || kind.EventAddRequest?
  }

  /** Classes whose payload is a value, with or without metadata. */
  predicate HasValue(kind: Kind) {
    || kind.EventAddResponse? || kind.ReadNotifyResponse? || kind.ReadResponse?
    || kind.WriteRequest? || kind.WriteNotifyRequest?
  }

  /** Classes whose payload is kept as one piece after an empty one. */
  predicate HasText(kind: Kind) {
    || kind.SearchRequest? || kind.ErrorResponse? || kind.CreateChanRequest?
    || kind.ClientNameRequest? || kind.HostNameRequest?
  }

  /** The same by identifier: what follows the header of each class. */
  lemma PayloadsByIdentifier(kind: Kind)
    ensures HasText(kind) <==>
              WireId(kind) in {11, 20, 21} || (kind.IsRequest() && WireId(kind) in {6, 18})
    ensures HasValue(kind) <==>
              || WireId(kind) == 4
              || (kind.IsRequest() && WireId(kind) == 19)
              || (!kind.IsRequest() && WireId(kind) in {3, 15})
              || kind.EventAddResponse?
    ensures HasPayload(kind) <==>
              HasText(kind) || HasValue(kind) || kind.SearchResponse? || (kind.IsRequest() && WireId(kind) == 1)
  {}

  /** from_buffer: the metadata structure, then as much as the element count says. */
  function FromBuffer(dataType: Word16, dataCount: Word32, buffer: Bytes): Result<seq<Bytes>> {
    match LayoutOf(dataType)
    case None => Err(UnknownDataType)
    case Some(layout) =>
      if |buffer| < layout.metadata then Err(BufferTooSmall)
      else Ok([buffer[..layout.metadata],
               Clip(buffer, layout.metadata, layout.metadata + dataCount * layout.element)])
  }

  /** from_wire, one way for each family of classes. */
  function FromWire(kind: Kind, header: Header, payload: Bytes): Result<Message> {
    if !HasPayload(kind) || (kind.EventAddResponse? && payload == []) then
      Ok(Message(kind, header, []))
    else if HasText(kind) then
      Ok(Message(kind, header, [[], payload]))
    else if kind.SearchResponse? then
      Ok(Message(kind, header, [payload]))
    else if kind.EventAddRequest? then
      if |payload| < 16 then Err(BufferTooSmall) else Ok(Message(kind, header, [payload[..16]]))
    else
      match FromBuffer(header.dataType, header.dataCount, payload)
      case Err(error) => Err(error)
      case Ok(buffers) => Ok(Message(kind, header, buffers))
  }

  /** Nothing but padding is cut off on the way: checked on the header and the payload
      that are sent. */
  predicate Survives(kind: Kind, header: Header, payload: Bytes) {
    if !HasPayload(kind) || (kind.EventAddResponse? && payload == []) then payload == []
    else if HasText(kind) || kind.SearchResponse? then true
    else if kind.EventAddRequest? then |payload| == 16
    else
      match LayoutOf(header.dataType)
      case None => false
      case Some(layout) =>
        var used := layout.metadata + header.dataCount * layout.element;
        && layout.metadata <= |payload| < used + 8
        && (used < |payload| ==> payload[used..] == Zeros(|payload| - used))
  }

  lemma PaddedPrefix(payload: Bytes, used: nat)
    requires |payload| % 8 == 0 && used <= |payload|
    ensures Padded(payload[..used]) == payload <==>
              |payload| < used + 8 && payload[used..] == Zeros(|payload| - used)
  {
    var padded := Padded(payload[..used]);
    PaddingsAgree(payload[..used]);
    if |payload| < used + 8 {
      assert |padded| == |payload|;
      assert payload == payload[..used] + payload[used..];
      if padded == payload {
        assert payload[used..] == padded[used..];
      }
    }
  }

  /** The two pieces of a value, joined and padded again. */
  lemma PiecesRebuilt(payload: Bytes, metadata: nat, used: nat)
    requires |payload| % 8 == 0 && metadata <= |payload| && metadata <= used
    ensures Padded(Clip(Joined([payload[..metadata], Clip(payload, metadata, used)]), 0, |payload|)) == payload
            <==> |payload| < used + 8 && (used < |payload| ==> payload[used..] == Zeros(|payload| - used))
  {
    var kept := if used < |payload| then used else |payload|;
    var front, back := payload[..metadata], Clip(payload, metadata, used);
    JoinedFew(front, back, []);
    assert front + back == payload[..kept];
    assert Clip(payload[..kept], 0, |payload|) == payload[..kept];
    PaddedPrefix(payload, kept);
    hide Joined, Padded, PaddedLen;
    if kept == |payload| {
      assert payload[kept..] == Zeros(0);
    }
  }

  /** The encoding of a command that was read back, as a payload. */
  lemma EqualPayload(kind: Kind, header: Header, buffers: seq<Bytes>, payload: Bytes)
    ensures MessageBytes(Message(kind, header, buffers)) == HeaderBytes(header) + payload
            <==> Padded(Clip(Joined(buffers), 0, header.payloadSize)) == payload
  {
    var m := Message(kind, header, buffers);
    hide HeaderBytes, Padded, Joined;
    var n := |HeaderBytes(header)|;
    assert MessageBytes(m)[n..] == Padded(Trimmed(m));
    assert (HeaderBytes(header) + payload)[n..] == payload;
  }

  lemma ValueRebuilt(kind: Kind, header: Header, payload: Bytes)
    requires HasValue(kind) && (kind.EventAddResponse? ==> payload != [])
    requires |payload| == header.payloadSize && |payload| % 8 == 0
    ensures FromWireIsFaithful(kind, header, payload)
  {
    hide MessageBytes, Padded, Joined, LayoutOf, HeaderBytes, Clip;
    var layout := LayoutOf(header.dataType);
    if layout.Some? && layout.value.metadata <= |payload| {
      var metadata, size: nat := layout.value.metadata, header.dataCount * layout.value.element;
      PiecesRebuilt(payload, metadata, metadata + size);
      EqualPayload(kind, header, [payload[..metadata], Clip(payload, metadata, metadata + size)], payload);
    }
  }

  /** Reading the payload gives an equal command exactly when it survives. */
  predicate FromWireIsFaithful(kind: Kind, header: Header, payload: Bytes) {
    var r := FromWire(kind, header, payload);
    && (r.Ok? && MessageBytes(r.value) == HeaderBytes(header) + payload <==> Survives(kind, header, payload))
    && (r.Ok? ==> r.value.kind == kind && r.value.header == header)
  }

  lemma TextRebuilt(kind: Kind, header: Header, payload: Bytes)
    requires HasText(kind) || kind.SearchResponse?
    requires |payload| == header.payloadSize && |payload| % 8 == 0
    ensures FromWireIsFaithful(kind, header, payload)
  {
    JoinedFew([], payload, []);
    JoinedFew(payload, [], []);
    assert [] + payload == payload;
    PaddingsAgree(payload);
    EqualPayload(kind, header, [[], payload], payload);
    EqualPayload(kind, header, [payload], payload);
    hide MessageBytes, Padded, Joined, HeaderBytes;
  }

  /** Reading a padded payload back gives an equal command exactly when the sender put
      nothing into it that the header does not account for. */
  lemma FromWireRebuilds(kind: Kind, header: Header, payload: Bytes)
    requires |payload| == header.payloadSize && |payload| % 8 == 0
    ensures var r := FromWire(kind, header, payload);
            r.Ok? && MessageBytes(r.value) == HeaderBytes(header) + payload <==> Survives(kind, header, payload)
    ensures var r := FromWire(kind, header, payload);
            r.Ok? ==> r.value.kind == kind && r.value.header == header
  {
    hide MessageBytes, LayoutOf;
    if !HasPayload(kind) || (kind.EventAddResponse? && payload == []) {
      BareRebuilt(kind, header, payload);
    } else if HasText(kind) || kind.SearchResponse? {
      TextRebuilt(kind, header, payload);
    } else if kind.EventAddRequest? {
      StructRebuilt(kind, header, payload);
    } else {
      ValueRebuilt(kind, header, payload);
    }
  }

  lemma BareRebuilt(kind: Kind, header: Header, payload: Bytes)
    requires !HasPayload(kind) || (kind.EventAddResponse? && payload == [])
    ensures FromWireIsFaithful(kind, header, payload)
  {
    EqualPayload(kind, header, [], payload);
    assert Padded([]) == [] && Joined([]) == [];
    hide MessageBytes, Padded, HeaderBytes, Joined;
  }

  lemma StructRebuilt(kind: Kind, header: Header, payload: Bytes)
    requires kind.EventAddRequest? && |payload| == header.payloadSize
    ensures FromWireIsFaithful(kind, header, payload)
  {
    if |payload| >= 16 {
      JoinedFew(payload[..16], [], []);
      PaddingsAgree(payload[..16]);
      EqualPayload(kind, header, [payload[..16]], payload);
      assert |payload| == 16 ==> payload[..16] == payload;
      hide MessageBytes, Padded, HeaderBytes, Joined;
    }
  }

  // ----- sending

  /** What goes through the socket is the encoding, unless a payload is neither padded
      nor within the announced size. */
  lemma SentIsEncoded(m: Message)
    requires |Joined(m.buffers)| <= m.header.payloadSize
    ensures SentBytes(m) == MessageBytes(m) <==> |Joined(m.buffers)| % 8 == 0
  {
    PaddingsAgree(Joined(m.buffers));
    assert Trimmed(m) == Joined(m.buffers);
    hide Joined, Padded;
    if SentBytes(m) == MessageBytes(m) {
      assert SentBytes(m)[|HeaderBytes(m.header)|..] == Joined(m.buffers);
      assert MessageBytes(m)[|HeaderBytes(m.header)|..] == Padded(Joined(m.buffers));
    }
  }
}
